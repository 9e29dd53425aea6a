/** The stored records of fancy-gpt and the values that flow between its parts.
    Identifiers, URLs and section names are opaque: they are compared, never taken apart. */
module Records {

  datatype Option<+T> = None | Some(value: T)

  type Id = int
  type Time = int
  type Byte = b: int | 0 <= b < 256

  /** The first place where a condition holds, or the length of the list. */
  function FirstWhere<T>(s: seq<T>, holds: T -> bool): (i: nat)
    ensures i <= |s|
    ensures i < |s| ==> holds(s[i])
    ensures forall j | 0 <= j < i :: !holds(s[j])
  {
    if s == [] || holds(s[0]) then 0 else 1 + FirstWhere(s[1..], holds)
  }

  // ------------------------------------------------------------ enumerations

  datatype Mode = Review | Design | Consult | Investigate | Verify | Writing

  datatype RequestState =
    | New | RunningPlanner | WaitingPlanner | RunningFinal | WaitingFinal | Complete | Failed

  datatype ChatPolicy = ContinueChat | NewChat | IndependentChat | TemporaryChat

  datatype ChatKind = Main | Standard | Independent

  // ----------------------------------------------------- session-side records

  datatype SessionRecord = SessionRecord(
    repoRoot: Id,
    active: Option<Id>,
    chatIds: seq<Id>,
    updatedAt: Time,
    closedAt: Option<Time>)

  datatype ChatRecord = ChatRecord(
    sessionId: Id,
    kind: ChatKind,
    conversation: Option<Id>,
    tunnel: Option<Id>,
    requestIds: seq<Id>,
    updatedAt: Time,
    archivedAt: Option<Time>)

  // ----------------------------------------------------- request-side records

  /** `session` is the id the request resolves to: the one it names, or else the default
      one of its repository root. */
  datatype RawRequest = RawRequest(
    mode: Mode,
    repoRoot: Id,
    session: Id,
    chat: Option<Id>,
    policy: ChatPolicy,
    temporary: bool,
    conversation: Option<Id>)

  datatype Route = Route(deepDesignReview: bool, requiredSections: seq<Id>)

  datatype Manifest = Manifest(taskIds: seq<Id>, evidenceIds: seq<Id>, serial: Id)

  /** A context pack remembers what it was built from. */
  datatype Pack = Pack(request: RawRequest, manifest: Manifest, content: Id)

  datatype OptionAnalysis = OptionAnalysis(foldedName: Id, advantages: nat, disadvantages: nat, guided: bool)

  datatype Verdict = Pass | Fail | Insufficient | OtherVerdict

  datatype TaskTrace = TaskTrace(taskId: Id, urls: seq<Id>)

  datatype Report = Report(
    requestId: Id,
    mode: Mode,
    verdict: Verdict,
    sections: seq<Id>,
    options: seq<OptionAnalysis>,
    hypotheses: nat,
    deliverables: nat,
    validationSteps: nat,
    traces: seq<TaskTrace>,
    coverage: seq<Id>,
    sourceUrls: seq<Id>)

  datatype RequestStatus = RequestStatus(
    state: RequestState,
    sessionId: Option<Id>,
    chatId: Option<Id>,
    policy: ChatPolicy,
    conversation: Option<Id>,
    partialText: Option<Id>,
    partialAt: Option<Time>,
    updatedAt: Time,
    error: Option<Id>)
  {
    /** The record without the two live-monitoring fields. */
    function Erased(): RequestStatus {
      this.(partialText := None, partialAt := None)
    }
  }

  /** What a model turn came back with. */
  datatype Response = Response(conversation: Option<Id>, payload: Report)

  datatype Resolution = Unbound | Bound(sessionId: Id, chatId: Id, conversation: Option<Id>)
}

/** engine.py, `_validate_report`, with the mode contract of the report model. */
module ReportValidation {
  import opened Records

  datatype ReportError =
    | BrokenModeContract | WrongMode | WrongRequest
    | MissingSections | MissingTasks | MissingEvidence | UndeclaredUrls | MissingOptions

  datatype Checked = Accepted(report: Report) | Rejected(error: ReportError)

  function SetOf(xs: seq<Id>): set<Id> { set x | x in xs }

  function TracedTasks(r: Report): set<Id> { set t | t in r.traces :: t.taskId }

  function TracedUrls(r: Report): set<Id> { set t, u | t in r.traces && u in t.urls :: u }

  predicate ModeContract(r: Report) {
    && (r.mode.Consult? ==>
          && |r.options| >= 2
          && (forall o | o in r.options :: o.advantages > 0 && o.disadvantages > 0 && o.guided)
          && |set o | o in r.options :: o.foldedName| == |r.options|)
    && (r.mode.Writing? || r.mode.Design? ==> r.deliverables > 0)
    && (r.mode.Investigate? ==> r.hypotheses > 0)
    && (r.mode.Verify? ==> r.coverage != [] && !r.verdict.OtherVerdict?)
    && r.validationSteps > 0
  }

  /** The checks in the order the code makes them; the first that fails is reported. */
  function ValidateReport(rid: Id, req: RawRequest, route: Route, m: Manifest, r: Report): Checked {
    if !ModeContract(r) then Rejected(BrokenModeContract)
    else if r.mode != req.mode then Rejected(WrongMode)
    else if r.requestId != rid then Rejected(WrongRequest)
    else if SetOf(route.requiredSections) - SetOf(r.sections) != {} then Rejected(MissingSections)
    else if SetOf(m.taskIds) - TracedTasks(r) != {} then Rejected(MissingTasks)
    else if SetOf(m.evidenceIds) - SetOf(r.coverage) != {} then Rejected(MissingEvidence)
    else if !(TracedUrls(r) <= SetOf(r.sourceUrls)) then Rejected(UndeclaredUrls)
    else if route.deepDesignReview && r.options == [] then Rejected(MissingOptions)
    else Accepted(r)
  }

  /** What the mode of a report asks of it: alternatives that can be told apart, each weighed both ways and
      with guidance, for a consultation; deliverables for a text or a design; hypotheses for an investigation;
      evidence and a definite verdict for a verification; and validation steps in every mode. */
  ghost predicate FitsItsMode(r: Report) {
    && r.validationSteps >= 1
    && match r.mode
       case Consult =>
         && |r.options| >= 2
         && (forall i | 0 <= i < |r.options| ::
               r.options[i].advantages >= 1 && r.options[i].disadvantages >= 1 && r.options[i].guided)
         && (forall i, j | 0 <= i < j < |r.options| :: r.options[i].foldedName != r.options[j].foldedName)
       case Writing => r.deliverables >= 1
       case Design => r.deliverables >= 1
       case Investigate => r.hypotheses >= 1
       case Verify => |r.coverage| >= 1 && r.verdict in {Pass, Fail, Insufficient}
       case Review => true
  }

  function FoldedNames(os: seq<OptionAnalysis>): set<Id> { set o | o in os :: o.foldedName }

  predicate NamedApart(os: seq<OptionAnalysis>) {
    forall i, j | 0 <= i < j < |os| :: os[i].foldedName != os[j].foldedName
  }

  lemma ApartNext(os: seq<OptionAnalysis>)
    requires os != []
    ensures var n := |os| - 1;
            NamedApart(os) <==> NamedApart(os[..n]) && os[n].foldedName !in FoldedNames(os[..n])
  {
    var n := |os| - 1;
    assert forall i | 0 <= i < n :: os[..n][i] == os[i] && os[i] in os[..n];
    if os[n].foldedName in FoldedNames(os[..n]) {
      var o :| o in os[..n] && o.foldedName == os[n].foldedName;
      var i :| 0 <= i < n && os[..n][i] == o;
      assert os[i].foldedName == os[n].foldedName;
    }
  }

  lemma NamesNext(os: seq<OptionAnalysis>)
    requires os != []
    ensures FoldedNames(os) == FoldedNames(os[..|os| - 1]) + {os[|os| - 1].foldedName}
  {
    assert os == os[..|os| - 1] + [os[|os| - 1]];
  }

  lemma OneMore(a: set<Id>, x: Id)
    ensures |a + {x}| == if x in a then |a| else |a| + 1
  {
    if x in a { assert a + {x} == a; }
  }

  lemma {:induction false} NamesDiffer(os: seq<OptionAnalysis>)
    ensures |FoldedNames(os)| <= |os|
    ensures |FoldedNames(os)| == |os| <==> NamedApart(os)
  {
    if os != [] {
      var n := |os| - 1;
      NamesDiffer(os[..n]);
      NamesNext(os);
      ApartNext(os);
      OneMore(FoldedNames(os[..n]), os[n].foldedName);
    }
  }

  lemma ModeContractIs(r: Report)
    ensures ModeContract(r) <==> FitsItsMode(r)
  {
    NamesDiffer(r.options);
    assert (set o | o in r.options :: o.foldedName) == FoldedNames(r.options);
    assert (forall o | o in r.options :: o.advantages > 0 && o.disadvantages > 0 && o.guided)
      <==> (forall i | 0 <= i < |r.options| :: r.options[i].advantages >= 1 && r.options[i].disadvantages >= 1 && r.options[i].guided) by {
      forall i | 0 <= i < |r.options| ensures r.options[i] in r.options {}
    }
  }

  /** What an accepted report owes to the request, the route and the manifest. */
  ghost predicate Answers(rid: Id, req: RawRequest, route: Route, m: Manifest, r: Report) {
    && FitsItsMode(r)
    && r.mode == req.mode
    && r.requestId == rid
    && (forall s | s in route.requiredSections :: s in r.sections)
    && (forall t | t in m.taskIds :: exists k :: 0 <= k < |r.traces| && r.traces[k].taskId == t)
    && (forall e | e in m.evidenceIds :: e in r.coverage)
    && (forall k, u | 0 <= k < |r.traces| && u in r.traces[k].urls :: u in r.sourceUrls)
    && (route.deepDesignReview ==> r.options != [])
  }

  lemma NothingMissing(wanted: set<Id>, given: set<Id>)
    ensures wanted - given == {} <==> wanted <= given
  {
    if wanted - given == {} {
      forall x | x in wanted ensures x in given {
        assert x !in wanted - given;
      }
    }
  }

  lemma SectionsCovered(xs: seq<Id>, ys: seq<Id>)
    ensures SetOf(xs) - SetOf(ys) == {} <==> forall x | x in xs :: x in ys
  {
    NothingMissing(SetOf(xs), SetOf(ys));
    if SetOf(xs) <= SetOf(ys) {
      forall x | x in xs ensures x in ys {
        assert x in SetOf(xs);
      }
    }
    if forall x | x in xs :: x in ys {
      forall x: Id | x in SetOf(xs) ensures x in SetOf(ys) {
        assert x in xs;
      }
      assert SetOf(xs) <= SetOf(ys);
    }
  }

  lemma TasksCovered(m: Manifest, r: Report)
    ensures SetOf(m.taskIds) - TracedTasks(r) == {}
       <==> forall t | t in m.taskIds :: exists k :: 0 <= k < |r.traces| && r.traces[k].taskId == t
  {
    NothingMissing(SetOf(m.taskIds), TracedTasks(r));
    if SetOf(m.taskIds) <= TracedTasks(r) {
      forall t | t in m.taskIds ensures exists k :: 0 <= k < |r.traces| && r.traces[k].taskId == t {
        assert t in SetOf(m.taskIds);
        var trace :| trace in r.traces && trace.taskId == t;
      }
    }
    if forall t | t in m.taskIds :: exists k :: 0 <= k < |r.traces| && r.traces[k].taskId == t {
      forall t: Id | t in SetOf(m.taskIds) ensures t in TracedTasks(r) {
        var k :| 0 <= k < |r.traces| && r.traces[k].taskId == t;
        assert r.traces[k] in r.traces;
      }
      assert SetOf(m.taskIds) <= TracedTasks(r);
    }
  }

  lemma UrlsDeclared(r: Report)
    ensures TracedUrls(r) <= SetOf(r.sourceUrls)
       <==> forall k, u | 0 <= k < |r.traces| && u in r.traces[k].urls :: u in r.sourceUrls
  {
    if TracedUrls(r) <= SetOf(r.sourceUrls) {
      forall k, u | 0 <= k < |r.traces| && u in r.traces[k].urls ensures u in r.sourceUrls {
        assert r.traces[k] in r.traces;
        assert u in TracedUrls(r);
      }
    } else {
      var u :| u in TracedUrls(r) && u !in SetOf(r.sourceUrls);
      var t :| t in r.traces && u in t.urls;
      var k :| 0 <= k < |r.traces| && r.traces[k] == t;
      assert u in r.traces[k].urls && u !in r.sourceUrls;
    }
  }

  /** `_validate_report` accepts exactly the reports that answer the request. */
  lemma AcceptedIffAnswers(rid: Id, req: RawRequest, route: Route, m: Manifest, r: Report)
    ensures ValidateReport(rid, req, route, m, r) == Accepted(r) <==> Answers(rid, req, route, m, r)
  {
    ModeContractIs(r);
    SectionsCovered(route.requiredSections, r.sections);
    SectionsCovered(m.evidenceIds, r.coverage);
    TasksCovered(m, r);
    UrlsDeclared(r);
  }
}
