/** The flows do complete: whatever the request, the plan and the report, if the report answers. */
module Flows {
  import opened Records
  import opened ReportValidation
  import opened Store
  import opened Engine
  import opened Machine
  import opened Invariant
  import opened Preservation
  import opened Growth
  import opened Atomicity
  import opened Liveness
  import opened Conversation
  import opened Outcomes
  import opened Endings
  import opened Submissions
  import opened Races

  // ------------------------------------------------- one step of one client

  /** Client `i` is between two sections, at `p`, and nobody is in its way. */
  predicate Stands(s: State, i: nat, p: Program) {
    && Quiet(s) && i < |s.clients| && s.clients[i] == Client(p, None, false)
    && (OpWanted(p).Some? ==> OpFree(s, OpWanted(p).value))
  }

  /** Where `p` stands after its step. */
  function Stepped(p: Program, d: Disk, inp: Input): Program {
    if OpWanted(p).Some? then Granted(p)
    else if CallOf(p).Some? then Resume(p, SectionOf(CallOf(p).value, d).ret, inp)
    else LocalStep(p, d, inp)
  }

  function Worked(p: Program, d: Disk): Disk {
    if CallOf(p).Some? && OpWanted(p).None? then AfterWrites(CallOf(p).value, d, |SectionOf(CallOf(p).value, d).writes|) else d
  }

  /** The run goes on by one step of client `i` alone, and its last move is the client's. */
  ghost predicate SteppedAlone(run: seq<State>, moves: seq<Move>, run': seq<State>, moves': seq<Move>, i: nat, p: Program, inp: Input)
    requires run != [] && run' != []
  {
    && IsTrace(run', moves') && run <= run' && Quiet(Last(run')) && moves' != [] && MovesAt(run', moves', |moves'| - 1, i)
    && run'[|moves'| - 1].clients[i].prog == p
    && (OpWanted(p).None? ==> moves'[|moves'| - 1].act == if CallOf(p).Some? then Leave(inp) else Local(inp))
    && Last(run').disk == Worked(p, Last(run).disk) && Last(run').used <= Last(run).used + {inp.uuid}
    && i < |Last(run).clients|
    && Last(run').clients == Last(run).clients[i := Client(Stepped(p, Last(run).disk, inp), None, false)]
  }

  lemma Solo(run: seq<State>, moves: seq<Move>, i: nat, p: Program, inp: Input) returns (run': seq<State>, moves': seq<Move>)
    requires IsTrace(run, moves) && Stands(Last(run), i, p) && !p.Halted? && inp.uuid !in Last(run).used
    ensures run' != [] && SteppedAlone(run, moves, run', moves', i, p, inp)
  {
    LocksAreOrdered(p);
    if OpWanted(p).Some? {
      run', moves' := Take(run, moves, Move(i, TakeOp));
    } else if CallOf(p).Some? {
      run', moves' := CallWith(run, moves, i, CallOf(p).value, inp);
    } else {
      run', moves' := Take(run, moves, Move(i, Local(inp)));
    }
  }

  lemma StepDrops(p: Program, d: Disk, inp: Input)
    requires !p.Halted?
    ensures ProgramRank(Stepped(p, d, inp)) < ProgramRank(p)
  {
    LocksAreOrdered(p);
    if OpWanted(p).None? {
      if CallOf(p).Some? { ResumeDrops(p, SectionOf(CallOf(p).value, d).ret, inp); } else { LocalDrops(p, d, inp); }
    }
  }

  /** A free id other than `id`. */
  lemma Another(used: set<Id>, id: Id) returns (x: Id)
    ensures x !in used && x != id
  {
    x := FreshFrom(used + {id}, used + {id}, 0);
  }

  // ---------------------------------------------------------------- prepare

  /** Everything but client `i` and the disk is as it was. */
  predicate OthersStand(a: State, b: State, i: nat) {
    i < |a.clients| == |b.clients| && b.clients == a.clients[i := b.clients[i]]
  }

  lemma OthersCompose(a: State, b: State, c: State, i: nat)
    requires OthersStand(a, b, i) && OthersStand(b, c, i)
    ensures OthersStand(a, c, i)
  {
  }

  lemma EarlyStep(c: Context, pt: Point, d: Disk, inp: Input)
    requires PointFits(c, pt) && Early(pt)
    ensures OpWanted(At(c, pt)).None?
    ensures var p := Stepped(At(c, pt), d, inp); p.At? ==> p.ctx == c
    ensures var p := Stepped(At(c, pt), d, inp); p.At? || p.Halted?
  {
  }

  lemma PrepareStep(run: seq<State>, moves: seq<Move>, i: nat, c: Context, pt: Point)
    returns (run': seq<State>, moves': seq<Move>)
    requires IsTrace(run, moves) && Stands(Last(run), i, At(c, pt)) && !c.run.automatic
    ensures IsTrace(run', moves') && run <= run' && Quiet(Last(run')) && OthersStand(Last(run), Last(run'), i)
    ensures var cl := Last(run').clients[i];
            && cl == Client(cl.prog, None, false) && ProgramRank(cl.prog) < PointRank(pt)
            && (cl.prog.Halted? ==> cl.prog.success && EndsWith(c, FolderOf(Last(run').disk, c.rid), true) && Listed(Last(run').disk, c))
            && (!cl.prog.Halted? ==> cl.prog.At? && cl.prog.ctx == c)
  {
    var inp := SomeInput(Last(run).used);
    TraceFits(run, moves, |run| - 1, i);
    run', moves' := Solo(run, moves, i, At(c, pt), inp);
    StepDrops(At(c, pt), Last(run).disk, inp);
    EarlyStep(c, pt, Last(run).disk, inp);
    if Last(run').clients[i].prog.Halted? { RunsEnd(run', moves', |moves'| - 1, i, c); }
  }

  /** A `prepare` that has its request and is not disturbed completes. */
  lemma {:induction false} PrepareFinishes(run: seq<State>, moves: seq<Move>, i: nat, c: Context, pt: Point)
    returns (run': seq<State>, moves': seq<Move>)
    requires IsTrace(run, moves) && Stands(Last(run), i, At(c, pt)) && !c.run.automatic
    ensures IsTrace(run', moves') && run <= run' && Quiet(Last(run')) && OthersStand(Last(run), Last(run'), i)
    ensures Last(run').clients[i] == Client(Halted(true), None, false)
    ensures EndsWith(c, FolderOf(Last(run').disk, c.rid), true) && Listed(Last(run').disk, c)
    decreases PointRank(pt)
  {
    run', moves' := PrepareStep(run, moves, i, c, pt);
    var mid, p := Last(run'), Last(run').clients[i].prog;
    if !p.Halted? {
      EarlyStays(run', moves', i, c, p);
      run', moves' := PrepareFinishes(run', moves', i, c, p.point);
      OthersCompose(Last(run), mid, Last(run'), i);
    }
  }

  lemma EarlyStays(run: seq<State>, moves: seq<Move>, i: nat, c: Context, p: Program)
    requires IsTrace(run, moves) && i < |Last(run).clients| && Last(run).clients[i].prog == p
    requires p.At? && p.ctx == c && !c.run.automatic
    ensures PointFits(c, p.point) && OpWanted(p).None?
  {
    TraceFits(run, moves, |run| - 1, i);
  }

  // ------------------------------------------------------------- submissions

  /** The request waits for this submission, and a final report answers it. */
  ghost predicate Awaits(rid: Id, what: Submission, f: Folder) {
    match what
    case PlannerResult(_) => InState(f, WaitingPlanner)
    case FinalResult(payload) =>
      InState(f, WaitingFinal) && f.request.Some? && f.route.Some? && f.manifest.Some?
      && Answers(rid, f.request.value, f.route.value, f.manifest.value, payload)
  }

  /** What a submission needs of its folder at its point, beyond what it knows. */
  ghost predicate Promising(rid: Id, what: Submission, at: SubmitPoint, f: Folder) {
    at.Conclude? || at.StoreResult? || at.Advance? || Awaits(rid, what, f)
  }

  lemma SubmitStep(rid: Id, what: Submission, at: SubmitPoint, d: Disk, inp: Input)
    ensures var p := Stepped(Submitting(rid, what, at), d, inp);
            p.Halted? || (p.Submitting? && p.rid == rid && p.what == what && OpWanted(p).None?)
  {
  }

  lemma SubmitWork(rid: Id, what: Submission, at: SubmitPoint, f: Folder, q: Call)
    requires SubmitCall(rid, what, at) == Some(q) && !q.OnSession() && Promising(rid, what, at, f)
    requires !at.TakeRequest? && !at.Load? ==> SubmitFolder(rid, what, at, false, f)
    ensures Promising(rid, what, at, Filed(q, f)) || at.Conclude? || at.Advance? || at.StoreResult?
  {
  }

  /** The step takes a promising submission on, not to a refusal. */
  lemma SubmitGoesOn(rid: Id, what: Submission, at: SubmitPoint, d: Disk, inp: Input)
    requires var f := FolderOf(d, rid);
             && FolderValid(rid, f) && Promising(rid, what, at, f) && inp.ok
             && (!at.TakeRequest? && !at.Load? ==> SubmitFolder(rid, what, at, false, f))
    ensures var p := Stepped(Submitting(rid, what, at), d, inp);
            p.Submitting? ==> Promising(rid, what, p.at, FolderOf(Worked(Submitting(rid, what, at), d), rid))
  {
    var p := Submitting(rid, what, at);
    if OpWanted(p).None? && CallOf(p).Some? {
      var q := CallOf(p).value;
      if q.OnSession() {
        SessionWorkKeepsFolders(q, d, rid);
      } else {
        FiledIs(q, d);
        SubmitWork(rid, what, at, FolderOf(d, rid), q);
      }
    }
  }

  lemma SessionWorkKeepsFolders(q: Call, d: Disk, rid: Id)
    requires q.OnSession()
    ensures FolderOf(AfterWrites(q, d, |SectionOf(q, d).writes|), rid) == FolderOf(d, rid)
  {
    WritesAreGuarded(q, d);
    AfterNone(q, d);
    if |SectionOf(q, d).writes| >= 1 { AfterOne(q, d); }
    if |SectionOf(q, d).writes| == 2 { AfterTwo(q, d); }
  }

  /** A promising submission is not refused. */
  lemma PromisingSucceeds(rid: Id, what: Submission, at: SubmitPoint, d: Disk, inp: Input)
    requires var f := FolderOf(d, rid);
             && FolderValid(rid, f) && Promising(rid, what, at, f) && inp.ok
             && (!at.TakeRequest? && !at.Load? ==> SubmitFolder(rid, what, at, false, f))
    requires at.ReadChat? ==> ReadsNamed(Submitting(rid, what, at)) && Exists(d, at.status.sessionId.value, at.status.chatId.value)
    ensures var p := Stepped(Submitting(rid, what, at), d, inp); p.Halted? ==> p.success
  {
    var p := Submitting(rid, what, at);
    if OpWanted(p).None? {
      if CallOf(p).None? {
        PromisingLocal(rid, what, at, d, inp);
      } else if CallOf(p).value.OnSession() {
        ReadingChatGoesOn(rid, what, at, CallOf(p).value, DirOf(d, CallOf(p).value.sid), inp);
      } else {
        PromisingCall(rid, what, at, FolderOf(d, rid), CallOf(p).value, inp);
      }
    }
  }

  lemma PromisingLocal(rid: Id, what: Submission, at: SubmitPoint, d: Disk, inp: Input)
    requires !at.TakeRequest? && SubmitCall(rid, what, at).None? && inp.ok
    requires SubmitFolder(rid, what, at, false, FolderOf(d, rid)) && ReadsNamed(Submitting(rid, what, at))
    ensures !LocalStep(Submitting(rid, what, at), d, inp).Halted?
  {
  }

  lemma PromisingCall(rid: Id, what: Submission, at: SubmitPoint, f: Folder, q: Call, inp: Input)
    requires SubmitCall(rid, what, at) == Some(q) && !q.OnSession() && !at.TakeRequest? && inp.ok
    requires FolderValid(rid, f) && Promising(rid, what, at, f) && (!at.Load? ==> SubmitFolder(rid, what, at, false, f))
    ensures var p := ResumeSubmit(rid, what, at, RequestSection(q, f).ret, inp); p.Halted? ==> p.success
  {
    if at.ReadManifest? && what.FinalResult? {
      AcceptedIffAnswers(rid, f.request.value, f.route.value, f.manifest.value, what.payload);
    }
  }

  lemma ChatStillThere(run: seq<State>, moves: seq<Move>, i: nat, rid: Id, what: Submission, at: SubmitPoint)
    requires IsTrace(run, moves) && i < |Last(run).clients| && at.ReadChat?
    requires Last(run).clients[i] == Client(Submitting(rid, what, at), None, false)
    ensures ReadsNamed(Submitting(rid, what, at)) && Exists(Last(run).disk, at.status.sessionId.value, at.status.chatId.value)
  {
    SubmitterKnows(run, moves, |run| - 1, i, rid, what, at);
    ReadsANamedChat(run, moves, |run| - 1, i);
    var q := SubmitCall(rid, what, at).value;
    ChatToRead(run, moves, |run| - 1, i, rid, what, at, q);
  }

  lemma SubmitOneStep(run: seq<State>, moves: seq<Move>, i: nat, rid: Id, what: Submission, at: SubmitPoint)
    returns (run': seq<State>, moves': seq<Move>)
    requires IsTrace(run, moves) && Stands(Last(run), i, Submitting(rid, what, at))
    requires Promising(rid, what, at, FolderOf(Last(run).disk, rid))
    ensures IsTrace(run', moves') && run <= run' && Quiet(Last(run')) && OthersStand(Last(run), Last(run'), i)
    ensures var cl := Last(run').clients[i];
            && cl == Client(cl.prog, None, false) && ProgramRank(cl.prog) < SubmitRank(at)
            && (cl.prog.Halted? ==> cl.prog.success && SubmissionEnds(rid, what, FolderOf(Last(run').disk, rid), true, true))
            && (!cl.prog.Halted? ==>
                  && cl.prog.Submitting? && cl.prog.rid == rid && cl.prog.what == what && OpWanted(cl.prog).None?
                  && Promising(rid, what, cl.prog.at, FolderOf(Last(run').disk, rid)))
  {
    var inp := SomeInput(Last(run).used);
    var p := Submitting(rid, what, at);
    SubmitterKnows(run, moves, |run| - 1, i, rid, what, at);
    run', moves' := Solo(run, moves, i, p, inp);
    StepDrops(p, Last(run).disk, inp);
    SubmitStep(rid, what, at, Last(run).disk, inp);
    SubmitGoesOn(rid, what, at, Last(run).disk, inp);
    if at.ReadChat? { ChatStillThere(run, moves, i, rid, what, at); }
    PromisingSucceeds(rid, what, at, Last(run).disk, inp);
    SubmitOver(run', moves', i, rid, what, p);
  }

  lemma SubmitOver(run: seq<State>, moves: seq<Move>, i: nat, rid: Id, what: Submission, p: Program)
    requires IsTrace(run, moves) && moves != [] && MovesAt(run, moves, |moves| - 1, i)
    requires p.Submitting? && p.rid == rid && p.what == what && run[|moves| - 1].clients[i].prog == p
    requires OpWanted(p).None? ==> moves[|moves| - 1].act.Leave? || moves[|moves| - 1].act.Local?
    requires OpWanted(p).Some? ==> !Last(run).clients[i].prog.Halted?
    ensures Last(run).clients[i].prog == Halted(true) ==> SubmissionEnds(rid, what, FolderOf(Last(run).disk, rid), true, true)
  {
    if Last(run).clients[i].prog == Halted(true) { SubmissionsEnd(run, moves, |moves| - 1, i, rid, what); }
  }

  /** A submission that the request waits for, that is accepted, and that is not disturbed completes. */
  lemma {:induction false} SubmitFinishes(run: seq<State>, moves: seq<Move>, i: nat, rid: Id, what: Submission, at: SubmitPoint)
    returns (run': seq<State>, moves': seq<Move>)
    requires IsTrace(run, moves) && Stands(Last(run), i, Submitting(rid, what, at))
    requires Promising(rid, what, at, FolderOf(Last(run).disk, rid))
    ensures IsTrace(run', moves') && run <= run' && Quiet(Last(run')) && OthersStand(Last(run), Last(run'), i)
    ensures Last(run').clients[i] == Client(Halted(true), None, false)
    ensures SubmissionEnds(rid, what, FolderOf(Last(run').disk, rid), true, true)
    decreases SubmitRank(at)
  {
    run', moves' := SubmitOneStep(run, moves, i, rid, what, at);
    var mid, p' := Last(run'), Last(run').clients[i].prog;
    if !p'.Halted? {
      run', moves' := SubmitFinishes(run', moves', i, rid, what, p'.at);
      OthersCompose(Last(run), mid, Last(run'), i);
    }
  }

  // --------------------------------------------------------- automatic runs

  /** The answers the outside gives a run: this plan, this context and this response. */
  function Giving(id: Id, m: Manifest, content: Id, resp: Response): Input {
    Input(id, 0, true, m, content, resp)
  }

  /** What is at the point was given. */
  predicate Given(pt: Point, m: Manifest, resp: Response) {
    match pt
    case WriteManifest(m') => m' == m
    case BuildContext(m') => m' == m
    case WritePack(m', _) => m' == m
    case BeginFinal(m', _) => m' == m
    case TakeChat(m') => m' == m
    case Reread(m') => m' == m
    case CallFinal(m', _) => m' == m
    case AwaitFinal(m', _) => m' == m
    case BindRead(m', r) => m' == m && r == resp
    case BindWrite(m', r, _, _) => m' == m && r == resp
    case NoteConversation(m', r, _) => m' == m && r == resp
    case Validate(m', r) => m' == m && r == resp
    case WriteResult(r) => r == resp
    case Finish(r, _) => r == resp
    case Failing(_, _) => false
    case _ => true
  }

  /** The chat of the run takes the conversation that comes back. */
  predicate ChatTakes(d: Disk, c: Context, resp: Response) {
    c.res.Bound? && resp.conversation.Some? ==>
      var conv := ConversationOf(d, c.res.sessionId, c.res.chatId);
      conv.None? || conv == resp.conversation
  }

  lemma GivenStep(c: Context, pt: Point, d: Disk, m: Manifest, content: Id, resp: Response, id: Id)
    requires PointFits(c, pt) && c.run.automatic && Given(pt, m, resp)
    ensures var p := Stepped(At(c, pt), d, Giving(id, m, content, resp));
            p.Halted? || (p.At? && p.ctx == c && (GivesUp(p) || Given(p.point, m, resp)))
  {
  }

  lemma CallKeepsTaking(c: Context, pt: Point, d: Disk, m: Manifest, resp: Response)
    requires PointFits(c, pt) && Given(pt, m, resp) && ChatTakes(d, c, resp)
    ensures ChatTakes(Worked(At(c, pt), d), c, resp)
  {
    var p := At(c, pt);
    LocksAreOrdered(p);
    if CallOf(p).Some? {
      var q := CallOf(p).value;
      if q.OnSession() {
        MadeIs(q, d);
        SessionCallTakes(c, pt, DirOf(d, q.sid), resp);
      } else {
        RequestWorkKeepsDirs(q, d);
      }
    }
  }

  lemma RequestWorkKeepsDirs(q: Call, d: Disk)
    requires !q.OnSession()
    ensures forall sid :: DirOf(AfterWrites(q, d, |SectionOf(q, d).writes|), sid) == DirOf(d, sid)
  {
    AfterNone(q, d);
    if |SectionOf(q, d).writes| >= 1 { AfterOne(q, d); }
  }

  function ConversationIn(a: SessionDir, cid: Id): Option<Id> { if cid in a.chats then a.chats[cid].conversation else None }

  lemma SessionCallTakes(c: Context, pt: Point, a: SessionDir, resp: Response)
    requires PointFits(c, pt) && ContextCall(c, pt).Some? && ContextCall(c, pt).value.OnSession()
    requires pt.BindWrite? ==> pt.response == resp
    ensures var q := ContextCall(c, pt).value;
            && c.res.Bound? && q.sid == c.res.sessionId
            && (|| ConversationIn(Made(q, a), c.res.chatId) == ConversationIn(a, c.res.chatId)
                || ConversationIn(Made(q, a), c.res.chatId) == resp.conversation)
  {
  }

  /** Client `i` holds the only operation lock that is held, if any is. */
  predicate OthersHoldNothing(s: State, i: nat) {
    forall j | 0 <= j < |s.clients| && j != i :: OpHeld(s.clients[j].prog).None?
  }

  lemma NothingInTheWay(s: State, i: nat, p: Program)
    requires Quiet(s) && OthersHoldNothing(s, i) && i < |s.clients| && s.clients[i] == Client(p, None, false)
    ensures Stands(s, i, p)
  {
    LocksAreOrdered(p);
  }

  lemma OthersStillHoldNothing(a: State, b: State, i: nat)
    requires OthersStand(a, b, i) && OthersHoldNothing(a, i)
    ensures OthersHoldNothing(b, i)
  {
  }

  ghost predicate RunsWell(s: State, i: nat, c: Context, pt: Point, m: Manifest, resp: Response) {
    && Quiet(s) && OthersHoldNothing(s, i) && i < |s.clients| && s.clients[i] == Client(At(c, pt), None, false)
    && Given(pt, m, resp) && ChatTakes(s.disk, c, resp)
  }

  lemma NoFault(run: seq<State>, moves: seq<Move>, i: nat, c: Context, pt: Point, m: Manifest, content: Id, resp: Response, id: Id)
    requires IsTrace(run, moves) && moves != [] && MovesAt(run, moves, |moves| - 1, i) && run[|moves| - 1].clients[i].prog == At(c, pt)
    requires c.run.automatic && Given(pt, m, resp) && ChatTakes(run[|moves| - 1].disk, c, resp)
    requires OpWanted(At(c, pt)).None? ==> moves[|moves| - 1].act == if CallOf(At(c, pt)).Some? then Leave(Giving(id, m, content, resp))
                                                                     else Local(Giving(id, m, content, resp))
    requires OpWanted(At(c, pt)).Some? ==> !GivesUp(Last(run).clients[i].prog)
    requires Answers(c.rid, c.run.request, c.run.route, m, resp.payload)
    ensures !GivesUp(Last(run).clients[i].prog)
  {
    if OpWanted(At(c, pt)).None? {
      TraceFits(run, moves, |moves| - 1, i);
      GivesUpExactly(run, moves, |moves| - 1, i, c, pt);
    }
  }

  lemma LastMoveKeepsDisk(run: seq<State>, moves: seq<Move>)
    requires IsTrace(run, moves) && moves != [] && !moves[|moves| - 1].act.WriteNext?
    ensures run[|moves| - 1].disk == Last(run).disk
  {
    StepOf(run, moves, |moves| - 1);
  }

  lemma FinishSucceeds(run: seq<State>, moves: seq<Move>, i: nat, c: Context, pt: Point)
    requires IsTrace(run, moves) && moves != [] && MovesAt(run, moves, |moves| - 1, i)
    requires run[|moves| - 1].clients[i].prog == At(c, pt) && c.run.automatic && !pt.Failing? && Last(run).clients[i].prog.Halted?
    ensures Last(run).clients[i].prog == Halted(true) && EndsWith(c, FolderOf(Last(run).disk, c.rid), true) && Listed(Last(run).disk, c)
  {
    OnlyReturnsEnd(run, moves, |moves| - 1, i, c, pt);
    ReturnEnds(run, moves, |moves| - 1, i, c, pt);
    RunsEnd(run, moves, |moves| - 1, i, c);
  }

  lemma AutomaticStep(run: seq<State>, moves: seq<Move>, i: nat, c: Context, pt: Point, m: Manifest, content: Id, resp: Response)
    returns (run': seq<State>, moves': seq<Move>)
    requires IsTrace(run, moves) && c.run.automatic && RunsWell(Last(run), i, c, pt, m, resp)
    requires Answers(c.rid, c.run.request, c.run.route, m, resp.payload)
    ensures IsTrace(run', moves') && run <= run' && Quiet(Last(run')) && OthersStand(Last(run), Last(run'), i)
    ensures var cl := Last(run').clients[i];
            && cl == Client(cl.prog, None, false) && ProgramRank(cl.prog) < PointRank(pt)
            && (cl.prog.Halted? ==> cl.prog.success && EndsWith(c, FolderOf(Last(run').disk, c.rid), true) && Listed(Last(run').disk, c))
            && (!cl.prog.Halted? ==> cl.prog.At? && cl.prog.ctx == c && RunsWell(Last(run'), i, c, cl.prog.point, m, resp))
  {
    var id := FreshFrom(Last(run).used, Last(run).used, 0);
    var inp := Giving(id, m, content, resp);
    TraceFits(run, moves, |run| - 1, i);
    NothingInTheWay(Last(run), i, At(c, pt));
    run', moves' := Solo(run, moves, i, At(c, pt), inp);
    StepDrops(At(c, pt), Last(run).disk, inp);
    GivenStep(c, pt, Last(run).disk, m, content, resp, id);
    CallKeepsTaking(c, pt, Last(run).disk, m, resp);
    AutomaticStepped(run, moves, run', moves', i, c, pt, m, content, resp, id);
  }

  lemma AutomaticStepped(run: seq<State>, moves: seq<Move>, run': seq<State>, moves': seq<Move>, i: nat, c: Context, pt: Point,
      m: Manifest, content: Id, resp: Response, id: Id)
    requires run != [] && run' != [] && SteppedAlone(run, moves, run', moves', i, At(c, pt), Giving(id, m, content, resp))
    requires c.run.automatic && Given(pt, m, resp) && ChatTakes(Last(run').disk, c, resp) && OthersHoldNothing(Last(run), i)
    requires Answers(c.rid, c.run.request, c.run.route, m, resp.payload)
    requires var p := Last(run').clients[i].prog; p.Halted? || (p.At? && p.ctx == c && (GivesUp(p) || Given(p.point, m, resp)))
    ensures var p := Last(run').clients[i].prog;
            && (p.Halted? ==> p.success && EndsWith(c, FolderOf(Last(run').disk, c.rid), true) && Listed(Last(run').disk, c))
            && (!p.Halted? ==> p.At? && p.ctx == c && RunsWell(Last(run'), i, c, p.point, m, resp))
  {
    var p := Last(run').clients[i].prog;
    OthersStillHoldNothing(Last(run), Last(run'), i);
    if p.Halted? {
      FinishSucceeds(run', moves', i, c, pt);
    } else {
      LastMoveIs(run', moves', i, c, pt, m, content, resp, id);
      LastMoveKeepsDisk(run', moves');
      NoFault(run', moves', i, c, pt, m, content, resp, id);
    }
  }

  lemma LastMoveIs(run: seq<State>, moves: seq<Move>, i: nat, c: Context, pt: Point, m: Manifest, content: Id, resp: Response, id: Id)
    requires IsTrace(run, moves) && moves != [] && MovesAt(run, moves, |moves| - 1, i) && run[|moves| - 1].clients[i].prog == At(c, pt)
    requires Last(run).clients[i] == Client(Last(run).clients[i].prog, None, false)
    ensures !moves[|moves| - 1].act.WriteNext?
    ensures OpWanted(At(c, pt)).Some? ==> !GivesUp(Last(run).clients[i].prog)
  {
    StepOf(run, moves, |moves| - 1);
  }

  /** An automatic run that has its request and is not disturbed completes, if what it is given answers its
      request and its chat takes the conversation that comes back. */
  lemma {:induction false} AutomaticFinishes(run: seq<State>, moves: seq<Move>, i: nat, c: Context, pt: Point,
      m: Manifest, content: Id, resp: Response)
    returns (run': seq<State>, moves': seq<Move>)
    requires IsTrace(run, moves) && c.run.automatic && RunsWell(Last(run), i, c, pt, m, resp)
    requires Answers(c.rid, c.run.request, c.run.route, m, resp.payload)
    ensures IsTrace(run', moves') && run <= run' && Quiet(Last(run')) && OthersStand(Last(run), Last(run'), i)
    ensures Last(run').clients[i] == Client(Halted(true), None, false)
    ensures EndsWith(c, FolderOf(Last(run').disk, c.rid), true) && Listed(Last(run').disk, c)
    decreases PointRank(pt)
  {
    run', moves' := AutomaticStep(run, moves, i, c, pt, m, content, resp);
    var mid, p := Last(run'), Last(run').clients[i].prog;
    if !p.Halted? {
      run', moves' := AutomaticFinishes(run', moves', i, c, p.point, m, content, resp);
      OthersCompose(Last(run), mid, Last(run'), i);
    }
  }
}
