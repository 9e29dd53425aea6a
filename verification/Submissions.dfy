/** How the two submissions of the interactive flow end, in every run of any number of clients. */
module Submissions {
  import opened Records
  import opened ReportValidation
  import opened Store
  import opened Engine
  import opened Machine
  import opened Invariant
  import opened Preservation
  import opened Growth
  import opened Atomicity
  import opened Outcomes
  import opened Endings

  // ----------------------------------------------- requests name chats that exist

  ghost predicate NamedChatsExist(d: Disk) {
    forall rid, sid, cid | Names(FolderOf(d, rid), sid, cid) :: Exists(d, sid, cid)
  }

  lemma OwnerNamesItsChat(p: Program, q: Call, snap: Disk, f: Folder, sid: Id, cid: Id)
    requires CallOf(p) == Some(q) && !q.OnSession() && !q.UpdateProgress? && RequestSection(q, f).writes != []
    requires Owner(Client(p, Some(OpenSection(snap, 0)), false)) == Some(q.rid)
    requires OwnFolder(Client(p, Some(OpenSection(snap, 0)), false), f)
    requires f.status.None? && Names(Written(q, f), sid, cid)
    ensures p.At? && p.ctx.res.Bound? && p.ctx.res.sessionId == sid && p.ctx.res.chatId == cid
  {
  }

  lemma AppearingStatusNames(s: State, i: nat, q: Call, w: Write, t: State, sid: Id, cid: Id)
    requires AtWrite(s, i, q, w, t) && !q.OnSession()
    requires FolderOf(s.disk, q.rid).status.None? && Names(FolderOf(t.disk, q.rid), sid, cid)
    ensures Exists(s.disk, sid, cid)
  {
    RequestWriteKept(s, i, q, w, t);
    RequestWriter(s, i, q, w, t);
    OwnerAtWrite(s, i, q, w, t);
    OwnerWriteKept(s, i, q, w, t);
    OwnerNamesItsChat(s.clients[i].prog, q, s.clients[i].sec.value.snap, FolderOf(s.disk, q.rid), sid, cid);
    assert ClientOk(s.disk, s.used, s.clients[i]);
  }

  lemma ExistsStays(d: Disk, e: Disk, sid: Id, cid: Id)
    requires DiskGrows(d, e) && Exists(d, sid, cid)
    ensures Exists(e, sid, cid)
  {
    assert DirGrows(DirOf(d, sid), DirOf(e, sid));
  }

  lemma NamesEarlier(d: Disk, e: Disk, rid: Id, sid: Id, cid: Id)
    requires DiskGrows(d, e) && Names(FolderOf(e, rid), sid, cid) && FolderOf(d, rid).status.Some?
    ensures Names(FolderOf(d, rid), sid, cid)
  {
    assert FolderGrows(FolderOf(d, rid), FolderOf(e, rid));
  }

  lemma NamedStep(run: seq<State>, moves: seq<Move>, k: nat, rid: Id, sid: Id, cid: Id)
    requires IsTrace(run, moves) && k < |moves| && NamedChatsExist(run[k].disk)
    requires Names(FolderOf(run[k + 1].disk, rid), sid, cid)
    ensures Exists(run[k + 1].disk, sid, cid)
  {
    TraceOk(run, moves, k);
    StepOf(run, moves, k);
    StepGrows(run, moves, k);
    if FolderOf(run[k].disk, rid).status.Some? {
      NamesEarlier(run[k].disk, run[k + 1].disk, rid, sid, cid);
    } else {
      StatusAppears(run[k], moves[k], run[k + 1], rid, sid, cid);
    }
    ExistsStays(run[k].disk, run[k + 1].disk, sid, cid);
  }

  lemma StatusAppears(s: State, m: Move, t: State, rid: Id, sid: Id, cid: Id)
    requires Inv(s) && Steps(s, m, t) && FolderOf(s.disk, rid).status.None? && Names(FolderOf(t.disk, rid), sid, cid)
    ensures Exists(s.disk, sid, cid)
  {
    assert m.act.WriteNext?;
    var q := CallOf(s.clients[m.who].prog).value;
    var w := Current(s.clients[m.who]).writes[s.clients[m.who].sec.value.done];
    if q.OnSession() {
      SessionWriteKept(s, m.who, q, w, t);
    } else {
      RequestWriteKept(s, m.who, q, w, t);
      AppearingStatusNames(s, m.who, q, w, t, sid, cid);
    }
  }

  /** In every reachable state the chat a request's status names exists. */
  lemma {:induction false} NamedTrace(run: seq<State>, moves: seq<Move>, n: nat)
    requires IsTrace(run, moves) && n < |run|
    ensures NamedChatsExist(run[n].disk)
  {
    if n > 0 {
      NamedTrace(run, moves, n - 1);
      forall rid, sid, cid | Names(FolderOf(run[n].disk, rid), sid, cid) ensures Exists(run[n].disk, sid, cid) {
        NamedStep(run, moves, n - 1, rid, sid, cid);
      }
    }
  }

  // ----------------------------------------------------------- how they end

  /** A plan submission ends with the plan and its context stored and the request waiting for its final
      result, or is refused because the request does not wait for a plan or because the planner check or
      the context builder refuses. A final one ends with the result stored and the request complete, or
      is refused because the request does not wait for it or because it does not answer. */
  ghost predicate SubmissionEnds(rid: Id, what: Submission, f: Folder, ok: bool, accepted: bool) {
    match what
    case PlannerResult(m) =>
      if ok then
        && InState(f, WaitingFinal) && f.manifest == Some(m)
        && f.request.Some? && f.pack.Some? && f.pack.value.request == f.request.value && f.pack.value.manifest == m
      else !InState(f, WaitingPlanner) || !accepted
    case FinalResult(payload) =>
      if ok then InState(f, Complete) && AnsweredBy(rid, f) && f.result == Some(payload)
      else
        || !InState(f, WaitingFinal)
        || (f.request.Some? && f.route.Some? && f.manifest.Some?
            && !Answers(rid, f.request.value, f.route.value, f.manifest.value, payload))
  }

  lemma PlannerCallEnds(rid: Id, m: Manifest, at: SubmitPoint, q: Call, f: Folder, inp: Input)
    requires SubmitCall(rid, PlannerResult(m), at) == Some(q) && !q.OnSession() && FolderValid(rid, f)
    requires !at.Load? ==> SubmitFolder(rid, PlannerResult(m), at, false, f)
    requires ResumeSubmit(rid, PlannerResult(m), at, RequestSection(q, f).ret, inp).Halted?
    ensures SubmissionEnds(rid, PlannerResult(m), Filed(q, f),
                           ResumeSubmit(rid, PlannerResult(m), at, RequestSection(q, f).ret, inp).success, inp.ok)
  {
  }

  lemma FinalCallEnds(rid: Id, r: Report, at: SubmitPoint, q: Call, f: Folder, inp: Input)
    requires SubmitCall(rid, FinalResult(r), at) == Some(q) && !q.OnSession() && FolderValid(rid, f)
    requires !at.Load? ==> SubmitFolder(rid, FinalResult(r), at, false, f)
    requires ResumeSubmit(rid, FinalResult(r), at, RequestSection(q, f).ret, inp).Halted?
    ensures SubmissionEnds(rid, FinalResult(r), Filed(q, f),
                           ResumeSubmit(rid, FinalResult(r), at, RequestSection(q, f).ret, inp).success, inp.ok)
  {
    var g := Filed(q, f);
    if g.request.Some? && g.route.Some? && g.manifest.Some? {
      AcceptedIffAnswers(rid, g.request.value, g.route.value, g.manifest.value, r);
    }
  }

  lemma ReadingChatGoesOn(rid: Id, what: Submission, at: SubmitPoint, q: Call, a: SessionDir, inp: Input)
    requires SubmitCall(rid, what, at) == Some(q) && q.OnSession() && q.GetChat? && q.cid in a.chats
    ensures !ResumeSubmit(rid, what, at, SessionSection(q, a).ret, inp).Halted?
  {
  }

  /** A submission knows that its request waits for it, from the moment it has looked. */
  lemma SubmitterKnows(run: seq<State>, moves: seq<Move>, e: nat, i: nat, rid: Id, what: Submission, at: SubmitPoint)
    requires IsTrace(run, moves) && e < |run| && i < |run[e].clients|
    requires run[e].clients[i] == Client(Submitting(rid, what, at), None, false)
    ensures FolderValid(rid, FolderOf(run[e].disk, rid))
    ensures !at.TakeRequest? && !at.Load? ==> SubmitFolder(rid, what, at, false, FolderOf(run[e].disk, rid))
  {
    TraceOk(run, moves, e);
    assert ClientOk(run[e].disk, run[e].used, run[e].clients[i]);
    assert FolderValid(rid, FolderOf(run[e].disk, rid));
  }

  lemma EnteringClient(run: seq<State>, moves: seq<Move>, e: nat, i: nat)
    requires IsTrace(run, moves) && e < |moves| && moves[e] == Move(i, Enter)
    ensures i < |run[e].clients| && run[e].clients[i] == Client(run[e].clients[i].prog, None, false)
  {
    StepOf(run, moves, e);
  }

  lemma ReturnSubmits(run: seq<State>, moves: seq<Move>, k: nat, i: nat, rid: Id, what: Submission, at: SubmitPoint)
    requires IsTrace(run, moves) && MovesAt(run, moves, k, i) && moves[k].act.Leave?
    requires run[k].clients[i].prog == Submitting(rid, what, at) && run[k + 1].clients[i].prog.Halted?
    ensures SubmissionEnds(rid, what, FolderOf(run[k + 1].disk, rid), run[k + 1].clients[i].prog.success, moves[k].act.inp.ok)
  {
    StepOf(run, moves, k);
    var q := SubmitCall(rid, what, at).value;
    var e := CallsAreAtomic(run, moves, k, q);
    EnteringClient(run, moves, e, i);
    SubmitterKnows(run, moves, e, i, rid, what, at);
    if q.OnSession() {
      ChatToRead(run, moves, e, i, rid, what, at, q);
      ReadingChatGoesOn(rid, what, at, q, DirOf(run[e].disk, q.sid), moves[k].act.inp);
    } else {
      FiledIs(q, run[e].disk);
      CallEnds(rid, what, at, q, FolderOf(run[e].disk, rid), moves[k].act.inp);
    }
  }

  lemma CallEnds(rid: Id, what: Submission, at: SubmitPoint, q: Call, f: Folder, inp: Input)
    requires SubmitCall(rid, what, at) == Some(q) && !q.OnSession() && FolderValid(rid, f)
    requires !at.Load? ==> SubmitFolder(rid, what, at, false, f)
    requires ResumeSubmit(rid, what, at, RequestSection(q, f).ret, inp).Halted?
    ensures SubmissionEnds(rid, what, Filed(q, f), ResumeSubmit(rid, what, at, RequestSection(q, f).ret, inp).success, inp.ok)
  {
    match what
    case PlannerResult(m) => PlannerCallEnds(rid, m, at, q, f, inp);
    case FinalResult(r) => FinalCallEnds(rid, r, at, q, f, inp);
  }

  /** The chat that a submission reads exists. */
  lemma ChatToRead(run: seq<State>, moves: seq<Move>, e: nat, i: nat, rid: Id, what: Submission, at: SubmitPoint, q: Call)
    requires IsTrace(run, moves) && e < |run| && SubmitCall(rid, what, at) == Some(q) && q.OnSession()
    requires SubmitFolder(rid, what, at, false, FolderOf(run[e].disk, rid))
    ensures q.GetChat? && q.cid in DirOf(run[e].disk, q.sid).chats
  {
    NamedTrace(run, moves, e);
    assert Names(FolderOf(run[e].disk, rid), q.sid, q.cid);
    assert Exists(run[e].disk, q.sid, q.cid);
  }

  lemma LocalSubmits(p: Program, d: Disk, inp: Input, f: Folder)
    requires p.Submitting? && CallOf(p).None? && OpWanted(p).None?
    requires SubmitFolder(p.rid, p.what, p.at, false, f) && (p.at.ReadChat? ==> p.at.status.sessionId.Some? && p.at.status.chatId.Some?)
    ensures LocalStep(p, d, inp).Halted? ==>
              SubmissionEnds(p.rid, p.what, f, LocalStep(p, d, inp).success, inp.ok)
  {
  }

  predicate ReadsNamed(p: Program) {
    p.Submitting? && p.at.ReadChat? ==> p.at.status.sessionId.Some? && p.at.status.chatId.Some?
  }

  lemma ReadsNamedCall(p: Program, ret: Ret, inp: Input)
    requires CallOf(p).Some? && ReadsNamed(p)
    ensures ReadsNamed(Resume(p, ret, inp))
  {
  }

  lemma ReadsNamedLocal(p: Program, d: Disk, inp: Input)
    requires ReadsNamed(p)
    ensures ReadsNamed(LocalStep(p, d, inp))
  {
  }

  lemma ReadsNamedStep(s: State, m: Move, t: State, i: nat)
    requires Steps(s, m, t) && i < |s.clients| && i < |t.clients| && ReadsNamed(s.clients[i].prog)
    ensures ReadsNamed(t.clients[i].prog)
  {
    if m.who == i {
      if m.act.Leave? { ReadsNamedCall(s.clients[i].prog, Current(s.clients[i]).ret, m.act.inp); }
      if m.act.Local? { ReadsNamedLocal(s.clients[i].prog, s.disk, m.act.inp); }
    }
  }

  lemma {:induction false} ReadsANamedChat(run: seq<State>, moves: seq<Move>, n: nat, i: nat)
    requires IsTrace(run, moves) && n < |run| && i < |run[n].clients|
    ensures ReadsNamed(run[n].clients[i].prog)
  {
    if n > 0 {
      SameClients(run, moves, n - 1);
      StepOf(run, moves, n - 1);
      ReadsANamedChat(run, moves, n - 1, i);
      ReadsNamedStep(run[n - 1], moves[n - 1], run[n], i);
    }
  }

  /** Every submission that ends without its process dying ends as it should, whatever comes in between:
      accepted with everything stored, or refused, and then for a reason. */
  lemma SubmissionsEnd(run: seq<State>, moves: seq<Move>, k: nat, i: nat, rid: Id, what: Submission)
    requires IsTrace(run, moves) && MovesAt(run, moves, k, i) && (moves[k].act.Leave? || moves[k].act.Local?)
    requires run[k].clients[i].prog.Submitting? && run[k].clients[i].prog.rid == rid && run[k].clients[i].prog.what == what
    requires run[k + 1].clients[i].prog.Halted?
    ensures SubmissionEnds(rid, what, FolderOf(run[k + 1].disk, rid), run[k + 1].clients[i].prog.success, moves[k].act.inp.ok)
  {
    var p := run[k].clients[i].prog;
    if moves[k].act.Leave? {
      ReturnSubmits(run, moves, k, i, rid, what, p.at);
    } else {
      StepOf(run, moves, k);
      SubmitterKnows(run, moves, k, i, rid, what, p.at);
      ReadsANamedChat(run, moves, k, i);
      LocalSubmits(p, run[k].disk, moves[k].act.inp, FolderOf(run[k].disk, rid));
    }
  }

  // -------------------------------------------------- exactly when it is refused

  /** Why a submission is refused at a step: its request does not wait for it, the planner check or the context
      builder refuses, or the report does not answer what is stored. */
  ghost predicate Refusal(rid: Id, what: Submission, at: SubmitPoint, inp: Input, f: Folder) {
    match at
    case Load => !InState(f, if what.PlannerResult? then WaitingPlanner else WaitingFinal)
    case ReadRoute(_, _) => what.PlannerResult? && !inp.ok
    case Build(_, _) => !inp.ok
    case ReadManifest(_, _) =>
      what.FinalResult?
      && !(f.request.Some? && f.route.Some? && f.manifest.Some?
           && Answers(rid, f.request.value, f.route.value, f.manifest.value, what.payload))
    case _ => false
  }

  lemma CallRefuses(rid: Id, what: Submission, at: SubmitPoint, q: Call, f: Folder, inp: Input)
    requires SubmitCall(rid, what, at) == Some(q) && !q.OnSession() && !at.TakeRequest? && FolderValid(rid, f)
    requires !at.Load? ==> SubmitFolder(rid, what, at, false, f)
    ensures ResumeSubmit(rid, what, at, RequestSection(q, f).ret, inp) == Halted(false) <==> Refusal(rid, what, at, inp, f)
    ensures Refusal(rid, what, at, inp, f) ==> Filed(q, f) == f
    ensures at.Load? || at.ReadRoute? || at.ReadManifest? ==> Filed(q, f) == f
  {
    if at.ReadManifest? && what.FinalResult? && f.manifest.Some? {
      AcceptedIffAnswers(rid, f.request.value, f.route.value, f.manifest.value, what.payload);
    }
  }

  lemma ChatReadRefusesNothing(rid: Id, what: Submission, at: SubmitPoint, q: Call, f: Folder, inp: Input)
    requires SubmitCall(rid, what, at) == Some(q) && q.OnSession()
    ensures !Refusal(rid, what, at, inp, f)
  {
  }

  lemma RefusalDependsOnStored(rid: Id, what: Submission, at: SubmitPoint, inp: Input, f: Folder, g: Folder)
    requires !at.Load? && !at.ReadManifest?
    ensures Refusal(rid, what, at, inp, f) == Refusal(rid, what, at, inp, g)
  {
  }

  lemma LocalRefuses(rid: Id, what: Submission, at: SubmitPoint, d: Disk, inp: Input, f: Folder)
    requires !at.TakeRequest? && SubmitCall(rid, what, at).None? && SubmitFolder(rid, what, at, false, f)
    requires ReadsNamed(Submitting(rid, what, at))
    ensures LocalStep(Submitting(rid, what, at), d, inp) == Halted(false) <==> Refusal(rid, what, at, inp, f)
  {
  }

  lemma ReturnRefuses(run: seq<State>, moves: seq<Move>, k: nat, i: nat, rid: Id, what: Submission, at: SubmitPoint)
    requires IsTrace(run, moves) && MovesAt(run, moves, k, i) && moves[k].act.Leave?
    requires run[k].clients[i].prog == Submitting(rid, what, at)
    ensures run[k + 1].clients[i].prog == Halted(false)
       <==> Refusal(rid, what, at, moves[k].act.inp, FolderOf(run[k].disk, rid))
  {
    StepOf(run, moves, k);
    var q := SubmitCall(rid, what, at).value;
    var e := CallsAreAtomic(run, moves, k, q);
    EnteringClient(run, moves, e, i);
    SubmitterKnows(run, moves, e, i, rid, what, at);
    if q.OnSession() {
      ChatToRead(run, moves, e, i, rid, what, at, q);
      ReadingChatGoesOn(rid, what, at, q, DirOf(run[e].disk, q.sid), moves[k].act.inp);
      ChatReadRefusesNothing(rid, what, at, q, FolderOf(run[k].disk, rid), moves[k].act.inp);
    } else {
      FiledIs(q, run[e].disk);
      CallRefuses(rid, what, at, q, FolderOf(run[e].disk, rid), moves[k].act.inp);
      if !at.Load? && !at.ReadManifest? {
        RefusalDependsOnStored(rid, what, at, moves[k].act.inp, FolderOf(run[e].disk, rid), FolderOf(run[k].disk, rid));
      }
    }
  }

  /** In every run a step of a submission refuses it if and only if there is a reason at that very step. */
  lemma RefusesExactly(run: seq<State>, moves: seq<Move>, k: nat, i: nat, rid: Id, what: Submission, at: SubmitPoint)
    requires IsTrace(run, moves) && MovesAt(run, moves, k, i) && (moves[k].act.Leave? || moves[k].act.Local?)
    requires run[k].clients[i].prog == Submitting(rid, what, at)
    ensures run[k + 1].clients[i].prog == Halted(false)
       <==> Refusal(rid, what, at, moves[k].act.inp, FolderOf(run[k].disk, rid))
  {
    if moves[k].act.Leave? {
      ReturnRefuses(run, moves, k, i, rid, what, at);
    } else {
      StepOf(run, moves, k);
      SubmitterKnows(run, moves, k, i, rid, what, at);
      ReadsANamedChat(run, moves, k, i);
      LocalRefuses(rid, what, at, run[k].disk, moves[k].act.inp, FolderOf(run[k].disk, rid));
    }
  }
}
