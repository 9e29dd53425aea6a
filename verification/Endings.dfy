/** What an engine call leaves behind when it returns, and exactly when it gives up, in every run of any
    number of clients. */
module Endings {
  import opened Records
  import opened ReportValidation
  import opened Store
  import opened Engine
  import opened Machine
  import opened Invariant
  import opened Preservation
  import opened Growth
  import opened Atomicity
  import opened Conversation
  import opened Outcomes

  /** Client `i` makes its own move k, and does not die. */
  predicate MovesAt(run: seq<State>, moves: seq<Move>, k: nat, i: nat) {
    && |run| == |moves| + 1 && k < |moves| && moves[k].who == i && !moves[k].act.Crash?
    && i < |run[k].clients| && i < |run[k + 1].clients|
  }

  // -------------------------------------------------------------- whole runs

  /** The status a resolved run gave its request, in the state it is in. */
  predicate StatusOf(c: Context, f: Folder, state: RequestState) {
    && f.status.Some? && f.status.value.state == state
    && f.status.value.sessionId == (if c.res.Bound? then Some(c.res.sessionId) else None)
    && f.status.value.chatId == (if c.res.Bound? then Some(c.res.chatId) else None)
    && f.status.value.policy == (if c.res.Bound? then c.run.request.policy else TemporaryChat)
    && f.request == Some(c.run.request) && f.route == Some(c.run.route)
  }

  predicate Unanswered(f: Folder) { f.manifest.None? && f.pack.None? && f.result.None? }

  /** The folder holds a pack of its request and manifest and a result that answers them. */
  ghost predicate AnsweredBy(rid: Id, f: Folder) {
    && f.request.Some? && f.route.Some? && f.manifest.Some? && f.pack.Some? && f.result.Some?
    && f.pack.value.request == f.request.value && f.pack.value.manifest == f.manifest.value
    && Answers(rid, f.request.value, f.route.value, f.manifest.value, f.result.value)
  }

  /** `prepare` ends with its request waiting for a plan; `run_automatic` with a report and its request
      complete, or with its request failed. */
  ghost predicate EndsWith(c: Context, f: Folder, ok: bool) {
    if !c.run.automatic then ok && StatusOf(c, f, WaitingPlanner) && Unanswered(f)
    else if ok then StatusOf(c, f, Complete) && AnsweredBy(c.rid, f)
    else StatusOf(c, f, Failed) && f.result.None? && f.status.value.error.Some?
  }

  lemma RequestCallEnds(c: Context, pt: Point, q: Call, f: Folder, inp: Input)
    requires PointFits(c, pt) && ContextCall(c, pt) == Some(q) && !q.OnSession()
    requires RunFolder(c, pt, false, f) && FolderValid(c.rid, f)
    requires ResumeContext(c, pt, RequestSection(q, f).ret, inp).Halted?
    ensures EndsWith(c, Filed(q, f), ResumeContext(c, pt, RequestSection(q, f).ret, inp).success)
    ensures PastAttach(pt) && (pt.Finish? ==> Filed(q, f).status.value.conversation == pt.response.conversation)
    ensures c.run.automatic ==> if ResumeContext(c, pt, RequestSection(q, f).ret, inp).success then pt.Finish? else pt.Failing?
  {
    var g := Filed(q, f);
    if pt.Finish? {
      AcceptedIffAnswers(c.rid, g.request.value, g.route.value, g.manifest.value, g.result.value);
    }
  }

  lemma SessionCallGoesOn(c: Context, pt: Point, q: Call, a: SessionDir, inp: Input)
    requires PointFits(c, pt) && ContextCall(c, pt) == Some(q) && q.OnSession()
    requires c.res.Bound? ==> c.res.chatId in a.chats
    ensures !ResumeContext(c, pt, SessionSection(q, a).ret, inp).Halted?
  {
  }

  lemma LocalGoesOn(c: Context, pt: Point, inp: Input)
    requires PointFits(c, pt) && ContextCall(c, pt).None? && OpWanted(At(c, pt)).None?
    ensures !LocalContext(c, pt, inp).Halted?
  {
  }

  /** What a client at one of its calls knew when it entered it. */
  lemma KnewAtEntry(run: seq<State>, moves: seq<Move>, e: nat, i: nat, c: Context, pt: Point)
    requires IsTrace(run, moves) && e < |moves| && moves[e] == Move(i, Enter) && i < |run[e].clients|
    requires run[e].clients[i].prog == At(c, pt)
    ensures RunFolder(c, pt, false, FolderOf(run[e].disk, c.rid)) && FolderValid(c.rid, FolderOf(run[e].disk, c.rid))
    ensures c.res.Bound? ==> c.res.chatId in DirOf(run[e].disk, c.res.sessionId).chats
  {
    TraceOk(run, moves, e);
    StepOf(run, moves, e);
    var cl := run[e].clients[i];
    assert ClientOk(run[e].disk, run[e].used, cl) && Owner(cl) == Some(c.rid);
    assert FolderValid(c.rid, FolderOf(run[e].disk, c.rid));
  }

  lemma ReturnEnds(run: seq<State>, moves: seq<Move>, k: nat, i: nat, c: Context, pt: Point)
    requires IsTrace(run, moves) && MovesAt(run, moves, k, i) && moves[k].act.Leave?
    requires run[k].clients[i].prog == At(c, pt) && run[k + 1].clients[i].prog.Halted?
    ensures EndsWith(c, FolderOf(run[k + 1].disk, c.rid), run[k + 1].clients[i].prog.success) && PastAttach(pt)
    ensures pt.Finish? ==> FolderOf(run[k + 1].disk, c.rid).status.value.conversation == pt.response.conversation
    ensures c.run.automatic ==> if run[k + 1].clients[i].prog.success then pt.Finish? else pt.Failing?
  {
    StepOf(run, moves, k);
    var q := ContextCall(c, pt).value;
    var e := CallsAreAtomic(run, moves, k, q);
    KnewAtEntry(run, moves, e, i, c, pt);
    TraceFits(run, moves, k, i);
    if q.OnSession() {
      SessionCallGoesOn(c, pt, q, DirOf(run[e].disk, q.sid), moves[k].act.inp);
    } else {
      FiledIs(q, run[e].disk);
      RequestCallEnds(c, pt, q, FolderOf(run[e].disk, c.rid), moves[k].act.inp);
    }
  }

  lemma OnlyReturnsEnd(run: seq<State>, moves: seq<Move>, k: nat, i: nat, c: Context, pt: Point)
    requires IsTrace(run, moves) && MovesAt(run, moves, k, i)
    requires run[k].clients[i].prog == At(c, pt) && run[k + 1].clients[i].prog.Halted?
    ensures moves[k].act.Leave?
  {
    StepOf(run, moves, k);
    TraceFits(run, moves, k, i);
    if moves[k].act.Local? { LocalGoesOn(c, pt, moves[k].act.inp); }
  }

  /** Every engine run that has its request and ends without its process dying leaves the request
      listed in the chat it was resolved to, and: `prepare` leaves it waiting for its plan, with nothing
      stored but request and route, and never ends otherwise; `run_automatic` leaves it COMPLETE with a
      result that answers it if it succeeds, and then its chat was bound to the conversation the status
      names; if it does not succeed, it leaves it FAILED with an error and without a result. */
  lemma RunsEnd(run: seq<State>, moves: seq<Move>, k: nat, i: nat, c: Context)
    requires IsTrace(run, moves) && MovesAt(run, moves, k, i)
    requires run[k].clients[i].prog.At? && run[k].clients[i].prog.ctx == c && run[k + 1].clients[i].prog.Halted?
    ensures EndsWith(c, FolderOf(run[k + 1].disk, c.rid), run[k + 1].clients[i].prog.success)
    ensures Listed(run[k + 1].disk, c) && FollowsRequest(c.run, c.res)
    ensures c.run.automatic && run[k + 1].clients[i].prog.success ==>
              WasBound(run, k + 1, c, FolderOf(run[k + 1].disk, c.rid).status.value.conversation)
  {
    var pt := run[k].clients[i].prog.point;
    OnlyReturnsEnd(run, moves, k, i, c, pt);
    ReturnEnds(run, moves, k, i, c, pt);
    ResolutionsFollowRequests(run, moves, k, i);
    TraceLists(run, moves, k, i);
    StepGrows(run, moves, k);
    ListedStays(run[k].disk, run[k + 1].disk, c);
    if pt.Finish? {
      TraceBinds(run, moves, k, i);
      WasBoundStays(run, k, c, pt.response.conversation);
    }
  }

  // ---------------------------------------------------- out of the state NEW

  lemma OwnerLeavesNew(p: Program, q: Call, snap: Disk, f: Folder)
    requires CallOf(p) == Some(q) && !q.OnSession() && !q.UpdateProgress? && RequestSection(q, f).writes != []
    requires Owner(Client(p, Some(OpenSection(snap, 0)), false)) == Some(q.rid)
    requires OwnFolder(Client(p, Some(OpenSection(snap, 0)), false), f)
    requires InState(f, New) && !InState(Written(q, f), New)
    ensures p.At? && p.ctx.rid == q.rid
    ensures StatusOf(p.ctx, Written(q, f), if p.ctx.run.automatic then RunningPlanner else WaitingPlanner)
    ensures Unanswered(Written(q, f))
  {
  }

  /** In every run, the move that takes a request out of NEW is a write of the run it belongs to: it is
      then waiting for its plan if that is a `prepare`, and in planning if it is automatic, with its
      request, route and resolution and with nothing else stored. */
  lemma LeavesNew(run: seq<State>, moves: seq<Move>, k: nat, rid: Id)
    requires IsTrace(run, moves) && k < |moves|
    requires StateOf(run[k], rid) == Some(New) && StateOf(run[k + 1], rid) != Some(New)
    ensures moves[k].act.WriteNext? && moves[k].who < |run[k].clients|
    ensures var p := run[k].clients[moves[k].who].prog; var f := FolderOf(run[k + 1].disk, rid);
            && p.At? && p.ctx.rid == rid && Unanswered(f)
            && StatusOf(p.ctx, f, if p.ctx.run.automatic then RunningPlanner else WaitingPlanner)
  {
    TraceOk(run, moves, k);
    StepOf(run, moves, k);
    var s, i, t := run[k], moves[k].who, run[k + 1];
    assert moves[k].act.WriteNext?;
    var q := CallOf(s.clients[i].prog).value;
    var w := Current(s.clients[i]).writes[s.clients[i].sec.value.done];
    if q.OnSession() {
      SessionWriteKept(s, i, q, w, t);
    } else {
      RequestLeavesNew(s, i, q, w, t, rid);
    }
  }

  lemma ProgressKeepsState(f: Folder, g: Folder)
    ensures SameButProgress(f, g) && f.status.Some? ==> g.status.Some? && g.status.value.state == f.status.value.state
  {
    if SameButProgress(f, g) && f.status.Some? { ErasedFields(f.status.value, g.status.value); }
  }

  lemma RequestLeavesNew(s: State, i: nat, q: Call, w: Write, t: State, rid: Id)
    requires AtWrite(s, i, q, w, t) && !q.OnSession()
    requires StateOf(s, rid) == Some(New) && StateOf(t, rid) != Some(New)
    ensures var p := s.clients[i].prog; var f := FolderOf(t.disk, rid);
            && p.At? && p.ctx.rid == rid && Unanswered(f)
            && StatusOf(p.ctx, f, if p.ctx.run.automatic then RunningPlanner else WaitingPlanner)
  {
    RequestWriteKept(s, i, q, w, t);
    RequestWriter(s, i, q, w, t);
    ProgressKeepsState(FolderOf(s.disk, q.rid), FolderOf(t.disk, q.rid));
    if !q.UpdateProgress? {
      OwnerAtWrite(s, i, q, w, t);
      OwnerWriteKept(s, i, q, w, t);
      OwnerLeavesNew(s.clients[i].prog, q, s.clients[i].sec.value.snap, FolderOf(s.disk, q.rid));
    }
  }

  // ------------------------------------------------------ exactly when it fails

  /** What goes wrong at a step of an automatic run: the provider, the planner check or the context
      builder fails, the report does not answer the request, or the chat by now carries another
      conversation than the one that came back. */
  ghost predicate Fault(c: Context, pt: Point, inp: Input, conversation: Option<Id>) {
    match pt
    case AwaitPlanner => !inp.ok
    case BuildContext(_) => !inp.ok
    case AwaitFinal(_, _) => !inp.ok
    case Validate(m, resp) => !inp.ok || !Answers(c.rid, c.run.request, c.run.route, m, resp.payload)
    case BindRead(_, resp) => conversation.Some? && conversation != resp.conversation
    case _ => false
  }

  predicate GivesUp(p: Program) { p.At? && p.point.Failing? }

  lemma RequestCallGivesUp(c: Context, pt: Point, q: Call, f: Folder, inp: Input)
    requires c.run.automatic && PointFits(c, pt) && ContextCall(c, pt) == Some(q) && !q.OnSession() && !pt.Failing?
    requires RunFolder(c, pt, false, f)
    ensures !GivesUp(ResumeContext(c, pt, RequestSection(q, f).ret, inp)) && !Fault(c, pt, inp, None)
  {
  }

  lemma SessionCallGivesUp(c: Context, pt: Point, q: Call, a: SessionDir, inp: Input)
    requires c.run.automatic && PointFits(c, pt) && ContextCall(c, pt) == Some(q) && q.OnSession()
    requires c.res.Bound? ==> c.res.chatId in a.chats && a.record.Some?
    ensures c.res.Bound? && q == ContextCall(c, pt).value && q.sid == c.res.sessionId
    ensures GivesUp(ResumeContext(c, pt, SessionSection(q, a).ret, inp))
            <==> Fault(c, pt, inp, a.chats[c.res.chatId].conversation)
    ensures pt.BindRead? ==> Made(q, a) == a
  {
  }

  lemma LocalGivesUp(c: Context, pt: Point, inp: Input)
    requires c.run.automatic && PointFits(c, pt) && ContextCall(c, pt).None? && OpWanted(At(c, pt)).None?
    ensures GivesUp(LocalContext(c, pt, inp)) <==> Fault(c, pt, inp, None)
    ensures !pt.BindRead?
  {
    if pt.Validate? {
      AcceptedIffAnswers(c.rid, c.run.request, c.run.route, pt.manifest, pt.response.payload);
    }
  }

  lemma DirsHaveRecords(run: seq<State>, moves: seq<Move>, e: nat, sid: Id, cid: Id)
    requires IsTrace(run, moves) && e < |run| && cid in DirOf(run[e].disk, sid).chats
    ensures DirOf(run[e].disk, sid).record.Some?
  {
    TraceOk(run, moves, e);
    assert DirOk(sid, DirOf(run[e].disk, sid));
  }

  lemma ReturnGivesUp(run: seq<State>, moves: seq<Move>, k: nat, i: nat, c: Context, pt: Point)
    requires IsTrace(run, moves) && MovesAt(run, moves, k, i) && moves[k].act.Leave?
    requires run[k].clients[i].prog == At(c, pt) && c.run.automatic && !pt.Failing?
    ensures GivesUp(run[k + 1].clients[i].prog)
            <==> Fault(c, pt, moves[k].act.inp, ConversationOf(run[k].disk, ChatOf(At(c, pt)).0, ChatOf(At(c, pt)).1))
  {
    StepOf(run, moves, k);
    var q := ContextCall(c, pt).value;
    var e := CallsAreAtomic(run, moves, k, q);
    KnewAtEntry(run, moves, e, i, c, pt);
    TraceFits(run, moves, k, i);
    if q.OnSession() {
      if c.res.Bound? { DirsHaveRecords(run, moves, e, c.res.sessionId, c.res.chatId); }
      SessionCallGivesUp(c, pt, q, DirOf(run[e].disk, c.res.sessionId), moves[k].act.inp);
      MadeIs(q, run[e].disk);
    } else {
      RequestCallGivesUp(c, pt, q, FolderOf(run[e].disk, c.rid), moves[k].act.inp);
    }
  }

  /** In every run, a step of an automatic run leads to failure if and only if something goes wrong at
      that very step; no interference of other processes and no state of the store makes it fail. */
  lemma GivesUpExactly(run: seq<State>, moves: seq<Move>, k: nat, i: nat, c: Context, pt: Point)
    requires IsTrace(run, moves) && MovesAt(run, moves, k, i) && (moves[k].act.Leave? || moves[k].act.Local?)
    requires run[k].clients[i].prog == At(c, pt) && c.run.automatic && !pt.Failing?
    ensures GivesUp(run[k + 1].clients[i].prog)
            <==> Fault(c, pt, moves[k].act.inp, ConversationOf(run[k].disk, ChatOf(At(c, pt)).0, ChatOf(At(c, pt)).1))
  {
    if moves[k].act.Leave? {
      ReturnGivesUp(run, moves, k, i, c, pt);
    } else {
      StepOf(run, moves, k);
      TraceFits(run, moves, k, i);
      LocalGivesUp(c, pt, moves[k].act.inp);
    }
  }

  // ------------------------------------------------------------ the final turn

  lemma RereadReads(c: Context, m: Manifest, a: SessionDir, inp: Input)
    requires c.res.Bound? && c.res.chatId in a.chats
    ensures var q := GetChat(c.res.sessionId, c.res.chatId);
            && Made(q, a) == a
            && ResumeContext(c, Reread(m), SessionSection(q, a).ret, inp)
               == At(c, CallFinal(m, if a.chats[c.res.chatId].conversation.Some? then a.chats[c.res.chatId].conversation
                                     else c.res.conversation))
  {
  }

  /** In every run, explicit conversation ids or not, a bound run that has taken its chat is about to send its
      final turn to the conversation the chat has by then, and to the resolved one only if it has none. */
  lemma TurnsAreSentTheChat(run: seq<State>, moves: seq<Move>, k: nat, i: nat, c: Context, m: Manifest)
    requires IsTrace(run, moves) && MovesAt(run, moves, k, i) && moves[k].act.Leave?
    requires run[k].clients[i].prog == At(c, Reread(m))
    ensures c.res.Bound?
    ensures var conversation := ConversationOf(run[k].disk, c.res.sessionId, c.res.chatId);
            run[k + 1].clients[i].prog == At(c, CallFinal(m, if conversation.Some? then conversation else c.res.conversation))
  {
    StepOf(run, moves, k);
    TraceFits(run, moves, k, i);
    var q := GetChat(c.res.sessionId, c.res.chatId);
    var e := CallsAreAtomic(run, moves, k, q);
    KnewAtEntry(run, moves, e, i, c, Reread(m));
    MadeIs(q, run[e].disk);
    RereadReads(c, m, DirOf(run[e].disk, c.res.sessionId), moves[k].act.inp);
  }

  // ---------------------------------------------------------------- pollers

  /** A poll notes its text and time on a request that is in planning or in its final turn, and does nothing
      to any other. */
  predicate Noted(a: Folder, b: Folder, text: Id, now: Time) {
    if InState(a, RunningPlanner) || InState(a, RunningFinal)
    then b == a.(status := Some(a.status.value.(partialText := Some(text), partialAt := Some(now))))
    else b == a
  }

  /** Every poll that returns has, between its first step and its last, noted its text exactly in a running
      state, whatever other processes do. */
  lemma PollsNote(run: seq<State>, moves: seq<Move>, k: nat, i: nat, rid: Id, text: Id, now: Time) returns (e: nat)
    requires IsTrace(run, moves) && MovesAt(run, moves, k, i) && moves[k].act.Leave?
    requires run[k].clients[i].prog == Polling(rid, text, now)
    ensures e < k && moves[e] == Move(i, Enter) && run[k + 1].clients[i].prog == Halted(true)
    ensures Noted(FolderOf(run[e].disk, rid), FolderOf(run[k + 1].disk, rid), text, now)
  {
    StepOf(run, moves, k);
    var q := UpdateProgress(rid, text, now);
    e := CallsAreAtomic(run, moves, k, q);
    FiledIs(q, run[e].disk);
    PollFiles(q, FolderOf(run[e].disk, rid));
  }

  lemma PollFiles(q: Call, f: Folder)
    requires q.UpdateProgress?
    ensures Noted(f, Filed(q, f), q.text, q.now) && !RequestSection(q, f).ret.Raised?
  {
  }
}
