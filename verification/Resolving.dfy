/** The step machine's `resolve`, taken alone, does what the method `Resolve` promises; and with it the whole
    interactive flow completes. */
module Resolving {
  import opened Records
  import opened ReportValidation
  import opened Store
  import opened Engine
  import opened Machine
  import opened Invariant
  import opened Preservation
  import opened Growth
  import opened Atomicity
  import opened Liveness
  import opened Conversation
  import opened Outcomes
  import opened Endings
  import opened Submissions
  import opened Races
  import opened Flows
  import Managers

  /** The run goes on by moves of client `i` alone, which is then at `p`. */
  ghost predicate WentOn(run: seq<State>, run': seq<State>, moves': seq<Move>, i: nat, p: Program)
    requires run != [] && run' != []
  {
    && IsTrace(run', moves') && run <= run' && Quiet(Last(run')) && OthersStand(Last(run), Last(run'), i)
    && Last(run').clients[i] == Client(p, None, false)
  }

  lemma WentOnCompose(run: seq<State>, run': seq<State>, moves': seq<Move>, run'': seq<State>, moves'': seq<Move>, i: nat, p: Program, p': Program)
    requires run != [] && run' != [] && run'' != []
    requires WentOn(run, run', moves', i, p) && WentOn(run', run'', moves'', i, p')
    ensures WentOn(run, run'', moves'', i, p')
  {
    OthersCompose(Last(run), Last(run'), Last(run''), i);
  }

  lemma OneStepOn(run: seq<State>, moves: seq<Move>, i: nat, p: Program, id: Id) returns (run': seq<State>, moves': seq<Move>)
    requires IsTrace(run, moves) && Stands(Last(run), i, p) && !p.Halted? && OpWanted(p).None? && id !in Last(run).used
    ensures run' != [] && WentOn(run, run', moves', i, Stepped(p, Last(run).disk, Drawing(id)))
    ensures Last(run').disk == Worked(p, Last(run).disk) && Last(run').used <= Last(run).used + {id}
  {
    run', moves' := Solo(run, moves, i, p, Drawing(id));
  }

  lemma DirWorked(p: Program, d: Disk, sid: Id)
    requires OpWanted(p).None? && (CallOf(p).Some? ==> CallOf(p).value.OnSession() && CallOf(p).value.sid == sid)
    ensures DirOf(Worked(p, d), sid) == if CallOf(p).Some? then Made(CallOf(p).value, DirOf(d, sid)) else DirOf(d, sid)
    ensures CallOf(p).Some? ==> SectionOf(CallOf(p).value, d) == SessionSection(CallOf(p).value, DirOf(d, sid))
    ensures forall rid :: FolderOf(Worked(p, d), rid) == FolderOf(d, rid)
  {
    if CallOf(p).Some? {
      MadeIs(CallOf(p).value, d);
      forall rid ensures FolderOf(Worked(p, d), rid) == FolderOf(d, rid) {
        SessionWorkKeepsFolders(CallOf(p).value, d, rid);
      }
    }
  }

  /** The session directory once `ensure_session` has passed. */
  function Ensured(a: SessionDir, r: Run): SessionDir {
    if a.record.Some? then a else a.(record := Some(SessionRecord(r.request.repoRoot, None, [], 0, None)))
  }

  predicate Unusable(a: SessionDir, r: Run) {
    a.record.Some? && (a.record.value.repoRoot != r.request.repoRoot || a.record.value.closedAt.Some?)
  }

  ghost predicate SameFolders(d: Disk, e: Disk) { forall rid :: FolderOf(e, rid) == FolderOf(d, rid) }

  /** A run looks whether its session exists. */
  lemma LookAlone(run: seq<State>, moves: seq<Move>, i: nat, r: Run, rid: Id)
    returns (run': seq<State>, moves': seq<Move>, p: Program)
    requires IsTrace(run, moves) && Stands(Last(run), i, Start(r)) && rid !in Last(run).used && !Temporary(r)
    ensures run' != [] && WentOn(run, run', moves', i, p) && rid !in Last(run').used && Last(run').disk == Last(run).disk
    ensures p == if DirOf(Last(run).disk, r.request.session).record.Some? then LoadSession(r) else MakeSession(r, 0)
  {
    var x := Another(Last(run).used, rid);
    var run1, moves1 := OneStepOn(run, moves, i, Start(r), x);
    x := Another(Last(run1).used, rid);
    run', moves' := OneStepOn(run1, moves1, i, CheckSession(r), x);
    p := Stepped(CheckSession(r), Last(run1).disk, Drawing(x));
    WentOnCompose(run, run1, moves1, run', moves', i, CheckSession(r), p);
  }

  /** `ensure_session`, step by step. */
  lemma EnsureAlone(run: seq<State>, moves: seq<Move>, i: nat, r: Run, rid: Id)
    returns (run': seq<State>, moves': seq<Move>, p: Program)
    requires IsTrace(run, moves) && Stands(Last(run), i, Start(r)) && rid !in Last(run).used && !Temporary(r)
    ensures run' != [] && WentOn(run, run', moves', i, p) && rid !in Last(run').used && SameFolders(Last(run).disk, Last(run').disk)
    ensures var sid := r.request.session; var a, b := DirOf(Last(run).disk, sid), DirOf(Last(run').disk, sid);
            && b == Ensured(a, r)
            && p == if Unusable(a, r) then Halted(false)
                    else if r.request.chat.Some? then LoadChat(r) else PickChat(r, if p.PickChat? then p.cid else 0, 0)
    ensures p.PickChat? ==> forall sid :: p.cid !in DirOf(Last(run').disk, sid).chats
  {
    var sid, d := r.request.session, Last(run).disk;
    var run2, moves2, p2 := LookAlone(run, moves, i, r, rid);
    var x := Another(Last(run2).used, rid);
    FreshChatId(run2, moves2, x);
    DirWorked(p2, d, sid);
    run', moves' := OneStepOn(run2, moves2, i, p2, x);
    p := Stepped(p2, d, Drawing(x));
    WentOnCompose(run, run2, moves2, run', moves', i, p2, p);
    NoNewChats(p2, d, x);
  }

  lemma FreshChatId(run: seq<State>, moves: seq<Move>, x: Id)
    requires IsTrace(run, moves) && x !in Last(run).used
    ensures forall sid :: x !in DirOf(Last(run).disk, sid).chats
  {
    TraceOk(run, moves, |run| - 1);
    FreshId(Last(run), x);
  }

  lemma NoNewChats(p: Program, d: Disk, x: Id)
    requires p.LoadSession? || p.MakeSession?
    requires forall sid :: x !in DirOf(d, sid).chats
    ensures forall sid :: x !in DirOf(Worked(p, d), sid).chats
  {
    var q := CallOf(p).value;
    WritesAreGuarded(q, d);
    AfterNone(q, d);
    if |SectionOf(q, d).writes| >= 1 { AfterOne(q, d); }
    forall sid ensures DirOf(Worked(p, d), sid).chats == DirOf(d, sid).chats {}
  }

  // ------------------------------------------------------ from the chat to the run

  /** The resolution of a request on a usable session directory `a` that has become `b`. */
  predicate ResolvedOn(r: Run, a: SessionDir, b: SessionDir, res: Resolution) {
    var req := r.request;
    && res.Bound? && res.sessionId == req.session && res.chatId in b.chats
    && res.conversation == b.chats[res.chatId].conversation
    && (req.conversation.Some? ==> res.conversation == req.conversation)
    && (match Managers.ChosenChat(req, a)
        case Some(c) =>
          && res.chatId == c && b.record.Some? && a.record.Some? && b.record.value.active == a.record.value.active
          && (req.conversation.None? ==> c in a.chats && b.chats[c] == a.chats[c])
        case None =>
          && (req.conversation.None? ==> res.conversation.None?)
          && res.chatId !in a.chats && b.chats[res.chatId].kind == Managers.NewKind(req) && b.chats[res.chatId].requestIds == []
          && b.record.Some? && res.chatId in b.record.value.chatIds
          && b.record.value.active == (if req.policy.IndependentChat? then (if a.record.Some? then a.record.value.active else None)
                                       else Some(res.chatId)))
  }

  /** Where a run is with the chat it has picked. */
  predicate Picked(r: Run, a: SessionDir, b: SessionDir, p: Program, rid: Id) {
    match p
    case BindExplicit(r', cid, _) =>
      && r' == r && r.request.conversation.Some? && cid in b.chats && b.record.Some?
      && ResolvedOn(r.(request := r.request.(conversation := None)), a, b, Bound(r.request.session, cid, b.chats[cid].conversation))
    case At(c, pt) => c.run == r && c.rid == rid && pt.WriteStatus? && ResolvedOn(r, a, b, c.res)
    case _ => false
  }

  /** The request names its chat. */
  lemma LoadStep(r: Run, a: SessionDir, d: SessionDir, inp: Input)
    requires !Temporary(r) && !Unusable(a, r) && d == Ensured(a, r) && DirOk(r.request.session, a) && r.request.chat.Some?
    ensures var q := CallOf(LoadChat(r)).value; var p' := Resume(LoadChat(r), SessionSection(q, d).ret, inp);
            if Managers.Refuses(r.request, a) then p' == Halted(false) else Picked(r, a, Made(q, d), p', inp.uuid)
  {
    assert d.chats == a.chats;
  }

  /** The policy makes a chat. */
  lemma MakeStep(r: Run, a: SessionDir, d: SessionDir, cid: Id, now: Time, inp: Input)
    requires !Temporary(r) && !Unusable(a, r) && d == Ensured(a, r) && DirOk(r.request.session, a) && r.request.chat.None?
    requires cid !in d.chats && Managers.ChosenChat(r.request, a).None?
    ensures var p := PickChat(r, cid, now); var q := CallOf(p).value; var p' := Resume(p, SessionSection(q, d).ret, inp);
            !Managers.Refuses(r.request, a) && Picked(r, a, Made(q, d), p', inp.uuid)
  {
    var q := CallOf(PickChat(r, cid, now)).value;
    assert SessionSection(q, d).ret == ChatRet(cid, FreshChat(r.request.session, Managers.NewKind(r.request), now));
  }

  /** The policy continues in the active chat. */
  lemma ContinueStep(r: Run, a: SessionDir, d: SessionDir, cid: Id, now: Time, inp: Input)
    requires !Temporary(r) && !Unusable(a, r) && d == Ensured(a, r) && DirOk(r.request.session, a) && r.request.chat.None?
    requires Managers.ChosenChat(r.request, a).Some?
    ensures var p := PickChat(r, cid, now); var q := CallOf(p).value; var p' := Resume(p, SessionSection(q, d).ret, inp);
            if Managers.Refuses(r.request, a) then p' == Halted(false) else Picked(r, a, Made(q, d), p', inp.uuid)
  {
    assert a.record.value.active.value in a.record.value.chatIds;
  }

  lemma PickStep(r: Run, a: SessionDir, d: SessionDir, p: Program, inp: Input)
    requires !Temporary(r) && !Unusable(a, r) && d == Ensured(a, r) && DirOk(r.request.session, a)
    requires p == LoadChat(r) || (p.PickChat? && p.run == r)
    requires if r.request.chat.Some? then p.LoadChat? else p.PickChat? && p.cid !in d.chats
    ensures CallOf(p).Some? && CallOf(p).value.OnSession() && CallOf(p).value.sid == r.request.session
    ensures var q := CallOf(p).value; var p' := Resume(p, SessionSection(q, d).ret, inp);
            if Managers.Refuses(r.request, a) then p' == Halted(false)
            else Picked(r, a, Made(q, d), p', inp.uuid)
  {
    if r.request.chat.Some? {
      LoadStep(r, a, d, inp);
    } else if Managers.ChosenChat(r.request, a).Some? {
      ContinueStep(r, a, d, p.cid, p.now, inp);
    } else {
      MakeStep(r, a, d, p.cid, p.now, inp);
    }
  }

  lemma BindStep(r: Run, a: SessionDir, d: SessionDir, p: Program, inp: Input)
    requires p.BindExplicit? && Picked(r, a, d, p, inp.uuid)
    ensures CallOf(p).Some? && CallOf(p).value.OnSession() && CallOf(p).value.sid == r.request.session
    ensures var q := CallOf(p).value; var p' := Resume(p, SessionSection(q, d).ret, inp);
            p'.At? && Picked(r, a, Made(q, d), p', inp.uuid)
  {
  }

  lemma BindAlone(run: seq<State>, moves: seq<Move>, i: nat, r: Run, rid: Id, a: SessionDir, p: Program)
    returns (run': seq<State>, moves': seq<Move>, p': Program)
    requires IsTrace(run, moves) && Stands(Last(run), i, p) && rid !in Last(run).used
    requires p.BindExplicit? && exists x :: Picked(r, a, DirOf(Last(run).disk, r.request.session), p, x)
    ensures run' != [] && WentOn(run, run', moves', i, p') && SameFolders(Last(run).disk, Last(run').disk)
    ensures p'.At? && Picked(r, a, DirOf(Last(run').disk, r.request.session), p', rid)
  {
    var sid, d := r.request.session, Last(run).disk;
    assert Picked(r, a, DirOf(d, sid), p, rid);
    BindStep(r, a, DirOf(d, sid), p, Drawing(rid));
    DirWorked(p, d, sid);
    run', moves' := OneStepOn(run, moves, i, p, rid);
    p' := Stepped(p, d, Drawing(rid));
  }

  lemma PickAlone(run: seq<State>, moves: seq<Move>, i: nat, r: Run, rid: Id, a: SessionDir, p: Program)
    returns (run': seq<State>, moves': seq<Move>, p': Program)
    requires IsTrace(run, moves) && Stands(Last(run), i, p) && rid !in Last(run).used && !Temporary(r) && !Unusable(a, r)
    requires DirOf(Last(run).disk, r.request.session) == Ensured(a, r) && DirOk(r.request.session, a)
    requires p == LoadChat(r) || (p.PickChat? && p.run == r)
    requires if r.request.chat.Some? then p.LoadChat? else p.PickChat? && p.cid !in DirOf(Last(run).disk, r.request.session).chats
    ensures run' != [] && WentOn(run, run', moves', i, p') && SameFolders(Last(run).disk, Last(run').disk)
    ensures if Managers.Refuses(r.request, a) then p' == Halted(false)
            else p'.At? && Picked(r, a, DirOf(Last(run').disk, r.request.session), p', rid)
  {
    var sid, d := r.request.session, Last(run).disk;
    var x := rid;
    if Stepped(p, d, Drawing(rid)).BindExplicit? { x := Another(Last(run).used, rid); }
    PickStep(r, a, DirOf(d, sid), p, Drawing(x));
    PickStep(r, a, DirOf(d, sid), p, Drawing(rid));
    DirWorked(p, d, sid);
    run', moves' := OneStepOn(run, moves, i, p, x);
    p' := Stepped(p, d, Drawing(x));
    if p'.BindExplicit? {
      var run1, moves1, p1 := run', moves', p';
      run', moves', p' := BindAlone(run1, moves1, i, r, rid, a, p1);
      WentOnCompose(run, run1, moves1, run', moves', i, p1, p');
    }
  }

  /** A run taken alone is resolved if and only if `Refuses` does not hold of its request and its session:
      a temporary one to nothing, any other to the chat it chooses or to a new one of the right kind, which
      becomes the active one unless it is independent; and no request is touched. */
  lemma ResolvesAlone(run: seq<State>, moves: seq<Move>, i: nat, r: Run, rid: Id)
    returns (run': seq<State>, moves': seq<Move>, p: Program)
    requires IsTrace(run, moves) && Stands(Last(run), i, Start(r)) && rid !in Last(run).used
    ensures run' != [] && WentOn(run, run', moves', i, p) && SameFolders(Last(run).disk, Last(run').disk)
    ensures var a, b := DirOf(Last(run).disk, r.request.session), DirOf(Last(run').disk, r.request.session);
            if Managers.Refuses(r.request, a) then p == Halted(false)
            else
              && p.At? && p.point.WriteStatus? && p.ctx.run == r && p.ctx.rid == rid
              && if Managers.IsTemporary(r.request) then p.ctx.res.Unbound? && b == a else ResolvedOn(r, a, b, p.ctx.res)
  {
    if Temporary(r) {
      run', moves' := OneStepOn(run, moves, i, Start(r), rid);
      p := Stepped(Start(r), Last(run).disk, Drawing(rid));
    } else {
      var a := DirOf(Last(run).disk, r.request.session);
      TraceOk(run, moves, |run| - 1);
      assert DirOk(r.request.session, a);
      run', moves', p := EnsureAlone(run, moves, i, r, rid);
      if !p.Halted? {
        var run1, moves1, p1 := run', moves', p;
        run', moves', p := PickAlone(run1, moves1, i, r, rid, a, p1);
        WentOnCompose(run, run1, moves1, run', moves', i, p1, p);
      }
    }
  }

  // ------------------------------------------------------ the interactive flow

  /** `prepare` taken alone: refused if and only if `Refuses` holds, and otherwise its request waits for its plan. */
  lemma PreparesAlone(run: seq<State>, moves: seq<Move>, i: nat, r: Run, rid: Id)
    returns (run': seq<State>, moves': seq<Move>, c: Context)
    requires IsTrace(run, moves) && Stands(Last(run), i, Start(r)) && rid !in Last(run).used && !r.automatic
    requires !Managers.Refuses(r.request, DirOf(Last(run).disk, r.request.session))
    ensures run' != [] && WentOn(run, run', moves', i, Halted(true))
    ensures c.run == r && c.rid == rid && EndsWith(c, FolderOf(Last(run').disk, rid), true) && Listed(Last(run').disk, c)
  {
    var p;
    run', moves', p := ResolvesAlone(run, moves, i, r, rid);
    c := p.ctx;
    var run1, moves1 := run', moves';
    run', moves' := PrepareFinishes(run1, moves1, i, c, p.point);
    WentOnCompose(run, run1, moves1, run', moves', i, p, Halted(true));
  }

  lemma KeepsRequest(run: seq<State>, moves: seq<Move>, n: nat, rid: Id)
    requires IsTrace(run, moves) && n < |run| && FolderOf(run[n].disk, rid).status.Some?
    ensures FolderGrows(FolderOf(run[n].disk, rid), FolderOf(Last(run).disk, rid))
  {
    TraceGrows(run, moves, n, |run| - 1);
  }

  function Interactive(r: Run, rid: Id, m: Manifest, payload: Report): seq<Client> {
    [Client(Start(r), None, false),
     Client(Submitting(rid, PlannerResult(m), TakeRequest), None, false),
     Client(Submitting(rid, FinalResult(payload), TakeRequest), None, false)]
  }

  lemma NobodyElseHolds(s: State, i: nat, rid: Id)
    requires i < |s.clients| && forall j | 0 <= j < |s.clients| && j != i :: OpHeld(s.clients[j].prog).None?
    requires OpHeld(s.clients[i].prog).None?
    ensures OpFree(s, RequestOp(rid))
  {
  }

  predicate HasRequest(f: Folder, r: Run, state: RequestState) {
    InState(f, state) && f.request == Some(r.request) && f.route == Some(r.route)
  }

  lemma Prepared(r: Run, rid: Id, m: Manifest, payload: Report) returns (run: seq<State>, moves: seq<Move>)
    requires !r.automatic && (Managers.IsTemporary(r.request) || r.request.chat.None?)
    ensures IsTrace(run, moves) && Quiet(Last(run)) && run[0].clients == Interactive(r, rid, m, payload)
    ensures Last(run).clients == Interactive(r, rid, m, payload)[0 := DONE]
    ensures HasRequest(FolderOf(Last(run).disk, rid), r, WaitingPlanner)
  {
    var c;
    run, moves := [State(EMPTY_DISK, Interactive(r, rid, m, payload), {})], [];
    run, moves, c := PreparesAlone(run, moves, 0, r, rid);
  }

  lemma Planned(run: seq<State>, moves: seq<Move>, r: Run, rid: Id, m: Manifest, payload: Report)
    returns (run': seq<State>, moves': seq<Move>)
    requires IsTrace(run, moves) && Quiet(Last(run)) && Last(run).clients == Interactive(r, rid, m, payload)[0 := DONE]
    requires HasRequest(FolderOf(Last(run).disk, rid), r, WaitingPlanner)
    ensures IsTrace(run', moves') && Quiet(Last(run')) && run <= run'
    ensures Last(run').clients == Interactive(r, rid, m, payload)[0 := DONE][1 := DONE]
    ensures HasRequest(FolderOf(Last(run').disk, rid), r, WaitingFinal) && FolderOf(Last(run').disk, rid).manifest == Some(m)
  {
    NobodyElseHolds(Last(run), 1, rid);
    run', moves' := SubmitFinishes(run, moves, 1, rid, PlannerResult(m), TakeRequest);
    KeepsRequest(run', moves', |run| - 1, rid);
  }

  lemma Concluded(run: seq<State>, moves: seq<Move>, r: Run, rid: Id, m: Manifest, payload: Report)
    returns (run': seq<State>, moves': seq<Move>)
    requires IsTrace(run, moves) && Quiet(Last(run)) && Last(run).clients == Interactive(r, rid, m, payload)[0 := DONE][1 := DONE]
    requires HasRequest(FolderOf(Last(run).disk, rid), r, WaitingFinal) && FolderOf(Last(run).disk, rid).manifest == Some(m)
    requires Answers(rid, r.request, r.route, m, payload)
    ensures IsTrace(run', moves') && run <= run' && Last(run').clients == [DONE, DONE, DONE]
    ensures HasRequest(FolderOf(Last(run').disk, rid), r, Complete)
    ensures FolderOf(Last(run').disk, rid).manifest == Some(m) && FolderOf(Last(run').disk, rid).result == Some(payload)
  {
    NobodyElseHolds(Last(run), 2, rid);
    run', moves' := SubmitFinishes(run, moves, 2, rid, FinalResult(payload), TakeRequest);
    KeepsRequest(run', moves', |run| - 1, rid);
  }

  /** For every request that an empty store does not refuse, every plan, and every report that answers
      them, there is a run of `prepare`, `submit_planner` and `submit_final` from an empty work directory
      that ends with all three successful and the request COMPLETE with that plan and that report. */
  lemma InteractiveFlowCompletes(r: Run, rid: Id, m: Manifest, payload: Report) returns (run: seq<State>, moves: seq<Move>)
    requires !r.automatic && (Managers.IsTemporary(r.request) || r.request.chat.None?)
    requires Answers(rid, r.request, r.route, m, payload)
    ensures IsTrace(run, moves) && run[0].clients == Interactive(r, rid, m, payload)
    ensures |Last(run).clients| == 3 && forall i | 0 <= i < 3 :: Last(run).clients[i].prog == Halted(true)
    ensures var f := FolderOf(Last(run).disk, rid);
            && InState(f, Complete) && f.request == Some(r.request) && f.route == Some(r.route)
            && f.manifest == Some(m) && f.result == Some(payload)
  {
    run, moves := Prepared(r, rid, m, payload);
    run, moves := Planned(run, moves, r, rid, m, payload);
    run, moves := Concluded(run, moves, r, rid, m, payload);
  }

  /** For every automatic request that an empty store does not refuse, every plan and every response that
      answers them, there is a run of `run_automatic` from an empty work directory that ends with success and
      the request COMPLETE, unless the request names a conversation and another one comes back. */
  lemma AutomaticFlowCompletes(r: Run, rid: Id, m: Manifest, content: Id, resp: Response) returns (run: seq<State>, moves: seq<Move>)
    requires r.automatic && (Managers.IsTemporary(r.request) || r.request.chat.None?)
    requires Answers(rid, r.request, r.route, m, resp.payload)
    requires r.request.conversation.Some? && resp.conversation.Some? ==> resp.conversation == r.request.conversation
    ensures IsTrace(run, moves) && run[0].clients == [Client(Start(r), None, false)]
    ensures Last(run).clients == [DONE]
    ensures var f := FolderOf(Last(run).disk, rid); HasRequest(f, r, Complete) && AnsweredBy(rid, f)
  {
    var p;
    run, moves := [State(EMPTY_DISK, [Client(Start(r), None, false)], {})], [];
    run, moves, p := ResolvesAlone(run, moves, 0, r, rid);
    assert DirOf(EMPTY_DISK, r.request.session) == EMPTY_DIR;
    assert ChatTakes(Last(run).disk, p.ctx, resp);
    run, moves := AutomaticFinishes(run, moves, 0, p.ctx, p.point, m, content, resp);
  }
}
