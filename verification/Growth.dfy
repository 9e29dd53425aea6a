/** What only grows: session directories and request folders over whole runs. */
module Growth {
  import opened Records
  import opened ReportValidation
  import opened Store
  import opened Engine
  import opened Machine
  import opened Invariant
  import opened Preservation

  // ---------------------------------------------------------------- sessions

  ghost predicate ChatGrows(a: ChatRecord, b: ChatRecord) {
    && b.kind == a.kind && b.sessionId == a.sessionId
    && a.requestIds <= b.requestIds
    && (a.archivedAt.Some? ==> b.archivedAt.Some?)
  }

  ghost predicate RecordGrows(a: SessionRecord, b: SessionRecord) {
    && b.repoRoot == a.repoRoot
    && a.chatIds <= b.chatIds
    && (a.active.Some? ==> b.active.Some?)
    && (a.closedAt.Some? ==> b.closedAt.Some? && b.chatIds == a.chatIds && b.active == a.active)
  }

  /** Chats are only added, their request lists only appended to, a closed session is frozen. */
  ghost predicate DirGrows(a: SessionDir, b: SessionDir) {
    && (a.record.Some? ==> b.record.Some? && RecordGrows(a.record.value, b.record.value))
    && (forall c | c in a.chats :: c in b.chats && ChatGrows(a.chats[c], b.chats[c]))
  }

  lemma DirStepGrows(q: Call, a: SessionDir, b: SessionDir)
    requires DirStep(q, a, b)
    ensures DirGrows(a, b)
  {
    forall c | c in a.chats ensures c in b.chats && ChatGrows(a.chats[c], b.chats[c]) {
      assert ChatStep(q, c, a.chats[c], b.chats[c]);
    }
  }

  // ---------------------------------------------------------------- requests

  function Rank(st: RequestState): nat {
    match st
    case New => 0
    case RunningPlanner => 1
    case WaitingPlanner => 1
    case RunningFinal => 2
    case WaitingFinal => 2
    case Complete => 3
    case Failed => 3
  }

  predicate Terminal(st: RequestState) { st.Complete? || st.Failed? }

  /** A request keeps its session and chat and moves only up in rank; request and route stay once it has
      left NEW, manifest and context pack once it is in its final stage, and the whole folder once it is
      complete or failed. */
  predicate FolderGrows(a: Folder, b: Folder) {
    a.status.Some? ==>
      && b.status.Some?
      && b.status.value.sessionId == a.status.value.sessionId
      && b.status.value.chatId == a.status.value.chatId
      && b.status.value.policy == a.status.value.policy
      && (b.status.value.state != a.status.value.state ==> Rank(a.status.value.state) < Rank(b.status.value.state))
      && (!a.status.value.state.New? ==> b.request == a.request && b.route == a.route)
      && (Rank(a.status.value.state) >= 2 ==> b.manifest == a.manifest && b.pack == a.pack)
      && (Terminal(a.status.value.state) ==> b == a)
  }

  /** A status record appears in state NEW. */
  predicate Appears(a: Folder, b: Folder) {
    a.status.None? && b.status.Some? ==> b.status.value.state.New?
  }

  lemma OwnedWriteGrows(p: Program, q: Call, snap: Disk, f: Folder)
    requires CallOf(p) == Some(q) && !q.OnSession() && !q.UpdateProgress? && RequestSection(q, f).writes != []
    requires Owner(Client(p, Some(OpenSection(snap, 0)), false)) == Some(q.rid)
    requires OwnFolder(Client(p, Some(OpenSection(snap, 0)), false), f)
    ensures FolderGrows(f, Written(q, f)) && Appears(f, Written(q, f))
  {
  }

  ghost predicate DiskGrows(d: Disk, e: Disk) {
    && (forall sid :: DirGrows(DirOf(d, sid), DirOf(e, sid)))
    && (forall rid :: FolderGrows(FolderOf(d, rid), FolderOf(e, rid)))
  }

  lemma RequestWriteGrows(s: State, i: nat, q: Call, w: Write, t: State)
    requires AtWrite(s, i, q, w, t) && !q.OnSession()
    ensures FolderGrows(FolderOf(s.disk, q.rid), FolderOf(t.disk, q.rid))
    ensures Appears(FolderOf(s.disk, q.rid), FolderOf(t.disk, q.rid))
  {
    RequestWriteKept(s, i, q, w, t);
    RequestWriter(s, i, q, w, t);
    if !q.UpdateProgress? {
      var cl := s.clients[i];
      assert ClientOk(s.disk, s.used, cl);
      OwnerWriteKept(s, i, q, w, t);
      OwnedWriteGrows(cl.prog, q, cl.sec.value.snap, FolderOf(s.disk, q.rid));
    }
  }

  lemma OneDirGrows(d: Disk, e: Disk, sid: Id)
    requires DirGrows(DirOf(d, sid), DirOf(e, sid)) && forall x | x != sid :: DirOf(e, x) == DirOf(d, x)
    requires forall rid :: FolderOf(e, rid) == FolderOf(d, rid)
    ensures DiskGrows(d, e) && forall rid :: Appears(FolderOf(d, rid), FolderOf(e, rid))
  {
  }

  lemma SessionWriteGrows(s: State, i: nat, q: Call, w: Write, t: State)
    requires AtWrite(s, i, q, w, t) && q.OnSession()
    ensures DiskGrows(s.disk, t.disk)
    ensures forall rid :: Appears(FolderOf(s.disk, rid), FolderOf(t.disk, rid))
  {
    SessionWriteKept(s, i, q, w, t);
    DirStepGrows(q, DirOf(s.disk, q.sid), DirOf(t.disk, q.sid));
    OneDirGrows(s.disk, t.disk, q.sid);
  }

  lemma WriteGrows(s: State, i: nat, t: State)
    requires Inv(s) && Can(s, i, WriteNext) && t == Do(s, i, WriteNext)
    ensures DiskGrows(s.disk, t.disk)
    ensures forall rid :: Appears(FolderOf(s.disk, rid), FolderOf(t.disk, rid))
  {
    var q := CallOf(s.clients[i].prog).value;
    var w := Current(s.clients[i]).writes[s.clients[i].sec.value.done];
    if q.OnSession() {
      SessionWriteGrows(s, i, q, w, t);
    } else {
      RequestWriteKept(s, i, q, w, t);
      RequestWriteGrows(s, i, q, w, t);
    }
  }

  lemma MoveGrows(s: State, i: nat, a: Action, t: State)
    requires Inv(s) && Can(s, i, a) && t == Do(s, i, a)
    ensures DiskGrows(s.disk, t.disk)
    ensures forall rid :: Appears(FolderOf(s.disk, rid), FolderOf(t.disk, rid))
  {
    if a.WriteNext? { WriteGrows(s, i, t); }
  }

  lemma GrowthComposes(d: Disk, e: Disk, f: Disk)
    requires DiskGrows(d, e) && DiskGrows(e, f)
    ensures DiskGrows(d, f)
  {
    forall sid ensures DirGrows(DirOf(d, sid), DirOf(f, sid)) {
      assert DirGrows(DirOf(d, sid), DirOf(e, sid)) && DirGrows(DirOf(e, sid), DirOf(f, sid));
      forall c | c in DirOf(d, sid).chats
        ensures c in DirOf(f, sid).chats && ChatGrows(DirOf(d, sid).chats[c], DirOf(f, sid).chats[c])
      {
        assert ChatGrows(DirOf(d, sid).chats[c], DirOf(e, sid).chats[c]);
        assert ChatGrows(DirOf(e, sid).chats[c], DirOf(f, sid).chats[c]);
      }
    }
    forall rid ensures FolderGrows(FolderOf(d, rid), FolderOf(f, rid)) {
      assert FolderGrows(FolderOf(d, rid), FolderOf(e, rid)) && FolderGrows(FolderOf(e, rid), FolderOf(f, rid));
    }
  }

  lemma StepGrows(run: seq<State>, moves: seq<Move>, k: nat)
    requires IsTrace(run, moves) && k < |moves|
    ensures DiskGrows(run[k].disk, run[k + 1].disk)
  {
    TraceOk(run, moves, k);
    StepOf(run, moves, k);
    MoveGrows(run[k], moves[k].who, moves[k].act, run[k + 1]);
  }

  lemma {:induction false} GrowthChains(run: seq<State>, i: nat, j: nat)
    requires i <= j < |run| && forall k | i <= k < j :: DiskGrows(run[k].disk, run[k + 1].disk)
    ensures DiskGrows(run[i].disk, run[j].disk)
    decreases j - i
  {
    if i < j {
      GrowthChains(run, i, j - 1);
      assert DiskGrows(run[j - 1].disk, run[j - 1 + 1].disk);
      GrowthComposes(run[i].disk, run[j - 1].disk, run[j].disk);
    }
  }

  /** Along every run, whatever the interleaving and wherever processes die, sessions and
      requests only grow. */
  lemma TraceGrows(run: seq<State>, moves: seq<Move>, i: nat, j: nat)
    requires IsTrace(run, moves) && i <= j < |run|
    ensures DiskGrows(run[i].disk, run[j].disk)
  {
    forall k | i <= k < j ensures DiskGrows(run[k].disk, run[k + 1].disk) { StepGrows(run, moves, k); }
    GrowthChains(run, i, j);
  }

  // --------------------------------------------------------------- lifecycle

  function StateOf(s: State, rid: Id): Option<RequestState> {
    if FolderOf(s.disk, rid).status.Some? then Some(FolderOf(s.disk, rid).status.value.state) else None
  }

  /** How often the state of a request changed along a run, its creation not counted. */
  function Changes(run: seq<State>, rid: Id): nat {
    if |run| <= 1 then 0
    else
      var n := |run|;
      Changes(run[..n - 1], rid)
      + if StateOf(run[n - 2], rid).Some? && StateOf(run[n - 1], rid) != StateOf(run[n - 2], rid) then 1 else 0
  }

  /** One move either leaves the state of a request or takes it up in rank, and a request appears in state NEW. */
  lemma RankRises(run: seq<State>, moves: seq<Move>, k: nat, rid: Id)
    requires IsTrace(run, moves) && k < |moves|
    ensures var a, b := StateOf(run[k], rid), StateOf(run[k + 1], rid);
            && (a.None? ==> b.None? || b == Some(New))
            && (a.Some? ==> b == a || (b.Some? && Rank(a.value) < Rank(b.value)))
  {
    TraceOk(run, moves, k);
    StepOf(run, moves, k);
    MoveGrows(run[k], moves[k].who, moves[k].act, run[k + 1]);
    assert FolderGrows(FolderOf(run[k].disk, rid), FolderOf(run[k + 1].disk, rid));
    assert Appears(FolderOf(run[k].disk, rid), FolderOf(run[k + 1].disk, rid));
  }

  lemma {:induction false} ChangesBelowRank(run: seq<State>, moves: seq<Move>, rid: Id)
    requires IsTrace(run, moves)
    ensures StateOf(run[|run| - 1], rid).None? ==> Changes(run, rid) == 0
    ensures StateOf(run[|run| - 1], rid).Some? ==> Changes(run, rid) <= Rank(StateOf(run[|run| - 1], rid).value)
    decreases |run|
  {
    var n := |run|;
    if n > 1 {
      var run', moves' := run[..n - 1], moves[..n - 2];
      ChangesBelowRank(run', moves', rid);
      RankRises(run, moves, n - 2, rid);
      assert run'[n - 2] == run[n - 2];
    }
  }

  /** Every request changes state at most three times in its life. */
  lemma AtMostThreeChanges(run: seq<State>, moves: seq<Move>, rid: Id)
    requires IsTrace(run, moves)
    ensures Changes(run, rid) <= 3
  {
    ChangesBelowRank(run, moves, rid);
  }

  /** A completed or failed request is frozen: status, prompts' inputs, pack and result, for good. */
  lemma TerminalIsFrozen(run: seq<State>, moves: seq<Move>, i: nat, j: nat, rid: Id)
    requires IsTrace(run, moves) && i <= j < |run|
    requires StateOf(run[i], rid) == Some(Complete) || StateOf(run[i], rid) == Some(Failed)
    ensures FolderOf(run[j].disk, rid) == FolderOf(run[i].disk, rid)
  {
    TraceGrows(run, moves, i, j);
    assert FolderGrows(FolderOf(run[i].disk, rid), FolderOf(run[j].disk, rid));
  }

  /** Once closed, a session keeps its chat list and its active chat. */
  lemma ClosedIsFrozen(run: seq<State>, moves: seq<Move>, i: nat, j: nat, sid: Id)
    requires IsTrace(run, moves) && i <= j < |run|
    requires DirOf(run[i].disk, sid).record.Some? && DirOf(run[i].disk, sid).record.value.closedAt.Some?
    ensures DirOf(run[j].disk, sid).record.Some?
    ensures var a, b := DirOf(run[i].disk, sid).record.value, DirOf(run[j].disk, sid).record.value;
            b.closedAt.Some? && b.chatIds == a.chatIds && b.active == a.active
  {
    TraceGrows(run, moves, i, j);
    assert DirGrows(DirOf(run[i].disk, sid), DirOf(run[j].disk, sid));
  }

  /** No update is lost: a request once listed in a chat stays listed, at the same place, and
      an active chat once chosen is never unset. */
  lemma NothingIsLost(run: seq<State>, moves: seq<Move>, i: nat, j: nat, sid: Id, cid: Id)
    requires IsTrace(run, moves) && i <= j < |run| && Exists(run[i].disk, sid, cid)
    ensures Exists(run[j].disk, sid, cid)
    ensures DirOf(run[i].disk, sid).chats[cid].requestIds <= DirOf(run[j].disk, sid).chats[cid].requestIds
    ensures DirOf(run[i].disk, sid).record.Some? && DirOf(run[i].disk, sid).record.value.active.Some? ==>
              DirOf(run[j].disk, sid).record.Some? && DirOf(run[j].disk, sid).record.value.active.Some?
  {
    TraceGrows(run, moves, i, j);
    assert DirGrows(DirOf(run[i].disk, sid), DirOf(run[j].disk, sid));
    assert ChatGrows(DirOf(run[i].disk, sid).chats[cid], DirOf(run[j].disk, sid).chats[cid]);
  }

  /** A poller's move shows nowhere but in the two live-monitoring fields. */
  lemma ProgressStutters(s: State, i: nat, a: Action, t: State)
    requires Inv(s) && Can(s, i, a) && t == Do(s, i, a) && s.clients[i].prog.Polling?
    ensures forall sid :: DirOf(t.disk, sid) == DirOf(s.disk, sid)
    ensures forall rid :: SameButProgress(FolderOf(s.disk, rid), FolderOf(t.disk, rid))
    ensures forall rid | FolderOf(t.disk, rid) != FolderOf(s.disk, rid) ::
              StateOf(s, rid) == Some(RunningPlanner) || StateOf(s, rid) == Some(RunningFinal)
  {
    if a.WriteNext? {
      var q := CallOf(s.clients[i].prog).value;
      var w := Current(s.clients[i]).writes[s.clients[i].sec.value.done];
      RequestWriteKept(s, i, q, w, t);
      RequestWriter(s, i, q, w, t);
    }
  }

  // ---------------------------------------------------- what states vouch for

  /** In every reachable state a COMPLETE request has a stored result that answers the stored
      request, route and manifest, and a request in its final stage has the manifest and the
      pack of one submission. */
  lemma StatesVouch(run: seq<State>, moves: seq<Move>, k: nat, rid: Id)
    requires IsTrace(run, moves) && k < |run|
    ensures var f := FolderOf(run[k].disk, rid);
            && (StateOf(run[k], rid) == Some(Complete) ==>
                  && PackMatches(f) && f.route.Some? && f.result.Some?
                  && Answers(rid, f.request.value, f.route.value, f.manifest.value, f.result.value))
            && (StateOf(run[k], rid) == Some(WaitingFinal) || StateOf(run[k], rid) == Some(RunningFinal) ==> PackMatches(f))
  {
    TraceOk(run, moves, k);
    var f := FolderOf(run[k].disk, rid);
    assert FolderValid(rid, f);
    if StateOf(run[k], rid) == Some(Complete) {
      AcceptedIffAnswers(rid, f.request.value, f.route.value, f.manifest.value, f.result.value);
    }
  }

  /** In every reachable state a listed request exists, names its chat, and is listed nowhere else. */
  lemma ListedOnce(run: seq<State>, moves: seq<Move>, k: nat, sid: Id, cid: Id, n: nat)
    requires IsTrace(run, moves) && k < |run| && Exists(run[k].disk, sid, cid)
    requires n < |DirOf(run[k].disk, sid).chats[cid].requestIds|
    ensures var rid := DirOf(run[k].disk, sid).chats[cid].requestIds[n];
            && Names(FolderOf(run[k].disk, rid), sid, cid)
            && forall sid', cid', n' | Exists(run[k].disk, sid', cid')
                   && 0 <= n' < |DirOf(run[k].disk, sid').chats[cid'].requestIds|
                   && DirOf(run[k].disk, sid').chats[cid'].requestIds[n'] == rid ::
                 sid' == sid && cid' == cid && n' == n
  {
    TraceOk(run, moves, k);
    var d := run[k].disk;
    var rid := DirOf(d, sid).chats[cid].requestIds[n];
    assert rid in DirOf(d, sid).chats[cid].requestIds;
    assert Names(FolderOf(d, rid), sid, cid);
    forall sid', cid', n' | Exists(d, sid', cid') && 0 <= n' < |DirOf(d, sid').chats[cid'].requestIds|
                            && DirOf(d, sid').chats[cid'].requestIds[n'] == rid
      ensures sid' == sid && cid' == cid && n' == n
    {
      assert rid in DirOf(d, sid').chats[cid'].requestIds;
      assert Names(FolderOf(d, rid), sid', cid');
      assert DirOk(sid, DirOf(d, sid));
      assert Distinct(DirOf(d, sid).chats[cid].requestIds);
    }
  }

  /** In every reachable state the session record is well formed: distinct chats that all exist,
      an active chat among them, at most one of them the MAIN chat. */
  lemma SessionsWellFormed(run: seq<State>, moves: seq<Move>, k: nat, sid: Id)
    requires IsTrace(run, moves) && k < |run| && DirOf(run[k].disk, sid).record.Some?
    ensures RecordOk(DirOf(run[k].disk, sid), DirOf(run[k].disk, sid).record.value)
  {
    TraceOk(run, moves, k);
    assert DirOk(sid, DirOf(run[k].disk, sid));
  }
}
