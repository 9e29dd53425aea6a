/** Sessions under concurrency: which chat `continue` finds, when the active chat can be an
    archived one, and which MAIN chats exist. */
module Sessions {
  import opened Records
  import opened Store
  import opened Engine
  import opened Machine
  import opened Invariant
  import opened Preservation

  function ActiveOf(d: Disk, sid: Id): Option<Id> {
    if DirOf(d, sid).record.Some? then DirOf(d, sid).record.value.active else None
  }

  // ----------------------------------------------------- agreement on continue

  /** The move ends a `get_or_create_main_chat` section of the session with chat `cid`. */
  predicate ContinuesWith(s: State, m: Move, sid: Id, cid: Id) {
    && m.act.Leave? && Can(s, m.who, m.act)
    && CallOf(s.clients[m.who].prog).value.MainChat? && CallOf(s.clients[m.who].prog).value.sid == sid
    && Current(s.clients[m.who]).ret.ChatRet? && Current(s.clients[m.who]).ret.cid == cid
  }

  /** The move is a write of a chat creation that activates, or of a selection, in the session. */
  predicate Activates(s: State, m: Move, sid: Id) {
    && m.act.WriteNext? && m.who < |s.clients| && CallOf(s.clients[m.who].prog).Some?
    && var q := CallOf(s.clients[m.who].prog).value;
       ((q.CreateChat? && q.makeActive) || q.SelectChat?) && q.sid == sid
  }

  /** What a client continues with is the active chat at that moment. */
  lemma ContinuedIsActive(s: State, m: Move, sid: Id, cid: Id)
    requires Inv(s) && ContinuesWith(s, m, sid, cid)
    ensures ActiveOf(s.disk, sid) == Some(cid)
  {
    var cl := s.clients[m.who];
    var q := CallOf(cl.prog).value;
    LeaveAgreement(s, m.who, m.act.inp, q);
    AfterNone(q, cl.sec.value.snap);
    if |Current(cl).writes| == 2 { AfterTwo(q, cl.sec.value.snap); }
  }

  lemma ActiveStays(s: State, m: Move, t: State, sid: Id)
    requires Inv(s) && Can(s, m.who, m.act) && t == Do(s, m.who, m.act) && !Activates(s, m, sid)
    requires ActiveOf(s.disk, sid).Some?
    ensures ActiveOf(t.disk, sid) == ActiveOf(s.disk, sid)
  {
    if m.act.WriteNext? {
      var q := CallOf(s.clients[m.who].prog).value;
      var w := Current(s.clients[m.who]).writes[s.clients[m.who].sec.value.done];
      if q.OnSession() { SessionWriteKept(s, m.who, q, w, t); } else { RequestWriteKept(s, m.who, q, w, t); }
      if q.OnSession() && q.sid != sid { assert DirOf(t.disk, sid) == DirOf(s.disk, sid); }
    }
  }

  lemma StepKeepsActive(run: seq<State>, moves: seq<Move>, k: nat, sid: Id)
    requires IsTrace(run, moves) && k < |moves| && !Activates(run[k], moves[k], sid) && ActiveOf(run[k].disk, sid).Some?
    ensures ActiveOf(run[k + 1].disk, sid) == ActiveOf(run[k].disk, sid)
  {
    TraceOk(run, moves, k);
    StepOf(run, moves, k);
    ActiveStays(run[k], moves[k], run[k + 1], sid);
  }

  lemma {:induction false} ActiveStaysAlong(run: seq<State>, moves: seq<Move>, i: nat, j: nat, sid: Id)
    requires IsTrace(run, moves) && i <= j < |run| && ActiveOf(run[i].disk, sid).Some?
    requires forall k | i <= k < j :: !Activates(run[k], moves[k], sid)
    ensures ActiveOf(run[j].disk, sid) == ActiveOf(run[i].disk, sid)
    decreases j - i
  {
    if i < j {
      ActiveStaysAlong(run, moves, i, j - 1, sid);
      StepKeepsActive(run, moves, j - 1, sid);
    }
  }

  /** Concurrent `continue` requests agree: with no activating call in between, any two clients
      that continue in the session get the same chat, however their steps interleave. */
  lemma ContinueAgrees(run: seq<State>, moves: seq<Move>, i: nat, j: nat, sid: Id, c: Id, e: Id)
    requires IsTrace(run, moves) && i <= j < |moves|
    requires ContinuesWith(run[i], moves[i], sid, c) && ContinuesWith(run[j], moves[j], sid, e)
    requires forall k | i <= k < j :: !Activates(run[k], moves[k], sid)
    ensures c == e
  {
    TraceOk(run, moves, i);
    TraceOk(run, moves, j);
    ContinuedIsActive(run[i], moves[i], sid, c);
    ContinuedIsActive(run[j], moves[j], sid, e);
    ActiveStaysAlong(run, moves, i, j, sid);
  }

  // ---------------------------------------------------------- archived chats

  predicate ActiveArchived(dir: SessionDir) {
    && dir.record.Some? && dir.record.value.active.Some?
    && dir.record.value.active.value in dir.chats
    && dir.chats[dir.record.value.active.value].archivedAt.Some?
  }

  /** The move writes `archived_at` into a chat that is the active one when the write happens. */
  predicate ArchivesActive(s: State, m: Move, sid: Id) {
    && m.act.WriteNext? && Can(s, m.who, m.act) && s.clients[m.who].sec.value.done == 0
    && var q := CallOf(s.clients[m.who].prog).value;
       q.UpdateChat? && q.sid == sid && q.update.archivedAt.Some? && ActiveOf(s.disk, sid) == Some(q.cid)
  }

  lemma ArchiveWriteArchives(s: State, m: Move, t: State, sid: Id)
    requires Inv(s) && Can(s, m.who, m.act) && t == Do(s, m.who, m.act) && ArchivesActive(s, m, sid)
    ensures ActiveArchived(DirOf(t.disk, sid))
  {
    var cl := s.clients[m.who];
    var q := CallOf(cl.prog).value;
    var w := Current(cl).writes[0];
    WriteKeepsAgreement(s, m.who, q, w, t);
    SessionWriteKept(s, m.who, q, w, t);
    AfterNone(q, cl.sec.value.snap);
    AfterOne(q, cl.sec.value.snap);
  }

  lemma SecondWriteKeepsChats(q: Call, d: Disk)
    requires q.UpdateChat? && |SectionOf(q, d).writes| == 2
    ensures DirOf(AfterWrites(q, d, 2), q.sid).chats == DirOf(AfterWrites(q, d, 1), q.sid).chats
    ensures DirOf(AfterWrites(q, d, 2), q.sid).record.value.active == DirOf(d, q.sid).record.value.active
  {
    AfterOne(q, d);
    AfterTwo(q, d);
  }

  lemma OthersDoNotArchive(s: State, m: Move, t: State, sid: Id)
    requires Inv(s) && Can(s, m.who, m.act) && t == Do(s, m.who, m.act) && !ArchivesActive(s, m, sid)
    requires !ActiveArchived(DirOf(s.disk, sid))
    ensures !ActiveArchived(DirOf(t.disk, sid))
  {
    if m.act.WriteNext? {
      var cl := s.clients[m.who];
      var q := CallOf(cl.prog).value;
      var w := Current(cl).writes[cl.sec.value.done];
      if !q.OnSession() {
        RequestWriteKept(s, m.who, q, w, t);
      } else {
        SessionWriteKept(s, m.who, q, w, t);
        var a, b := DirOf(s.disk, q.sid), DirOf(t.disk, q.sid);
        assert DirOk(q.sid, a);
        WritesAreGuarded(q, cl.sec.value.snap);
        if q.sid != sid {
          assert DirOf(t.disk, sid) == DirOf(s.disk, sid);
        } else if a.record.Some? && a.record.value.active.Some? {
          var c := a.record.value.active.value;
          assert ChatStep(q, c, a.chats[c], b.chats[c]);
          if q.UpdateChat? && cl.sec.value.done == 1 {
            WriteKeepsAgreement(s, m.who, q, w, t);
            SecondWriteKeepsChats(q, cl.sec.value.snap);
          }
        }
      }
    }
  }

  /** From a state where the session's active chat is not archived, a move makes it so exactly
      if it is an archiving write that comes after the chat was made active: the check that
      `archive_chat` made in an earlier section no longer holds when it writes. */
  lemma ActiveArchivedExactly(s: State, m: Move, t: State, sid: Id)
    requires Inv(s) && Can(s, m.who, m.act) && t == Do(s, m.who, m.act)
    requires !ActiveArchived(DirOf(s.disk, sid))
    ensures ActiveArchived(DirOf(t.disk, sid)) <==> ArchivesActive(s, m, sid)
  {
    if ArchivesActive(s, m, sid) { ArchiveWriteArchives(s, m, t, sid); } else { OthersDoNotArchive(s, m, t, sid); }
  }

  /** A client that has begun and not yet finished. */
  predicate InProgress(cl: Client) { Live(cl) && (cl.sec.Some? || !IsStart(cl.prog)) }

  /** A call-at-a-time history: nobody moves while another client is in the middle of its command. */
  predicate Serial(run: seq<State>, moves: seq<Move>) {
    |run| == |moves| + 1
    && forall k, j | 0 <= k < |moves| && 0 <= j < |run[k].clients| && j != moves[k].who :: !InProgress(run[k].clients[j])
  }

  /** What an archiving client has checked still holds. */
  predicate CheckHolds(d: Disk, cl: Client) {
    Live(cl) ==>
      match cl.prog
      case ArchiveLoadChat(sid, _, active) => DirOf(d, sid).record.Some? && ActiveOf(d, sid) == active
      case ArchiveWrite(sid, cid, _) => DirOf(d, sid).record.Some? && ActiveOf(d, sid) != Some(cid)
      case _ => true
  }

  lemma LeaveChecks(s: State, i: nat, inp: Input, t: State)
    requires Inv(s) && Can(s, i, Leave(inp)) && t == Do(s, i, Leave(inp)) && CheckHolds(s.disk, s.clients[i])
    ensures CheckHolds(t.disk, t.clients[i])
  {
    var cl := s.clients[i];
    var q := CallOf(cl.prog).value;
    if cl.prog.ArchiveLoadSession? || cl.prog.ArchiveLoadChat? {
      LeaveAgreement(s, i, inp, q);
      AfterNone(q, cl.sec.value.snap);
    } else {
      OnlyArchivesCheck(cl.prog, Current(cl).ret, inp);
    }
  }

  lemma OnlyArchivesCheck(p: Program, ret: Ret, inp: Input)
    requires CallOf(p).Some? && !p.ArchiveLoadSession? && !p.ArchiveLoadChat?
    ensures !Resume(p, ret, inp).ArchiveLoadChat? && !Resume(p, ret, inp).ArchiveWrite?
  {
  }

  lemma WriteChecks(s: State, i: nat, t: State)
    requires Inv(s) && Can(s, i, WriteNext) && t == Do(s, i, WriteNext) && CheckHolds(s.disk, s.clients[i])
    ensures CheckHolds(t.disk, t.clients[i])
  {
    var cl := s.clients[i];
    if cl.prog.ArchiveWrite? || cl.prog.ArchiveLoadChat? {
      var q := CallOf(cl.prog).value;
      var w := Current(cl).writes[cl.sec.value.done];
      SessionWriteKept(s, i, q, w, t);
    }
  }

  lemma CheckKept(s: State, m: Move, t: State)
    requires Inv(s) && Can(s, m.who, m.act) && t == Do(s, m.who, m.act)
    requires forall j | 0 <= j < |s.clients| && j != m.who :: !InProgress(s.clients[j])
    requires CheckHolds(s.disk, s.clients[m.who])
    ensures forall j | 0 <= j < |t.clients| :: CheckHolds(t.disk, t.clients[j])
  {
    forall j | 0 <= j < |t.clients| ensures CheckHolds(t.disk, t.clients[j]) {
      if j != m.who {
        assert t.clients[j] == s.clients[j] && !InProgress(s.clients[j]);
      } else if m.act.Leave? {
        LeaveChecks(s, j, m.act.inp, t);
      } else if m.act.WriteNext? {
        WriteChecks(s, j, t);
      }
    }
  }

  lemma CheckedWriteIsSafe(s: State, m: Move, sid: Id)
    requires Inv(s) && Can(s, m.who, m.act) && CheckHolds(s.disk, s.clients[m.who])
    ensures !ArchivesActive(s, m, sid)
  {
    assert ClientOk(s.disk, s.used, s.clients[m.who]);
  }

  lemma {:induction false} SerialInv(run: seq<State>, moves: seq<Move>, k: nat, sid: Id)
    requires IsTrace(run, moves) && Serial(run, moves) && k < |run|
    ensures forall j | 0 <= j < |run[k].clients| :: CheckHolds(run[k].disk, run[k].clients[j])
    ensures !ActiveArchived(DirOf(run[k].disk, sid))
  {
    if k > 0 {
      var s, m := run[k - 1], moves[k - 1];
      SerialInv(run, moves, k - 1, sid);
      TraceOk(run, moves, k - 1);
      CheckKept(s, m, run[k]);
      CheckedWriteIsSafe(s, m, sid);
      OthersDoNotArchive(s, m, run[k], sid);
    }
  }

  /** In a call-at-a-time history the active chat is never archived, so `continue` without a
      chat id never resolves to an archived chat. */
  lemma SerialContinueFindsLiveChat(run: seq<State>, moves: seq<Move>, k: nat, sid: Id, cid: Id)
    requires IsTrace(run, moves) && Serial(run, moves) && k < |moves|
    requires ContinuesWith(run[k], moves[k], sid, cid)
    ensures Current(run[k].clients[moves[k].who]).ret.chat.archivedAt.None?
  {
    var s, m := run[k], moves[k];
    TraceOk(run, moves, k);
    SerialInv(run, moves, k, sid);
    ContinuedIsActive(s, m, sid, cid);
    ReturnedChatExists(s, m.who, m.act.inp, CallOf(s.clients[m.who].prog).value);
  }

  // -------------------------------------------------------------- MAIN chats

  predicate UnlistedMain(d: Disk, sid: Id, cid: Id) {
    && Exists(d, sid, cid) && DirOf(d, sid).chats[cid].kind.Main?
    && (DirOf(d, sid).record.Some? ==> cid !in DirOf(d, sid).record.value.chatIds)
  }

  /** The client stands, or died, between writing a new MAIN chat and listing it. */
  predicate Between(cl: Client, sid: Id, cid: Id) {
    && cl.prog.PickChat? && cl.prog.cid == cid
    && CallOf(cl.prog).value.MainChat? && CallOf(cl.prog).value.sid == sid
    && cl.sec.Some? && cl.sec.value.done == 1
  }

  ghost predicate MainInv(s: State) {
    forall sid, cid :: UnlistedMain(s.disk, sid, cid) <==> exists i :: 0 <= i < |s.clients| && Between(s.clients[i], sid, cid)
  }

  lemma MainWrites(q: Call, d: Disk)
    requires q.MainChat? && SectionOf(q, d).writes != []
    ensures |SectionOf(q, d).writes| == 2
    ensures UnlistedMain(AfterWrites(q, d, 1), q.sid, q.cid) <== DirOk(q.sid, DirOf(d, q.sid)) && q.cid !in DirOf(d, q.sid).chats
    ensures !UnlistedMain(AfterWrites(q, d, 2), q.sid, q.cid)
  {
    AfterOne(q, d);
    AfterTwo(q, d);
  }

  lemma CreatedIsNotMain(q: Call, d: Disk, k: nat)
    requires q.CreateChat? && !q.kind.Main? && k <= |SectionOf(q, d).writes| && q.cid !in DirOf(d, q.sid).chats
    ensures !UnlistedMain(AfterWrites(q, d, k), q.sid, q.cid)
  {
    AfterNone(q, d);
    if k >= 1 { AfterOne(q, d); }
    if k == 2 { AfterTwo(q, d); }
  }

  /** A session write changes what is an unlisted MAIN chat for its own new id only. */
  lemma OthersListedAlike(s: State, i: nat, q: Call, w: Write, t: State, sid: Id, cid: Id)
    requires AtWrite(s, i, q, w, t) && q.OnSession() && !(MakesChat(q) && sid == q.sid && cid == q.cid)
    ensures UnlistedMain(t.disk, sid, cid) == UnlistedMain(s.disk, sid, cid)
  {
    SessionWriteKept(s, i, q, w, t);
    if sid != q.sid {
      assert DirOf(t.disk, sid) == DirOf(s.disk, sid);
    } else {
      var a, b := DirOf(s.disk, sid), DirOf(t.disk, sid);
      assert DirOk(sid, a) && DirOk(sid, b);
      if cid in a.chats { assert ChatStep(q, cid, a.chats[cid], b.chats[cid]); }
    }
  }

  /** A write of a section that makes the chat itself. */
  lemma MakerKeepsMain(s: State, i: nat, q: Call, w: Write, t: State)
    requires AtWrite(s, i, q, w, t) && q.OnSession() && MakesChat(q)
    ensures UnlistedMain(t.disk, q.sid, q.cid) <==> Between(t.clients[i], q.sid, q.cid)
    ensures forall j | 0 <= j < |t.clients| && j != i :: !Between(t.clients[j], q.sid, q.cid)
  {
    var cl := s.clients[i];
    var snap, k := cl.sec.value.snap, cl.sec.value.done;
    assert ClientOk(s.disk, s.used, cl);
    forall j | 0 <= j < |s.clients| && j != i ensures t.clients[j] == s.clients[j] && PairOk(cl, s.clients[j]) {}
    WriteKeepsAgreement(s, i, q, w, t);
    FreshBeforeSection(s, i, q);
    CreatorDrew(cl.prog, q);
    if q.MainChat? { MainWrites(q, snap); } else { CreatedIsNotMain(q, snap, k + 1); }
  }

  /** A write that concerns other chats. */
  lemma OtherWriteKeepsMain(s: State, i: nat, q: Call, w: Write, t: State, sid: Id, cid: Id)
    requires AtWrite(s, i, q, w, t) && q.OnSession() && !(MakesChat(q) && sid == q.sid && cid == q.cid)
    ensures UnlistedMain(t.disk, sid, cid) == UnlistedMain(s.disk, sid, cid)
    ensures forall j | 0 <= j < |s.clients| :: Between(t.clients[j], sid, cid) == Between(s.clients[j], sid, cid)
  {
    OthersListedAlike(s, i, q, w, t, sid, cid);
    forall j | 0 <= j < |s.clients| && j != i ensures t.clients[j] == s.clients[j] {}
  }

  lemma WriteKeepsMain(s: State, i: nat, q: Call, w: Write, t: State, sid: Id, cid: Id)
    requires AtWrite(s, i, q, w, t) && MainInv(s) && q.OnSession()
    ensures UnlistedMain(t.disk, sid, cid) <==> exists j :: 0 <= j < |t.clients| && Between(t.clients[j], sid, cid)
  {
    if MakesChat(q) && sid == q.sid && cid == q.cid {
      MakerKeepsMain(s, i, q, w, t);
    } else {
      OtherWriteKeepsMain(s, i, q, w, t, sid, cid);
      SameSomewhere(s, t, sid, cid);
    }
  }

  lemma SameSomewhere(s: State, t: State, sid: Id, cid: Id)
    requires |s.clients| == |t.clients|
    requires forall j | 0 <= j < |s.clients| :: Between(t.clients[j], sid, cid) == Between(s.clients[j], sid, cid)
    ensures (exists j :: 0 <= j < |s.clients| && Between(s.clients[j], sid, cid))
            <==> (exists j :: 0 <= j < |t.clients| && Between(t.clients[j], sid, cid))
  {
    if j: int :| 0 <= j < |s.clients| && Between(s.clients[j], sid, cid) { assert Between(t.clients[j], sid, cid); }
  }

  lemma OtherMovesKeepMain(s: State, m: Move, t: State, sid: Id, cid: Id)
    requires Inv(s) && MainInv(s) && Can(s, m.who, m.act) && t == Do(s, m.who, m.act)
    requires m.act.WriteNext? ==> !CallOf(s.clients[m.who].prog).value.OnSession()
    ensures UnlistedMain(t.disk, sid, cid) == UnlistedMain(s.disk, sid, cid)
    ensures forall j | 0 <= j < |s.clients| :: Between(t.clients[j], sid, cid) == Between(s.clients[j], sid, cid)
  {
    var cl := s.clients[m.who];
    if m.act.WriteNext? {
      RequestWriteKept(s, m.who, CallOf(cl.prog).value, Current(cl).writes[cl.sec.value.done], t);
      assert DirOf(t.disk, sid) == DirOf(s.disk, sid);
    }
    if m.act.Leave? {
      assert ClientOk(s.disk, s.used, cl);
      if CallOf(cl.prog).value.MainChat? && Current(cl).writes != [] { MainWrites(CallOf(cl.prog).value, cl.sec.value.snap); }
    }
  }

  lemma MoveKeepsMain(s: State, m: Move, t: State)
    requires Inv(s) && MainInv(s) && Can(s, m.who, m.act) && t == Do(s, m.who, m.act)
    ensures MainInv(t)
  {
    var cl := s.clients[m.who];
    forall sid, cid
      ensures UnlistedMain(t.disk, sid, cid) <==> exists j :: 0 <= j < |t.clients| && Between(t.clients[j], sid, cid)
    {
      if m.act.WriteNext? && CallOf(cl.prog).value.OnSession() {
        WriteKeepsMain(s, m.who, CallOf(cl.prog).value, Current(cl).writes[cl.sec.value.done], t, sid, cid);
      } else {
        OtherMovesKeepMain(s, m, t, sid, cid);
        SameSomewhere(s, t, sid, cid);
      }
    }
  }

  lemma StepKeepsMain(run: seq<State>, moves: seq<Move>, k: nat)
    requires IsTrace(run, moves) && k < |moves| && MainInv(run[k])
    ensures MainInv(run[k + 1])
  {
    TraceOk(run, moves, k);
    StepOf(run, moves, k);
    MoveKeepsMain(run[k], moves[k], run[k + 1]);
  }

  lemma {:induction false} TraceMain(run: seq<State>, moves: seq<Move>, k: nat)
    requires IsTrace(run, moves) && k < |run|
    ensures MainInv(run[k])
  {
    if k > 0 {
      TraceMain(run, moves, k - 1);
      StepKeepsMain(run, moves, k - 1);
    }
  }

  /** A session lists at most one MAIN chat; a MAIN record it does not list is exactly one whose
      creator stands or died between the two writes. So the session holds two MAIN records only
      if a process was stopped there. */
  lemma MainChatsExactly(run: seq<State>, moves: seq<Move>, k: nat, sid: Id, c: Id, e: Id)
    requires IsTrace(run, moves) && k < |run|
    requires Exists(run[k].disk, sid, c) && DirOf(run[k].disk, sid).chats[c].kind.Main?
    requires Exists(run[k].disk, sid, e) && DirOf(run[k].disk, sid).chats[e].kind.Main?
    ensures UnlistedMain(run[k].disk, sid, c) <==> exists i :: 0 <= i < |run[k].clients| && Between(run[k].clients[i], sid, c)
    ensures !UnlistedMain(run[k].disk, sid, c) && !UnlistedMain(run[k].disk, sid, e) ==> c == e
  {
    TraceMain(run, moves, k);
    TraceOk(run, moves, k);
    var dir := DirOf(run[k].disk, sid);
    assert DirOk(sid, dir);
    if !UnlistedMain(run[k].disk, sid, c) && !UnlistedMain(run[k].disk, sid, e) {
      assert ListsMain(dir, dir.record.value, c) && ListsMain(dir, dir.record.value, e);
    }
  }

  predicate MainRecord(d: Disk, sid: Id, cid: Id) { Exists(d, sid, cid) && DirOf(d, sid).chats[cid].kind.Main? }

  predicate ListedMain(d: Disk, sid: Id, cid: Id) {
    MainRecord(d, sid, cid) && DirOf(d, sid).record.Some? && cid in DirOf(d, sid).record.value.chatIds
  }

  ghost predicate Unfinished(s: State, sid: Id, cid: Id) {
    exists i :: 0 <= i < |s.clients| && Between(s.clients[i], sid, cid)
  }

  /** In every reachable state a session directory holds two MAIN records if and only if some client
      stands or died between the two writes that make one of them, and the other is listed or
      stands between two such writes as well. */
  lemma TwoMainExactly(run: seq<State>, moves: seq<Move>, k: nat, sid: Id)
    requires IsTrace(run, moves) && k < |run|
    ensures (exists c, e :: c != e && MainRecord(run[k].disk, sid, c) && MainRecord(run[k].disk, sid, e))
            <==> (exists c, e :: c != e && Unfinished(run[k], sid, c)
                                 && (ListedMain(run[k].disk, sid, e) || Unfinished(run[k], sid, e)))
  {
    var s := run[k];
    TraceMain(run, moves, k);
    forall c ensures MainRecord(s.disk, sid, c) <==> ListedMain(s.disk, sid, c) || Unfinished(s, sid, c) {
      assert Unfinished(s, sid, c) <==> UnlistedMain(s.disk, sid, c);
    }
    if c, e :| c != e && MainRecord(s.disk, sid, c) && MainRecord(s.disk, sid, e) {
      MainChatsExactly(run, moves, k, sid, c, e);
      assert Unfinished(s, sid, c) || Unfinished(s, sid, e);
    }
  }
}
