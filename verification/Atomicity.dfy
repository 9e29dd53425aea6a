/** Store calls as other processes see them: in every run each call is one step of its directory, the
    session commands end as documented, and a closed session refuses all that follows. */
module Atomicity {
  import opened Records
  import opened Store
  import opened Engine
  import opened Machine
  import opened Invariant
  import opened Preservation
  import opened Growth

  // ------------------------------------------------------- one step per call

  /** The section client `i` has open in state n was entered by move e, by the program as it stands. */
  predicate EnteredAt(run: seq<State>, moves: seq<Move>, e: nat, n: nat, i: nat) {
    && |run| == |moves| + 1 && e < n < |run| && i < |run[e].clients| && i < |run[n].clients|
    && moves[e] == Move(i, Enter)
    && run[n].clients[i].prog == run[e].clients[i].prog
    && run[n].clients[i].sec.Some? && run[n].clients[i].sec.value.snap == run[e].disk
  }

  lemma SectionStays(s: State, m: Move, t: State, i: nat)
    requires Steps(s, m, t) && i < |t.clients| && t.clients[i].sec.Some? && m != Move(i, Enter)
    ensures i < |s.clients| && s.clients[i].sec.Some? && s.clients[i].prog == t.clients[i].prog
    ensures s.clients[i].sec.value.snap == t.clients[i].sec.value.snap
  {
  }

  lemma SectionOpens(s: State, i: nat, t: State)
    requires Steps(s, Move(i, Enter), t)
    ensures i < |s.clients| == |t.clients| && t.clients[i] == s.clients[i].(sec := Some(OpenSection(s.disk, 0)))
  {
  }

  lemma {:induction false} Entered(run: seq<State>, moves: seq<Move>, n: nat, i: nat) returns (e: nat)
    requires IsTrace(run, moves) && n < |run| && i < |run[n].clients| && run[n].clients[i].sec.Some?
    ensures EnteredAt(run, moves, e, n, i)
  {
    if n == 0 {
      assert false;
    } else {
      StepOf(run, moves, n - 1);
      if moves[n - 1] == Move(i, Enter) {
        SectionOpens(run[n - 1], i, run[n]);
        e := n - 1;
      } else {
        SectionStays(run[n - 1], moves[n - 1], run[n], i);
        e := Entered(run, moves, n - 1, i);
      }
    }
  }

  /** Move k returns the call `q` of its client. */
  predicate Returns(run: seq<State>, moves: seq<Move>, k: nat, q: Call) {
    && |run| == |moves| + 1 && k < |moves| && moves[k].act.Leave? && moves[k].who < |run[k].clients|
    && moves[k].who < |run[k + 1].clients|
    && CallOf(run[k].clients[moves[k].who].prog) == Some(q)
  }

  /** Move k returns a call entered by move e; from e to k its directory took the step of the call and
      no other, and the program goes on with what the call yields on the disk of move e. */
  ghost predicate OneStep(run: seq<State>, moves: seq<Move>, e: nat, k: nat, q: Call)
    requires Returns(run, moves, k, q)
  {
    var i := moves[k].who;
    && e < k && moves[e] == Move(i, Enter) && i < |run[e].clients| && run[e].clients[i].prog == run[k].clients[i].prog
    && Agree(LockOf(q), run[k + 1].disk, AfterWrites(q, run[e].disk, |SectionOf(q, run[e].disk).writes|))
    && run[k + 1].clients[i] == Client(Resume(run[k].clients[i].prog, SectionOf(q, run[e].disk).ret, moves[k].act.inp), None, false)
  }

  lemma LeavingStep(s: State, m: Move, t: State, q: Call)
    requires Inv(s) && Steps(s, m, t) && m.act.Leave? && CallOf(s.clients[m.who].prog) == Some(q)
    ensures var cl := s.clients[m.who];
            && cl.sec.Some? && t.disk == s.disk && m.who < |t.clients|
            && Agree(LockOf(q), t.disk, AfterWrites(q, cl.sec.value.snap, |SectionOf(q, cl.sec.value.snap).writes|))
            && t.clients[m.who] == Client(Resume(cl.prog, SectionOf(q, cl.sec.value.snap).ret, m.act.inp), None, false)
  {
    LeaveAgreement(s, m.who, m.act.inp, q);
  }

  /** Every store call of every run is atomic in the directory it works on, deaths and all. */
  lemma CallsAreAtomic(run: seq<State>, moves: seq<Move>, k: nat, q: Call) returns (e: nat)
    requires IsTrace(run, moves) && Returns(run, moves, k, q)
    ensures OneStep(run, moves, e, k, q)
  {
    TraceOk(run, moves, k);
    StepOf(run, moves, k);
    LeavingStep(run[k], moves[k], run[k + 1], q);
    e := Entered(run, moves, k, moves[k].who);
  }

  // -------------------------------------------------------- session commands

  predicate IsCommand(p: Program) {
    p.OpenSession? || p.EndSession? || p.AddChat? || p.Select? || p.ArchiveWrite?
  }

  /** What a session command owes its caller: when it succeeds and what it makes of the directory. */
  predicate CommandDone(p: Program, a: SessionDir, b: SessionDir, ok: bool)
    requires IsCommand(p)
  {
    match p
    case OpenSession(_, root, now) =>
      && (ok <==> a.record.None?)
      && b == if ok then SessionDir(Some(SessionRecord(root, None, [], now, None)), a.chats) else a
    case EndSession(_, now) =>
      && (ok <==> a.record.Some?)
      && (!ok ==> b == a)
      && (ok ==> var r := a.record.value;
                 b == SessionDir(Some(SessionRecord(r.repoRoot, r.active, r.chatIds, now, Some(now))), a.chats))
    case AddChat(sid, cid, kind, makeActive, now) =>
      && (ok <==> a.record.Some? && a.record.value.closedAt.None?)
      && (!ok ==> b == a)
      && (ok ==> var r := a.record.value;
                 b == SessionDir(
                   Some(SessionRecord(r.repoRoot, if makeActive then Some(cid) else r.active, r.chatIds + [cid], now, None)),
                   a.chats[cid := ChatRecord(sid, kind, None, None, [], now, None)]))
    case Select(_, cid, now) =>
      && (ok <==> a.record.Some? && a.record.value.closedAt.None? && cid in a.record.value.chatIds && cid in a.chats
                  && a.chats[cid].archivedAt.None?)
      && (!ok ==> b == a)
      && (ok ==> var r := a.record.value;
                 b == SessionDir(Some(SessionRecord(r.repoRoot, Some(cid), r.chatIds, now, None)), a.chats))
    case ArchiveWrite(_, cid, now) =>
      && (ok <==> a.record.Some? && cid in a.chats)
      && (ok ==> b == SessionDir(
                   Some(a.record.value.(updatedAt := now)), a.chats[cid := a.chats[cid].(archivedAt := Some(now), updatedAt := now)]))
    case _ => true
  }

  /** The directory after all the writes of a session call. */
  function Made(q: Call, a: SessionDir): SessionDir
    requires q.OnSession()
  {
    var ws := SessionSection(q, a).writes;
    if ws == [] then a else if |ws| == 1 then Putting(a, ws[0]) else Putting(Putting(a, ws[0]), ws[1])
  }

  function Putting(a: SessionDir, w: Write): SessionDir {
    match w
    case PutSession(_, r) => a.(record := Some(r))
    case PutChat(_, cid, c) => a.(chats := a.chats[cid := c])
    case _ => a
  }

  lemma MadeIs(q: Call, d: Disk)
    requires q.OnSession()
    ensures DirOf(AfterWrites(q, d, |SectionOf(q, d).writes|), q.sid) == Made(q, DirOf(d, q.sid))
  {
    WritesAreGuarded(q, d);
    var ws := SectionOf(q, d).writes;
    AfterNone(q, d);
    if |ws| >= 1 { AfterOne(q, d); PuttingIs(d, ws[0], q.sid); }
    if |ws| == 2 { AfterTwo(q, d); PuttingIs(Apply(d, ws[0]), ws[1], q.sid); }
  }

  lemma PuttingIs(d: Disk, w: Write, sid: Id)
    requires GuardOf(w) == SessionLock(sid)
    ensures DirOf(Apply(d, w), sid) == Putting(DirOf(d, sid), w)
  {
  }

  lemma CommandSection(p: Program, a: SessionDir, inp: Input)
    requires IsCommand(p)
    ensures var q := CallOf(p).value;
            && q.OnSession() && q.sid == p.sid
            && Resume(p, SessionSection(q, a).ret, inp).Halted?
            && CommandDone(p, a, Made(q, a), Resume(p, SessionSection(q, a).ret, inp).success)
  {
  }

  ghost predicate CommandEnded(run: seq<State>, moves: seq<Move>, e: nat, k: nat, p: Program)
    requires IsCommand(p) && |run| == |moves| + 1 && k < |moves| && moves[k].who < |run[k + 1].clients|
  {
    && e < k && moves[e] == Move(moves[k].who, Enter)
    && run[k + 1].clients[moves[k].who].prog.Halted?
    && CommandDone(p, DirOf(run[e].disk, p.sid), DirOf(run[k + 1].disk, p.sid), run[k + 1].clients[moves[k].who].prog.success)
  }

  /** Every session command that returns has done, between its first step and its last, exactly what it
      owes its caller, whatever other processes do. */
  lemma CommandsEnd(run: seq<State>, moves: seq<Move>, k: nat, p: Program) returns (e: nat)
    requires IsTrace(run, moves) && k < |moves| && moves[k].act.Leave? && moves[k].who < |run[k].clients|
    requires run[k].clients[moves[k].who].prog == p && IsCommand(p)
    ensures moves[k].who < |run[k + 1].clients| && CommandEnded(run, moves, e, k, p)
  {
    var q := CallOf(p).value;
    StepOf(run, moves, k);
    e := CallsAreAtomic(run, moves, k, q);
    MadeIs(q, run[e].disk);
    CommandSection(p, DirOf(run[e].disk, p.sid), moves[k].act.inp);
  }

  /** What an archiving command does after what it saw: it fails on an unknown session or chat and on the chat
      that was active when it looked, leaves an archived chat as it is, and archives any other. */
  predicate ArchiveProceeds(p: Program, a: SessionDir, next: Program) {
    match p
    case ArchiveLoadSession(sid, cid) =>
      if a.record.Some? then next == ArchiveLoadChat(sid, cid, a.record.value.active) else next == Halted(false)
    case ArchiveLoadChat(sid, cid, active) =>
      if cid !in a.chats || active == Some(cid) then next == Halted(false)
      else if a.chats[cid].archivedAt.Some? then next == Halted(true)
      else next.ArchiveWrite? && next.sid == sid && next.cid == cid
    case _ => true
  }

  lemma ArchiveSection(p: Program, a: SessionDir, inp: Input)
    requires p.ArchiveLoadSession? || p.ArchiveLoadChat?
    ensures var q := CallOf(p).value;
            q.OnSession() && q.sid == p.sid && ArchiveProceeds(p, a, Resume(p, SessionSection(q, a).ret, inp)) && Made(q, a) == a
  {
  }

  /** In every run the two checks of an archiving command are made on its session as it is at one moment each. */
  lemma ArchiveChecks(run: seq<State>, moves: seq<Move>, k: nat, p: Program)
    requires IsTrace(run, moves) && k < |moves| && moves[k].act.Leave? && moves[k].who < |run[k].clients|
    requires run[k].clients[moves[k].who].prog == p && (p.ArchiveLoadSession? || p.ArchiveLoadChat?)
    ensures moves[k].who < |run[k + 1].clients|
    ensures ArchiveProceeds(p, DirOf(run[k + 1].disk, p.sid), run[k + 1].clients[moves[k].who].prog)
  {
    var q := CallOf(p).value;
    StepOf(run, moves, k);
    var e := CallsAreAtomic(run, moves, k, q);
    MadeIs(q, run[e].disk);
    ArchiveSection(p, DirOf(run[e].disk, p.sid), moves[k].act.inp);
  }

  // ---------------------------------------------------------------- closing

  predicate Closed(d: Disk, sid: Id) {
    DirOf(d, sid).record.Some? && DirOf(d, sid).record.value.closedAt.Some?
  }

  /** The write of a closing command closes the session and changes nothing else of it. */
  lemma ClosingCloses(run: seq<State>, moves: seq<Move>, k: nat, sid: Id, now: Time)
    requires IsTrace(run, moves) && k < |moves| && moves[k].act.WriteNext? && moves[k].who < |run[k].clients|
    requires run[k].clients[moves[k].who].prog == EndSession(sid, now)
    ensures var a, b := DirOf(run[k].disk, sid), DirOf(run[k + 1].disk, sid);
            a.record.Some? && b == a.(record := Some(a.record.value.(closedAt := Some(now), updatedAt := now)))
    ensures forall x | x != sid :: DirOf(run[k + 1].disk, x) == DirOf(run[k].disk, x)
  {
    TraceOk(run, moves, k);
    StepOf(run, moves, k);
    var s, i := run[k], moves[k].who;
    var q := CloseSession(sid, now);
    var w := Current(s.clients[i]).writes[s.clients[i].sec.value.done];
    WriteKeepsAgreement(s, i, q, w, run[k + 1]);
    SessionWriteKept(s, i, q, w, run[k + 1]);
    AfterNone(q, s.clients[i].sec.value.snap);
    PuttingIs(s.disk, w, sid);
  }

  lemma ClosedLater(run: seq<State>, moves: seq<Move>, c: nat, k: nat, sid: Id)
    requires IsTrace(run, moves) && c <= k < |run| && Closed(run[c].disk, sid)
    ensures Closed(run[k].disk, sid)
  {
    ClosedIsFrozen(run, moves, c, k, sid);
  }

  /** The calls a closed session refuses. */
  predicate NeedsOpen(q: Call) { q.CreateChat? || q.MainChat? || q.SelectChat? }

  lemma RefusedByClosed(q: Call, a: SessionDir)
    requires NeedsOpen(q) && a.record.Some? && a.record.value.closedAt.Some?
    ensures SessionSection(q, a) == Section([], Raised(InvalidState))
  {
  }

  /** A call that needs an open session does not close one. */
  lemma OpenStaysOpen(q: Call, a: SessionDir)
    requires NeedsOpen(q) && Made(q, a).record.Some? && Made(q, a).record.value.closedAt.Some?
    ensures a.record.Some? && a.record.value.closedAt.Some?
  {
  }

  /** From the moment a session is closed, every creation, selection and main-chat call on it that
      returns has been refused, also one that was under way by then. */
  lemma ClosedRefuses(run: seq<State>, moves: seq<Move>, c: nat, k: nat, q: Call)
    requires IsTrace(run, moves) && c <= k && Returns(run, moves, k, q) && NeedsOpen(q) && Closed(run[c].disk, q.sid)
    ensures run[k + 1].clients[moves[k].who].prog == Halted(false)
  {
    var e := CallsAreAtomic(run, moves, k, q);
    ClosedLater(run, moves, c, k + 1, q.sid);
    MadeIs(q, run[e].disk);
    OpenStaysOpen(q, DirOf(run[e].disk, q.sid));
    RefusedByClosed(q, DirOf(run[e].disk, q.sid));
    RefusalHalts(run[k].clients[moves[k].who].prog, q, moves[k].act.inp);
  }

  lemma RefusalHalts(p: Program, q: Call, inp: Input)
    requires CallOf(p) == Some(q) && NeedsOpen(q)
    ensures Resume(p, Raised(InvalidState), inp) == Halted(false)
  {
  }

  /** A run that has not yet seen its session. */
  predicate Unseen(p: Program, sid: Id) {
    && (p.Start? || p.CheckSession? || p.MakeSession? || p.LoadSession?)
    && p.run.request.session == sid && !p.run.request.temporary && !p.run.request.policy.TemporaryChat?
  }

  predicate Refusing(p: Program, sid: Id) { p == Halted(false) || Unseen(p, sid) }

  lemma UnseenReturns(p: Program, sid: Id, a: SessionDir, inp: Input)
    requires Unseen(p, sid) && CallOf(p).Some?
    requires Made(CallOf(p).value, a).record.Some? && Made(CallOf(p).value, a).record.value.closedAt.Some?
    ensures CallOf(p).value.OnSession() && CallOf(p).value.sid == sid
    ensures Refusing(Resume(p, SessionSection(CallOf(p).value, a).ret, inp), sid)
  {
  }

  lemma UnseenCalls(p: Program, sid: Id)
    requires Unseen(p, sid)
    ensures CallOf(p).Some? ==> CallOf(p).value.OnSession() && CallOf(p).value.sid == sid
    ensures OpWanted(p).None?
  {
  }

  lemma UnseenGoesOn(p: Program, sid: Id, d: Disk, inp: Input)
    requires Unseen(p, sid) && CallOf(p).None?
    ensures Unseen(LocalStep(p, d, inp), sid)
  {
  }

  lemma RefusingStep(run: seq<State>, moves: seq<Move>, k: nat, i: nat, sid: Id)
    requires IsTrace(run, moves) && k < |moves| && Closed(run[k].disk, sid)
    requires i < |run[k].clients| && Refusing(run[k].clients[i].prog, sid)
    ensures i < |run[k + 1].clients| && Refusing(run[k + 1].clients[i].prog, sid)
  {
    StepOf(run, moves, k);
    var p := run[k].clients[i].prog;
    if moves[k].who == i {
      UnseenCalls(p, sid);
      if moves[k].act.Local? { UnseenGoesOn(p, sid, run[k].disk, moves[k].act.inp); }
      if moves[k].act.Leave? {
        var q := CallOf(p).value;
        var e := CallsAreAtomic(run, moves, k, q);
        MadeIs(q, run[e].disk);
        ClosedLater(run, moves, k, k + 1, sid);
        UnseenReturns(p, sid, DirOf(run[e].disk, sid), moves[k].act.inp);
      }
    }
  }

  /** From the moment a session is closed, no run that has not yet seen it is resolved to a chat of it:
      it stands before that, or has been refused. */
  lemma {:induction false} ClosedResolvesNothing(run: seq<State>, moves: seq<Move>, c: nat, k: nat, i: nat, sid: Id)
    requires IsTrace(run, moves) && c <= k < |run| && Closed(run[c].disk, sid)
    requires i < |run[c].clients| && Unseen(run[c].clients[i].prog, sid)
    ensures i < |run[k].clients| && Refusing(run[k].clients[i].prog, sid)
    decreases k - c
  {
    if c < k {
      ClosedResolvesNothing(run, moves, c, k - 1, i, sid);
      ClosedLater(run, moves, c, k - 1, sid);
      RefusingStep(run, moves, k - 1, i, sid);
    }
  }
}
