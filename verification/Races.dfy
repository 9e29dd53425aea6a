/** Concrete runs for the places where a check and its write sit in different lock sections, or
    a process dies between two writes of one section. */
module Races {
  import opened Records
  import opened Store
  import opened Engine
  import opened Machine
  import opened Invariant
  import opened Sessions
  import opened Conversation

  function Last(run: seq<State>): State
    requires run != []
  {
    run[|run| - 1]
  }

  /** The input of a step that draws `id`. */
  function Drawing(id: Id): Input {
    Input(id, 0, true, Manifest([], [], 0), 0, Response(None, Report(0, Review, Pass, [], [], 0, 0, 0, [], [], [])))
  }

  /** A client that is about to make the call `q` with nobody in its way. */
  predicate ReadyFor(s: State, i: nat, q: Call) {
    && i < |s.clients| && Live(s.clients[i]) && CallOf(s.clients[i].prog) == Some(q)
    && Quiet(s)
  }

  /** No living client has a lock section open. */
  predicate Quiet(s: State) {
    forall j | 0 <= j < |s.clients| :: s.clients[j].crashed || s.clients[j].sec.None?
  }

  /** The state after client `i` made its call `q` from the first read to the return. */
  function CallDone(s: State, i: nat, q: Call, inp: Input): State
    requires i < |s.clients|
  {
    State(
      AfterWrites(q, s.disk, |SectionOf(q, s.disk).writes|),
      s.clients[i := Client(Resume(s.clients[i].prog, SectionOf(q, s.disk).ret, inp), None, false)],
      s.used + {inp.uuid})
  }

  lemma Extend(run: seq<State>, moves: seq<Move>, m: Move)
    requires IsTrace(run, moves) && Can(Last(run), m.who, m.act)
    ensures IsTrace(run + [Do(Last(run), m.who, m.act)], moves + [m])
  {
    var run', moves' := run + [Do(Last(run), m.who, m.act)], moves + [m];
    forall k | 0 <= k < |moves'|
      ensures Can(run'[k], moves'[k].who, moves'[k].act) && run'[k + 1] == Do(run'[k], moves'[k].who, moves'[k].act)
    {
      if k < |moves| { assert run'[k] == run[k] && run'[k + 1] == run[k + 1]; }
    }
  }

  lemma Take(run: seq<State>, moves: seq<Move>, m: Move) returns (run': seq<State>, moves': seq<Move>)
    requires IsTrace(run, moves) && Can(Last(run), m.who, m.act)
    ensures IsTrace(run', moves') && Last(run') == Do(Last(run), m.who, m.act)
    ensures run <= run' && run' == run + [Last(run')] && moves' == moves + [m]
  {
    Extend(run, moves, m);
    run', moves' := run + [Do(Last(run), m.who, m.act)], moves + [m];
  }

  /** Client `i` is in its call `q` and has made k of the writes. */
  function Midway(s: State, i: nat, q: Call, k: nat): State
    requires i < |s.clients| && k <= |SectionOf(q, s.disk).writes|
  {
    s.(disk := AfterWrites(q, s.disk, k),
       clients := s.clients[i := s.clients[i].(sec := Some(OpenSection(s.disk, k)))])
  }

  /** The first k writes of an uninterrupted call. */
  lemma {:induction false} WriteAll(run: seq<State>, moves: seq<Move>, s: State, i: nat, q: Call, k: nat, n: nat)
    returns (run': seq<State>, moves': seq<Move>)
    requires IsTrace(run, moves) && i < |s.clients| && Live(s.clients[i]) && CallOf(s.clients[i].prog) == Some(q)
    requires k <= n <= |SectionOf(q, s.disk).writes| && Last(run) == Midway(s, i, q, k)
    ensures IsTrace(run', moves') && run <= run' && moves <= moves' && Last(run') == Midway(s, i, q, n)
    decreases n - k
  {
    if k == n {
      run', moves' := run, moves;
    } else {
      AfterWritesStep(q, s.disk, k);
      run', moves' := Take(run, moves, Move(i, WriteNext));
      assert Last(run').clients == Midway(s, i, q, k + 1).clients;
      run', moves' := WriteAll(run', moves', s, i, q, k + 1, n);
    }
  }

  /** The end of an uninterrupted call. */
  lemma LeaveCall(run: seq<State>, moves: seq<Move>, s: State, i: nat, q: Call, inp: Input) returns (run': seq<State>, moves': seq<Move>)
    requires IsTrace(run, moves) && ReadyFor(s, i, q) && inp.uuid !in s.used
    requires Last(run) == Midway(s, i, q, |SectionOf(q, s.disk).writes|)
    ensures IsTrace(run', moves') && Last(run') == CallDone(s, i, q, inp) && Quiet(Last(run'))
    ensures run <= run' && |moves'| > |moves| && moves'[|moves'| - 1] == Move(i, Leave(inp))
    ensures i < |run'[|moves'| - 1].clients| && run'[|moves'| - 1].clients[i].prog == s.clients[i].prog
  {
    run', moves' := Take(run, moves, Move(i, Leave(inp)));
    assert Last(run').clients == CallDone(s, i, q, inp).clients;
  }

  /** An uninterrupted call. */
  lemma CallWith(run: seq<State>, moves: seq<Move>, i: nat, q: Call, inp: Input) returns (run': seq<State>, moves': seq<Move>)
    requires IsTrace(run, moves) && ReadyFor(Last(run), i, q) && inp.uuid !in Last(run).used
    ensures IsTrace(run', moves') && Last(run') == CallDone(Last(run), i, q, inp) && Quiet(Last(run'))
    ensures run <= run' && |moves'| > |moves| && moves'[|moves'| - 1] == Move(i, Leave(inp))
    ensures i < |run'[|moves'| - 1].clients| && run'[|moves'| - 1].clients[i].prog == Last(run).clients[i].prog
  {
    var s := Last(run);
    run', moves' := Take(run, moves, Move(i, Enter));
    run', moves' := WriteAll(run', moves', s, i, q, 0, |SectionOf(q, s.disk).writes|);
    run', moves' := LeaveCall(run', moves', s, i, q, inp);
  }

  lemma WholeCall(run: seq<State>, moves: seq<Move>, i: nat, q: Call, id: Id) returns (run': seq<State>, moves': seq<Move>)
    requires IsTrace(run, moves) && ReadyFor(Last(run), i, q) && id !in Last(run).used
    ensures IsTrace(run', moves') && Last(run') == CallDone(Last(run), i, q, Drawing(id)) && Quiet(Last(run'))
    ensures run <= run'
  {
    run', moves' := CallWith(run, moves, i, q, Drawing(id));
  }

  const SID: Id := 7

  const DONE := Client(Halted(true), None, false)

  function Plain(active: Option<Id>, ids: seq<Id>): SessionRecord { SessionRecord(1, active, ids, 0, None) }

  const CHAT := FreshChat(SID, Standard, 0)

  /** A session command that draws a chat id and creates an active chat with it. */
  lemma AddOneChat(run: seq<State>, moves: seq<Move>, i: nat, id: Id, id2: Id, active: Option<Id>, ids: seq<Id>, chats: map<Id, ChatRecord>)
    returns (run': seq<State>, moves': seq<Move>)
    requires IsTrace(run, moves) && Quiet(Last(run)) && i < |Last(run).clients|
    requires Last(run).clients[i] == Client(DrawChat(SID, Standard, true), None, false)
    requires id !in Last(run).used && id2 !in Last(run).used && id != id2
    requires DirOf(Last(run).disk, SID) == SessionDir(Some(Plain(active, ids)), chats)
    ensures IsTrace(run', moves') && Quiet(Last(run'))
    ensures Last(run').clients == Last(run).clients[i := DONE]
    ensures Last(run').used == Last(run).used + {id, id2}
    ensures DirOf(Last(run').disk, SID) == SessionDir(Some(Plain(Some(id), ids + [id])), chats[id := CHAT])
  {
    run', moves' := Take(run, moves, Move(i, Local(Drawing(id))));
    var q := CreateChat(SID, id, Standard, true, 0);
    var s := Last(run');
    run', moves' := WholeCall(run', moves', i, q, id2);
    AfterWritesStep(q, s.disk, 0);
    AfterWritesStep(q, s.disk, 1);
    assert AfterWrites(q, s.disk, 0) == s.disk;
  }

  lemma OpenOne(run: seq<State>, moves: seq<Move>, i: nat, id: Id) returns (run': seq<State>, moves': seq<Move>)
    requires IsTrace(run, moves) && Quiet(Last(run)) && i < |Last(run).clients|
    requires Last(run).clients[i] == Client(OpenSession(SID, 1, 0), None, false)
    requires id !in Last(run).used && DirOf(Last(run).disk, SID) == EMPTY_DIR
    ensures IsTrace(run', moves') && Quiet(Last(run'))
    ensures Last(run').clients == Last(run).clients[i := DONE]
    ensures Last(run').used == Last(run).used + {id}
    ensures DirOf(Last(run').disk, SID) == SessionDir(Some(Plain(None, [])), map[])
  {
    var q := CreateSession(SID, 1, 0);
    var s := Last(run);
    run', moves' := WholeCall(run, moves, i, q, id);
    AfterWritesStep(q, s.disk, 0);
    assert AfterWrites(q, s.disk, 0) == s.disk;
  }

  /** A call that writes nothing moves only its client. */
  lemma ReadOnly(run: seq<State>, moves: seq<Move>, i: nat, q: Call, id: Id) returns (run': seq<State>, moves': seq<Move>)
    requires IsTrace(run, moves) && ReadyFor(Last(run), i, q) && id !in Last(run).used
    requires SectionOf(q, Last(run).disk).writes == []
    ensures IsTrace(run', moves') && Quiet(Last(run')) && Last(run').disk == Last(run).disk
    ensures Last(run').used == Last(run).used + {id}
    ensures Last(run').clients == Last(run).clients[i := Client(
              Resume(Last(run).clients[i].prog, SectionOf(q, Last(run).disk).ret, Drawing(id)), None, false)]
  {
    run', moves' := WholeCall(run, moves, i, q, id);
  }

  /** A session with two chats, the second one active. */
  lemma TwoChats(clients: seq<Client>) returns (run: seq<State>, moves: seq<Move>)
    requires |clients| >= 3 && Init(State(EMPTY_DISK, clients, {}))
    requires clients[0].prog == OpenSession(SID, 1, 0)
    requires clients[1].prog == clients[2].prog == DrawChat(SID, Standard, true)
    ensures IsTrace(run, moves) && Quiet(Last(run))
    ensures |Last(run).clients| == |clients| && Last(run).clients[3..] == clients[3..]
    ensures Last(run).used == {0, 101, 1, 102, 2}
    ensures DirOf(Last(run).disk, SID) == TwoChatDir(102)
  {
    run, moves := [State(EMPTY_DISK, clients, {})], [];
    run, moves := OpenOne(run, moves, 0, 0);
    run, moves := AddOneChat(run, moves, 1, 101, 1, None, [], map[]);
    assert [] + [101] == [101];
    assert DirOf(Last(run).disk, SID) == SessionDir(Some(Plain(Some(101), [101])), map[101 := CHAT]);
    run, moves := AddOneChat(run, moves, 2, 102, 2, Some(101), [101], map[101 := CHAT]);
    assert [101] + [102] == [101, 102];
  }

  const ARCHIVER := Client(ArchiveLoadSession(SID, 101), None, false)
  const SELECTOR := Client(Select(SID, 101, 0), None, false)

  function TwoChatDir(active: Id): SessionDir {
    SessionDir(Some(Plain(Some(active), [101, 102])), map[101 := CHAT, 102 := CHAT])
  }

  /** An archiver makes its two checks on a chat that is not the active one. */
  lemma ArchiveReads(run: seq<State>, moves: seq<Move>, i: nat) returns (run': seq<State>, moves': seq<Move>)
    requires IsTrace(run, moves) && Quiet(Last(run)) && i < |Last(run).clients| && Last(run).clients[i] == ARCHIVER
    requires Last(run).used == {0, 101, 1, 102, 2} && DirOf(Last(run).disk, SID) == TwoChatDir(102)
    ensures IsTrace(run', moves') && Quiet(Last(run'))
    ensures Last(run').clients == Last(run).clients[i := Client(ArchiveWrite(SID, 101, 0), None, false)]
    ensures Last(run').used == {0, 101, 1, 102, 2, 3, 4}
    ensures DirOf(Last(run').disk, SID) == TwoChatDir(102)
  {
    run', moves' := ReadOnly(run, moves, i, GetSession(SID), 3);
    assert Last(run').clients[i] == Client(ArchiveLoadChat(SID, 101, Some(102)), None, false);
    run', moves' := ReadOnly(run', moves', i, GetChat(SID, 101), 4);
  }

  const RACERS := [
    Client(OpenSession(SID, 1, 0), None, false),
    Client(DrawChat(SID, Standard, true), None, false),
    Client(DrawChat(SID, Standard, true), None, false),
    ARCHIVER, SELECTOR]

  lemma ArchiverChecks() returns (run: seq<State>, moves: seq<Move>)
    ensures IsTrace(run, moves) && Quiet(Last(run)) && |Last(run).clients| == 5
    ensures Last(run).clients[3] == Client(ArchiveWrite(SID, 101, 0), None, false)
    ensures Last(run).clients[4] == SELECTOR
    ensures Last(run).used == {0, 101, 1, 102, 2, 3, 4}
    ensures DirOf(Last(run).disk, SID) == TwoChatDir(102)
  {
    run, moves := TwoChats(RACERS);
    assert Last(run).clients[3] == Last(run).clients[3..][0] == RACERS[3..][0];
    assert Last(run).clients[4] == Last(run).clients[3..][1] == RACERS[3..][1];
    run, moves := ArchiveReads(run, moves, 3);
  }

  /** Then the chat is selected. */
  lemma CheckThenSelect() returns (run: seq<State>, moves: seq<Move>)
    ensures IsTrace(run, moves) && Quiet(Last(run)) && |Last(run).clients| == 5
    ensures Last(run).clients[3] == Client(ArchiveWrite(SID, 101, 0), None, false)
    ensures Last(run).used == {0, 101, 1, 102, 2, 3, 4, 5}
    ensures DirOf(Last(run).disk, SID) == TwoChatDir(101)
  {
    run, moves := ArchiverChecks();
    var q := SelectChat(SID, 101, 0);
    var s := Last(run);
    run, moves := WholeCall(run, moves, 4, q, 5);
    AfterWritesStep(q, s.disk, 0);
    assert AfterWrites(q, s.disk, 0) == s.disk;
  }

  /** `archive_chat` checks and writes in separate sections: a selection that falls in between
      leaves the session with an archived active chat. */
  lemma ArchiveRace() returns (run: seq<State>, moves: seq<Move>)
    ensures IsTrace(run, moves) && ActiveArchived(DirOf(Last(run).disk, SID))
  {
    run, moves := CheckThenSelect();
    var q := UpdateChat(SID, 101, ChatUpdate(None, None, Some(0)), 0);
    var s := Last(run);
    run, moves := WholeCall(run, moves, 3, q, 6);
    AfterWritesStep(q, s.disk, 0);
    AfterWritesStep(q, s.disk, 1);
    assert AfterWrites(q, s.disk, 0) == s.disk;
  }

  // -------------------------------------------- explicit conversation ids

  /** A run on session 7 that names its chat, or continues, and may name a conversation. */
  function RunOn(chat: Option<Id>, conversation: Option<Id>): Run {
    Run(true, RawRequest(Review, 1, SID, chat, ContinueChat, false, conversation), Route(false, []), None)
  }

  predicate Unused(used: set<Id>, b: Id, n: nat) {
    forall k {:trigger k in used} | b <= k < b + n :: k !in used
  }

  /** A run reaches the point where it has looked its session up. */
  lemma ReachSession(run: seq<State>, moves: seq<Move>, i: nat, r: Run, b: Id, r0: SessionRecord)
    returns (run': seq<State>, moves': seq<Move>)
    requires IsTrace(run, moves) && Quiet(Last(run)) && i < |Last(run).clients|
    requires Last(run).clients[i] == Client(Start(r), None, false) && (r == RunOn(r.request.chat, r.request.conversation))
    requires Unused(Last(run).used, b, 3)
    requires DirOf(Last(run).disk, SID).record == Some(r0) && r0.repoRoot == 1 && r0.closedAt.None?
    ensures IsTrace(run', moves') && Quiet(Last(run'))
    ensures Last(run').disk == Last(run).disk && Last(run').used == Last(run).used + {b, b + 1, b + 2}
    ensures Last(run').clients == Last(run).clients[i := Client(ChooseChat(r, Drawing(b + 2)), None, false)]
  {
    run', moves' := ReachLook(run, moves, i, r, b);
    run', moves' := ReadOnly(run', moves', i, GetSession(SID), b + 2);
  }

  lemma ReachLook(run: seq<State>, moves: seq<Move>, i: nat, r: Run, b: Id) returns (run': seq<State>, moves': seq<Move>)
    requires IsTrace(run, moves) && Quiet(Last(run)) && i < |Last(run).clients|
    requires Last(run).clients[i] == Client(Start(r), None, false) && (r == RunOn(r.request.chat, r.request.conversation))
    requires Unused(Last(run).used, b, 3) && DirOf(Last(run).disk, SID).record.Some?
    ensures IsTrace(run', moves') && Quiet(Last(run'))
    ensures Last(run').disk == Last(run).disk && Last(run').used == Last(run).used + {b, b + 1}
    ensures Last(run').clients == Last(run).clients[i := Client(LoadSession(r), None, false)]
  {
    run', moves' := Take(run, moves, Move(i, Local(Drawing(b))));
    assert Last(run').clients[i].prog == CheckSession(r);
    run', moves' := Take(run', moves', Move(i, Local(Drawing(b + 1))));
  }

  /** A run with an explicit conversation id finds chat 101 unbound. */
  lemma ReachBind(run: seq<State>, moves: seq<Move>, i: nat, conversation: Id, b: Id)
    returns (run': seq<State>, moves': seq<Move>)
    requires IsTrace(run, moves) && Quiet(Last(run)) && i < |Last(run).clients|
    requires Last(run).clients[i] == Client(Start(RunOn(Some(101), Some(conversation))), None, false)
    requires Unused(Last(run).used, b, 4) && DirOf(Last(run).disk, SID) == TwoChatDir(102)
    ensures IsTrace(run', moves') && Quiet(Last(run'))
    ensures Last(run').disk == Last(run).disk && Last(run').used == Last(run).used + {b, b + 1, b + 2, b + 3}
    ensures Last(run').clients
            == Last(run).clients[i := Client(BindExplicit(RunOn(Some(101), Some(conversation)), 101, 0), None, false)]
  {
    var r := RunOn(Some(101), Some(conversation));
    run', moves' := ReachSession(run, moves, i, r, b, Plain(Some(102), [101, 102]));
    assert Last(run').clients[i].prog == LoadChat(r);
    run', moves' := ReadOnly(run', moves', i, GetChat(SID, 101), b + 3);
  }

  /** The unconditional write of an explicit binding. */
  lemma BindNow(run: seq<State>, moves: seq<Move>, i: nat, conversation: Id, id: Id)
    returns (run': seq<State>, moves': seq<Move>)
    requires IsTrace(run, moves) && Quiet(Last(run)) && i < |Last(run).clients| && id !in Last(run).used
    requires Last(run).clients[i] == Client(BindExplicit(RunOn(Some(101), Some(conversation)), 101, 0), None, false)
    requires Exists(Last(run).disk, SID, 101) && DirOf(Last(run).disk, SID).record.Some?
    ensures IsTrace(run', moves') && Quiet(Last(run')) && run <= run'
    ensures Last(run').used == Last(run).used + {id} && |Last(run').clients| == |Last(run).clients|
    ensures forall j | 0 <= j < |Last(run).clients| && j != i :: Last(run').clients[j] == Last(run).clients[j]
    ensures ConversationOf(Last(run').disk, SID, 101) == Some(conversation)
    ensures Exists(Last(run').disk, SID, 101) && DirOf(Last(run').disk, SID).record.Some?
  {
    var q := UpdateChat(SID, 101, ChatUpdate(Some(Some(conversation)), None, None), 0);
    var s := Last(run);
    run', moves' := WholeCall(run, moves, i, q, id);
    AfterWritesStep(q, s.disk, 0);
    AfterWritesStep(q, s.disk, 1);
    assert AfterWrites(q, s.disk, 0) == s.disk;
  }

  const EXPLICIT_RUNS := [
    Client(OpenSession(SID, 1, 0), None, false),
    Client(DrawChat(SID, Standard, true), None, false),
    Client(DrawChat(SID, Standard, true), None, false),
    Client(Start(RunOn(Some(101), Some(5))), None, false),
    Client(Start(RunOn(Some(101), Some(6))), None, false)]

  lemma FirstReadsUnbound() returns (run: seq<State>, moves: seq<Move>)
    ensures IsTrace(run, moves) && Quiet(Last(run)) && |Last(run).clients| == 5
    ensures Last(run).clients[3] == Client(BindExplicit(RunOn(Some(101), Some(5)), 101, 0), None, false)
    ensures Last(run).clients[4] == EXPLICIT_RUNS[4]
    ensures Last(run).used == {0, 101, 1, 102, 2, 3, 4, 5, 6}
    ensures DirOf(Last(run).disk, SID) == TwoChatDir(102)
  {
    run, moves := TwoChats(EXPLICIT_RUNS);
    assert Last(run).clients[3] == Last(run).clients[3..][0] == EXPLICIT_RUNS[3..][0];
    assert Last(run).clients[4] == Last(run).clients[3..][1] == EXPLICIT_RUNS[3..][1];
    run, moves := ReachBind(run, moves, 3, 5, 3);
  }

  lemma BothReadUnbound() returns (run: seq<State>, moves: seq<Move>)
    ensures IsTrace(run, moves) && Quiet(Last(run)) && |Last(run).clients| == 5
    ensures Last(run).clients[3] == Client(BindExplicit(RunOn(Some(101), Some(5)), 101, 0), None, false)
    ensures Last(run).clients[4] == Client(BindExplicit(RunOn(Some(101), Some(6)), 101, 0), None, false)
    ensures 20 !in Last(run).used && 21 !in Last(run).used
    ensures DirOf(Last(run).disk, SID) == TwoChatDir(102)
  {
    run, moves := FirstReadsUnbound();
    run, moves := ReachBind(run, moves, 4, 6, 10);
  }

  /** `resolve` binds an explicit conversation id without the chat lock and after an earlier read:
      two explicit requests rebind a chat that was already bound. */
  lemma ExplicitRebinds() returns (run: seq<State>, moves: seq<Move>, k: nat)
    ensures IsTrace(run, moves) && k < |run|
    ensures ConversationOf(run[k].disk, SID, 101) == Some(5)
    ensures ConversationOf(Last(run).disk, SID, 101) == Some(6)
  {
    run, moves := BothReadUnbound();
    run, moves := BindNow(run, moves, 3, 5, 20);
    k := |run| - 1;
    var mid := run[k];
    run, moves := BindNow(run, moves, 4, 6, 21);
    assert run[k] == mid;
  }

  // ------------------------------------------------ a death between two writes

  const CONTINUERS := [
    Client(OpenSession(SID, 1, 0), None, false),
    Client(Start(RunOn(None, None)), None, false),
    Client(Start(RunOn(None, None)), None, false)]

  /** The first of the two writes makes the chat record. */
  lemma FirstMainWrite(d: Disk, cid: Id)
    requires DirOf(d, SID) == SessionDir(Some(Plain(None, [])), map[])
    ensures |SectionOf(MainChat(SID, cid, 0), d).writes| == 2
    ensures DirOf(AfterWrites(MainChat(SID, cid, 0), d, 1), SID) == SessionDir(Some(Plain(None, [])), map[cid := FreshChat(SID, Main, 0)])
  {
    AfterWritesStep(MainChat(SID, cid, 0), d, 0);
  }

  lemma ContinuerPicks() returns (run: seq<State>, moves: seq<Move>)
    ensures IsTrace(run, moves) && |Last(run).clients| == 3 && Quiet(Last(run))
    ensures Last(run).clients[1] == Client(PickChat(RunOn(None, None), 3, 0), None, false)
    ensures Last(run).clients[2] == Client(Start(RunOn(None, None)), None, false)
    ensures Last(run).used == {0, 1, 2, 3}
    ensures DirOf(Last(run).disk, SID) == SessionDir(Some(Plain(None, [])), map[])
  {
    run, moves := [State(EMPTY_DISK, CONTINUERS, {})], [];
    run, moves := OpenOne(run, moves, 0, 0);
    run, moves := ReachSession(run, moves, 1, RunOn(None, None), 1, Plain(None, []));
  }

  lemma DeathBetween() returns (run: seq<State>, moves: seq<Move>)
    ensures IsTrace(run, moves) && |Last(run).clients| == 3
    ensures Quiet(Last(run))
    ensures Last(run).clients[2] == Client(Start(RunOn(None, None)), None, false)
    ensures Last(run).used == {0, 1, 2, 3}
    ensures DirOf(Last(run).disk, SID) == SessionDir(Some(Plain(None, [])), map[3 := FreshChat(SID, Main, 0)])
  {
    run, moves := ContinuerPicks();
    var s, q := Last(run), MainChat(SID, 3, 0);
    FirstMainWrite(s.disk, 3);
    run, moves := Take(run, moves, Move(1, Enter));
    run, moves := WriteAll(run, moves, s, 1, q, 0, 1);
    run, moves := Take(run, moves, Move(1, Crash));
  }

  /** A process that dies between the two writes of `get_or_create_main_chat` leaves a MAIN record
      behind, and the next `continue` makes another one. */
  lemma TwoMainRecords() returns (run: seq<State>, moves: seq<Move>)
    ensures IsTrace(run, moves)
    ensures Exists(Last(run).disk, SID, 3) && DirOf(Last(run).disk, SID).chats[3].kind.Main?
    ensures Exists(Last(run).disk, SID, 6) && DirOf(Last(run).disk, SID).chats[6].kind.Main?
  {
    run, moves := DeathBetween();
    run, moves := ReachSession(run, moves, 2, RunOn(None, None), 4, Plain(None, []));
    var q := MainChat(SID, 6, 0);
    var s := Last(run);
    assert Last(run).clients[2].prog == PickChat(RunOn(None, None), 6, 0);
    run, moves := WholeCall(run, moves, 2, q, 7);
    AfterWritesStep(q, s.disk, 0);
    AfterWritesStep(q, s.disk, 1);
    assert AfterWrites(q, s.disk, 0) == s.disk;
  }
}
