/** bridge/client.py: the driver's turns, what it sends and what it accepts as an answer. */
module Driver {
  import opened Records

  datatype PendingTurn = PendingTurn(prompt: Option<Id>, conversation: Option<Id>, persistent: bool)

  datatype Conversation = ContinueConversation(id: Id) | PersistentConversation | FreshConversation

  /** What goes out on the connection. */
  datatype Outgoing = JobMessage(job: Id, prompt: Id, conversation: Conversation) | ProbeMessage

  /** What comes back on the connection; `text` is empty if it is none. A probe result names no job. */
  datatype Reply =
    | JobResult(job: Id, text: Option<Id>, conversation: Option<Id>)
    | JobError(job: Id)
    | OtherReply(job: Id)
    | ProbeResult(available: bool)

  datatype Error =
    | NotStarted | UnknownTurn | AlreadySubmitted | NoReply | JobMismatch | JobFailed | UnexpectedReply | EmptyResponse | BridgeUnavailable

  datatype Outcome = Done | Answer(turn: Id, text: Id, conversation: Option<Id>) | Error(error: Error)

  /** `sent` and `inbox` are the two directions of the connection. */
  datatype State = State(started: bool, turns: map<Id, PendingTurn>, sent: seq<Outgoing>, inbox: seq<Reply>)

  /** `health_check` is its two halves, between which the server has its turn. */
  datatype Call =
    | Start
    | Stop
    | BeginTurn(turn: Id, conversation: Option<Id>, persistent: bool)
    | Submit(turn: Id, prompt: Id)
    | WaitForResponse(turn: Id)
    | CloseTurn(turn: Id)
    | SendProbe
    | ReadProbe
    | Arrive(reply: Reply)

  function Asked(p: PendingTurn): Conversation {
    match p.conversation
    case Some(id) => ContinueConversation(id)
    case None => if p.persistent then PersistentConversation else FreshConversation
  }

  /** The prompt is noted before the connection is looked at. */
  function Submitted(s: State, turn: Id, prompt: Id): (State, Outcome) {
    if turn !in s.turns then (s, Error(UnknownTurn))
    else
      var p := s.turns[turn];
      if p.prompt.Some? then (s, Error(AlreadySubmitted))
      else
        var noted := s.(turns := s.turns[turn := p.(prompt := Some(prompt))]);
        if !s.started then (noted, Error(NotStarted))
        else (noted.(sent := s.sent + [JobMessage(turn, prompt, Asked(p))]), Done)
  }

  predicate IsAbout(r: Reply, turn: Id) { !r.ProbeResult? && r.job == turn }

  function Judged(turn: Id, r: Reply): Outcome {
    if !IsAbout(r, turn) then Error(JobMismatch)
    else
      match r
      case JobError(_) => Error(JobFailed)
      case JobResult(_, text, conversation) => if text.None? then Error(EmptyResponse) else Answer(turn, text.value, conversation)
      case _ => Error(UnexpectedReply)
  }

  function Waited(s: State, turn: Id): (State, Outcome) {
    if turn !in s.turns then (s, Error(UnknownTurn))
    else if !s.started then (s, Error(NotStarted))
    else if s.inbox == [] then (s, Error(NoReply))
    else (s.(inbox := s.inbox[1..]), Judged(turn, s.inbox[0]))
  }

  function Probed(s: State): (State, Outcome) {
    if !s.started then (s, Error(NotStarted))
    else if s.inbox == [] then (s, Error(NoReply))
    else (s.(inbox := s.inbox[1..]), if s.inbox[0] == ProbeResult(true) then Done else Error(BridgeUnavailable))
  }

  function Do(s: State, c: Call): (State, Outcome) {
    match c
    case Start => (if s.started then s else s.(started := true, inbox := []), Done)
    case Stop => (s.(started := false, turns := map[], inbox := []), Done)
    case BeginTurn(turn, conversation, persistent) =>
      (s.(turns := s.turns[turn := PendingTurn(None, conversation, persistent)]), Done)
    case Submit(turn, prompt) => Submitted(s, turn, prompt)
    case WaitForResponse(turn) => Waited(s, turn)
    case CloseTurn(turn) => (s.(turns := s.turns - {turn}), Done)
    case SendProbe => if s.started then (s.(sent := s.sent + [ProbeMessage]), Done) else (s, Error(NotStarted))
    case ReadProbe => Probed(s)
    case Arrive(reply) => (if s.started then s.(inbox := s.inbox + [reply]) else s, Done)
  }

  class BridgeBrowserDriver {
    var started: bool
    var turns: map<Id, PendingTurn>
    var sent: seq<Outgoing>
    var inbox: seq<Reply>

    ghost function View(): State
      reads this
    {
      State(started, turns, sent, inbox)
    }

    constructor ()
      ensures View() == State(false, map[], [], [])
    {
      started, turns, sent, inbox := false, map[], [], [];
    }

    method StartUp()
      modifies this
      ensures View() == Do(old(View()), Start).0
      ensures View() == State(true, old(turns), old(sent), if old(started) then old(inbox) else [])
    {
      if started { return; }
      started, inbox := true, [];
    }

    method ShutDown()
      modifies this
      ensures View() == Do(old(View()), Stop).0
      ensures View() == State(false, map[], old(sent), [])
    {
      if started { started, inbox := false, []; }
      inbox := [];
      turns := map[];
    }

    /** The turn id is the one drawn for it. */
    method Begin(turn: Id, conversation: Option<Id>, persistent: bool)
      modifies this
      ensures View() == Do(old(View()), BeginTurn(turn, conversation, persistent)).0
      ensures View() == old(View()).(turns := old(turns)[turn := PendingTurn(None, conversation, persistent)])
    {
      turns := turns[turn := PendingTurn(None, conversation, persistent)];
    }

    method SubmitPrompt(turn: Id, prompt: Id) returns (r: Outcome)
      modifies this
      ensures (View(), r) == Do(old(View()), Submit(turn, prompt))
      ensures started == old(started) && inbox == old(inbox)
      ensures if turn !in old(turns) then r == Error(UnknownTurn) && turns == old(turns) && sent == old(sent)
              else if old(turns)[turn].prompt.Some? then r == Error(AlreadySubmitted) && turns == old(turns) && sent == old(sent)
              else
                var p := old(turns)[turn];
                && turns == old(turns)[turn := PendingTurn(Some(prompt), p.conversation, p.persistent)]
                && r == (if started then Done else Error(NotStarted))
                && (!started ==> sent == old(sent))
                && (started ==>
                      && |sent| == |old(sent)| + 1 && sent[..|old(sent)|] == old(sent)
                      && var m := sent[|old(sent)|];
                         && m.JobMessage? && m.job == turn && m.prompt == prompt
                         && (p.conversation.Some? ==> m.conversation == ContinueConversation(p.conversation.value))
                         && (p.conversation.None? ==>
                               m.conversation == if p.persistent then PersistentConversation else FreshConversation))
    {
      if turn !in turns { return Error(UnknownTurn); }
      var pending := turns[turn];
      if pending.prompt.Some? { return Error(AlreadySubmitted); }
      turns := turns[turn := pending.(prompt := Some(prompt))];
      var conversation :=
        if pending.conversation.Some? then ContinueConversation(pending.conversation.value)
        else if pending.persistent then PersistentConversation
        else FreshConversation;
      if !started { return Error(NotStarted); }
      sent := sent + [JobMessage(turn, prompt, conversation)];
      r := Done;
    }

    method Wait(turn: Id) returns (r: Outcome)
      modifies this
      ensures (View(), r) == Do(old(View()), WaitForResponse(turn))
      ensures started == old(started) && turns == old(turns) && sent == old(sent)
      ensures if turn !in turns then r == Error(UnknownTurn) && inbox == old(inbox)
              else if !started then r == Error(NotStarted) && inbox == old(inbox)
              else if old(inbox) == [] then r == Error(NoReply) && inbox == []
              else
                && inbox == old(inbox)[1..]
                && r == match old(inbox)[0]
                        case ProbeResult(_) => Error(JobMismatch)
                        case JobResult(job, text, conversation) =>
                          if job != turn then Error(JobMismatch)
                          else if text.None? then Error(EmptyResponse)
                          else Answer(turn, text.value, conversation)
                        case JobError(job) => if job != turn then Error(JobMismatch) else Error(JobFailed)
                        case OtherReply(job) => if job != turn then Error(JobMismatch) else Error(UnexpectedReply)
    {
      if turn !in turns { return Error(UnknownTurn); }
      if !started { return Error(NotStarted); }
      if inbox == [] { return Error(NoReply); }
      var result := inbox[0];
      inbox := inbox[1..];
      if result.ProbeResult? || result.job != turn { return Error(JobMismatch); }
      if result.JobError? { return Error(JobFailed); }
      if !result.JobResult? { return Error(UnexpectedReply); }
      if result.text.None? { return Error(EmptyResponse); }
      r := Answer(turn, result.text.value, result.conversation);
    }

    /** The first half of `health_check`. */
    method SendHealthProbe() returns (r: Outcome)
      modifies this
      ensures (View(), r) == Do(old(View()), SendProbe)
      ensures View() == old(View()).(sent := if started then old(sent) + [ProbeMessage] else old(sent))
      ensures r == if started then Done else Error(NotStarted)
    {
      if !started { return Error(NotStarted); }
      sent := sent + [ProbeMessage];
      r := Done;
    }

    /** The second half: whatever message is next is taken for the probe's result. */
    method ReadHealth() returns (r: Outcome)
      modifies this
      ensures (View(), r) == Do(old(View()), ReadProbe)
      ensures View() == old(View()).(inbox := if started && old(inbox) != [] then old(inbox)[1..] else old(inbox))
      ensures r == if !started then Error(NotStarted)
                   else if old(inbox) == [] then Error(NoReply)
                   else if old(inbox)[0] == ProbeResult(true) then Done
                   else Error(BridgeUnavailable)
    {
      if !started { return Error(NotStarted); }
      if inbox == [] { return Error(NoReply); }
      var result := inbox[0];
      inbox := inbox[1..];
      r := if result.ProbeResult? && result.available then Done else Error(BridgeUnavailable);
    }

    method Close(turn: Id)
      modifies this
      ensures View() == Do(old(View()), CloseTurn(turn)).0
      ensures turn !in turns && (forall t | t != turn :: t in turns <==> t in old(turns))
      ensures (forall t | t in turns :: turns[t] == old(turns)[t]) && View() == old(View()).(turns := turns)
    {
      turns := turns - {turn};
    }
  }

  // --------------------------------------------------------------- theorems

  /** A wait answers exactly if the turn is known, the driver started, and the next message is a result of this
      very turn with a text; then it answers that text and that conversation. */
  lemma AnswersExactly(s: State, turn: Id, text: Id, conversation: Option<Id>)
    ensures Waited(s, turn).1 == Answer(turn, text, conversation)
       <==> (turn in s.turns && s.started && s.inbox != [] && s.inbox[0] == JobResult(turn, Some(text), conversation))
    ensures forall t, x, c :: Waited(s, turn).1 == Answer(t, x, c) ==> t == turn
  {
  }

  /** A run of calls; every turn id is drawn once. */
  predicate IsRun(states: seq<State>, calls: seq<Call>) {
    && |states| == |calls| + 1
    && states[0] == State(false, map[], [], [])
    && (forall n | 0 <= n < |calls| :: states[n + 1] == Do(states[n], calls[n]).0)
    && (forall i, j | 0 <= i < j < |calls| && calls[i].BeginTurn? && calls[j].BeginTurn? :: calls[i].turn != calls[j].turn)
  }

  predicate Begun(calls: seq<Call>, n: nat, turn: Id)
    requires n <= |calls|
  {
    exists i :: 0 <= i < n && calls[i].BeginTurn? && calls[i].turn == turn
  }

  predicate Carries(m: Outgoing, turn: Id) { m.JobMessage? && m.job == turn }

  /** What was sent belongs to a begun turn that is closed or has its prompt. */
  ghost predicate SentOk(s: State, calls: seq<Call>, n: nat)
    requires n <= |calls|
  {
    && (forall i, j | 0 <= i < j < |s.sent| && s.sent[i].JobMessage? && s.sent[j].JobMessage? :: s.sent[i].job != s.sent[j].job)
    && (forall i | 0 <= i < |s.sent| && s.sent[i].JobMessage? ::
          Begun(calls, n, s.sent[i].job) && (s.sent[i].job in s.turns ==> s.turns[s.sent[i].job].prompt == Some(s.sent[i].prompt)))
    && (forall t | t in s.turns :: Begun(calls, n, t))
  }

  lemma BegunLater(calls: seq<Call>, n: nat)
    requires n < |calls|
    ensures forall t | Begun(calls, n, t) :: Begun(calls, n + 1, t)
    ensures calls[n].BeginTurn? ==> Begun(calls, n + 1, calls[n].turn)
  {
  }

  lemma SubmitOk(s: State, calls: seq<Call>, n: nat, turn: Id, prompt: Id)
    requires n < |calls| && SentOk(s, calls, n)
    ensures SentOk(Submitted(s, turn, prompt).0, calls, n)
  {
    var t := Submitted(s, turn, prompt).0;
    if turn in s.turns && s.turns[turn].prompt.None? {
      forall i | 0 <= i < |s.sent| ensures !Carries(s.sent[i], turn) {}
    }
  }

  lemma {:induction false} RunOk(states: seq<State>, calls: seq<Call>, n: nat)
    requires IsRun(states, calls) && n <= |calls|
    ensures SentOk(states[n], calls, n)
  {
    if n > 0 {
      var s, c := states[n - 1], calls[n - 1];
      RunOk(states, calls, n - 1);
      BegunLater(calls, n - 1);
      match c
      case Submit(turn, prompt) => SubmitOk(s, calls, n - 1, turn, prompt);
      case BeginTurn(turn, _, _) =>
        forall i | 0 <= i < |s.sent| && s.sent[i].JobMessage? ensures s.sent[i].job != turn {
          var k :| 0 <= k < n - 1 && calls[k].BeginTurn? && calls[k].turn == s.sent[i].job;
          assert calls[k].turn != calls[n - 1].turn;
        }
      case _ =>
    }
  }

  /** In any run each turn is sent at most once: a prompt is never sent again, whatever fails in between. */
  lemma SentOnce(states: seq<State>, calls: seq<Call>, n: nat, i: nat, j: nat)
    requires IsRun(states, calls) && n <= |calls| && i < j < |states[n].sent|
    requires states[n].sent[i].JobMessage? && states[n].sent[j].JobMessage?
    ensures states[n].sent[i].job != states[n].sent[j].job
  {
    RunOk(states, calls, n);
  }

  /** The turn was begun like this before call n. */
  predicate BegunAs(calls: seq<Call>, n: nat, turn: Id, conversation: Option<Id>, persistent: bool)
    requires n <= |calls|
  {
    exists i :: 0 <= i < n && calls[i] == BeginTurn(turn, conversation, persistent)
  }

  predicate SubmittedAs(calls: seq<Call>, n: nat, turn: Id, prompt: Id)
    requires n <= |calls|
  {
    exists i :: 0 <= i < n && calls[i] == Submit(turn, prompt)
  }

  /** A message asks for what its turn was begun with, and carries what was submitted. */
  ghost predicate MessageOk(calls: seq<Call>, n: nat, m: Outgoing)
    requires n <= |calls| && m.JobMessage?
  {
    && SubmittedAs(calls, n, m.job, m.prompt)
    && match m.conversation
       case ContinueConversation(id) => exists persistent :: BegunAs(calls, n, m.job, Some(id), persistent)
       case PersistentConversation => BegunAs(calls, n, m.job, None, true)
       case FreshConversation => BegunAs(calls, n, m.job, None, false)
  }

  ghost predicate MessagesOk(s: State, calls: seq<Call>, n: nat)
    requires n <= |calls|
  {
    && (forall i | 0 <= i < |s.sent| && s.sent[i].JobMessage? :: MessageOk(calls, n, s.sent[i]))
    && (forall t | t in s.turns :: BegunAs(calls, n, t, s.turns[t].conversation, s.turns[t].persistent))
  }

  lemma MessageStays(calls: seq<Call>, n: nat, m: Outgoing)
    requires n < |calls| && m.JobMessage? && MessageOk(calls, n, m)
    ensures MessageOk(calls, n + 1, m)
  {
    if m.conversation.ContinueConversation? {
      var persistent :| BegunAs(calls, n, m.job, Some(m.conversation.id), persistent);
      assert BegunAs(calls, n + 1, m.job, Some(m.conversation.id), persistent);
    }
  }

  lemma {:induction false} RunMessages(states: seq<State>, calls: seq<Call>, n: nat)
    requires IsRun(states, calls) && n <= |calls|
    ensures MessagesOk(states[n], calls, n)
  {
    if n > 0 {
      var s, t, c := states[n - 1], states[n], calls[n - 1];
      RunMessages(states, calls, n - 1);
      forall i | 0 <= i < |t.sent| && t.sent[i].JobMessage? ensures MessageOk(calls, n, t.sent[i]) {
        if i < |s.sent| {
          MessageStays(calls, n - 1, s.sent[i]);
        } else {
          var p := s.turns[c.turn];
          assert BegunAs(calls, n - 1, c.turn, p.conversation, p.persistent);
          assert BegunAs(calls, n, c.turn, p.conversation, p.persistent);
        }
      }
    }
  }

  /** In any run every job sent carries the prompt submitted for its turn and the conversation its
      turn was begun with: that id, or else a persistent or a fresh one as asked for. */
  lemma SendsWhatWasAsked(states: seq<State>, calls: seq<Call>, n: nat, i: nat)
    requires IsRun(states, calls) && n <= |calls| && i < |states[n].sent| && states[n].sent[i].JobMessage?
    ensures MessageOk(calls, n, states[n].sent[i])
  {
    RunMessages(states, calls, n);
  }

  /** Whatever waits in the inbox has arrived, for a turn that had been sent by then if the server
      only answers jobs it was sent. */
  ghost predicate InboxOk(states: seq<State>, calls: seq<Call>, n: nat)
    requires n < |states| && |states| == |calls| + 1
  {
    forall r | r in states[n].inbox :: exists i :: 0 <= i < n && calls[i] == Arrive(r)
  }

  lemma {:induction false} RunInbox(states: seq<State>, calls: seq<Call>, n: nat)
    requires IsRun(states, calls) && n <= |calls|
    ensures InboxOk(states, calls, n)
  {
    if n > 0 {
      RunInbox(states, calls, n - 1);
      forall r | r in states[n].inbox ensures exists i :: 0 <= i < n && calls[i] == Arrive(r) {
        if r !in states[n - 1].inbox { assert calls[n - 1] == Arrive(r); }
      }
    }
  }

  lemma {:induction false} SentStays(states: seq<State>, calls: seq<Call>, m: nat, n: nat)
    requires IsRun(states, calls) && m <= n <= |calls|
    ensures states[m].sent <= states[n].sent
    decreases n - m
  {
    if m < n { SentStays(states, calls, m, n - 1); }
  }

  /** The server answers only jobs and probes it has been sent. */
  predicate Honest(states: seq<State>, calls: seq<Call>)
    requires |states| == |calls| + 1
  {
    forall n | 0 <= n < |calls| && calls[n].Arrive? ::
      exists i :: 0 <= i < |states[n].sent|
        && if calls[n].reply.ProbeResult? then states[n].sent[i].ProbeMessage? else Carries(states[n].sent[i], calls[n].reply.job)
  }

  /** In any run, an answer carries the text of a result that arrived for that very turn; with an
      honest server the turn had been sent, and it still has the prompt that was sent with it. */
  lemma AnswersOwnTurn(states: seq<State>, calls: seq<Call>, n: nat, turn: Id)
    requires IsRun(states, calls) && n < |calls| && calls[n] == WaitForResponse(turn)
    requires Do(states[n], calls[n]).1.Answer?
    ensures var a := Do(states[n], calls[n]).1;
            && a.turn == turn
            && exists i :: 0 <= i < n && calls[i] == Arrive(JobResult(turn, Some(a.text), a.conversation))
    ensures Honest(states, calls) ==>
              && turn in states[n].turns
              && exists i :: 0 <= i < |states[n].sent| && Carries(states[n].sent[i], turn)
                             && states[n].turns[turn].prompt == Some(states[n].sent[i].prompt)
  {
    RunInbox(states, calls, n);
    RunOk(states, calls, n);
    var r := states[n].inbox[0];
    assert r in states[n].inbox;
    var m :| 0 <= m < n && calls[m] == Arrive(r);
    assert r == JobResult(turn, r.text, r.conversation);
    if Honest(states, calls) {
      var i :| 0 <= i < |states[m].sent| && Carries(states[m].sent[i], calls[m].reply.job);
      SentStays(states, calls, m, n);
      assert states[n].sent[i] == states[m].sent[i];
    }
  }

  function AfterWaits(s: State, turn: Id, n: nat): State {
    if n == 0 then s else Waited(AfterWaits(s, turn, n - 1), turn).0
  }

  lemma {:induction false} WaitsDrain(s: State, turn: Id, n: nat)
    requires s.started && turn in s.turns && n <= |s.inbox|
    ensures AfterWaits(s, turn, n) == s.(inbox := s.inbox[n..])
  {
    if n > 0 {
      WaitsDrain(s, turn, n - 1);
      assert s.inbox[n - 1..][1..] == s.inbox[n..];
    }
  }

  /** Late replies, to turns given up or to probes, are noticed, not taken: each wait fails on one of
      them, and the first wait after the last of them judges the turn's own reply. */
  lemma LateRepliesAreSkipped(s: State, turn: Id, p: nat)
    requires s.started && turn in s.turns && p < |s.inbox|
    requires IsAbout(s.inbox[p], turn) && forall i | 0 <= i < p :: !IsAbout(s.inbox[i], turn)
    ensures forall i: nat | i < p :: Waited(AfterWaits(s, turn, i), turn).1 == Error(JobMismatch)
    ensures Waited(AfterWaits(s, turn, p), turn).1 == Judged(turn, s.inbox[p])
  {
    forall i: nat | i <= p ensures AfterWaits(s, turn, i) == s.(inbox := s.inbox[i..]) {
      WaitsDrain(s, turn, i);
    }
  }

  /** A health check takes what comes next, a late reply too, and that reply is lost: a turn whose
      reply it took gets none of the replies that were there. */
  lemma HealthCheckTakesLateReply(s: State, turn: Id, n: nat)
    requires s.started && turn in s.turns && s.inbox != [] && IsAbout(s.inbox[0], turn)
    requires n < |s.inbox| - 1 && forall i | 0 < i < |s.inbox| :: !IsAbout(s.inbox[i], turn)
    ensures Probed(s).1 == Error(BridgeUnavailable)
    ensures Waited(AfterWaits(Probed(s).0, turn, n), turn).1 == Error(JobMismatch)
  {
    WaitsDrain(Probed(s).0, turn, n);
  }
}
