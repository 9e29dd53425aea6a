/** One driver on one connection to the hub: its controller session takes the driver's messages one at
    a time and in order, and the driver receives the session's replies in order. */
module EndToEnd {
  import opened Records
  import Bridge
  import BridgeProofs
  import BridgeHistory
  import Driver

  /** The driver's controller session, the tunnel and the timeout of its jobs, and what a message body
      holds: a text and a conversation id. */
  datatype Link = Link(k: nat, tunnel: Id, timeoutOk: bool, body: Id -> (Option<Id>, Option<Id>))

  /** A reply of the session: to its i-th job, or to a probe. */
  datatype Source = ToJob(i: nat) | ToProbe(available: bool)

  /** `taken` of the driver's messages have reached the session, `replied` is what it has sent back,
      `given` of that the driver has received. */
  datatype System = System(hub: Bridge.Hub, driver: Driver.State, taken: nat, replied: seq<Source>, given: nat)

  datatype Step =
    | HubStep(action: Bridge.Action)
    | DriverStep(call: Driver.Call)
    | Take(now: Time)
    | Give

  function Carried(l: Link, m: Bridge.Message): Driver.Reply {
    match m
    case JobResult(job, body) => Driver.JobResult(job, l.body(body).0, l.body(body).1)
    case JobError(job, _) => Driver.JobError(job)
  }

  /** The job a message of the driver is for the session. */
  function JobOf(l: Link, m: Driver.Outgoing): Bridge.Job
    requires m.JobMessage?
  {
    Bridge.Job(m.job, l.tunnel, l.timeoutOk)
  }

  /** What the session does with the next message: it is asked a job, or looks up a worker. */
  function Taken(l: Link, s: System, now: Time): Bridge.Action
    requires s.taken < |s.driver.sent|
  {
    var m := s.driver.sent[s.taken];
    if m.JobMessage? then Bridge.Ask(l.k, JobOf(l, m)) else Bridge.Probe(l.k, l.tunnel, now)
  }

  predicate ReplyExists(l: Link, h: Bridge.Hub, r: Source) {
    l.k < |h.controllers| && (r.ToJob? ==> r.i < |h.controllers[l.k].replies|)
  }

  function ReplyOf(l: Link, h: Bridge.Hub, r: Source): Driver.Reply
    requires ReplyExists(l, h, r)
  {
    match r
    case ToJob(i) => Carried(l, Bridge.ReplyOf(h.controllers[l.k].replies[i]))
    case ToProbe(available) => Driver.ProbeResult(available)
  }

  /** What the session has sent after a hub step: a reply to its job is sent when it is counted as one. */
  function RepliedAfter(l: Link, s: System, g: Bridge.Hub): seq<Source> {
    if l.k < |s.hub.controllers| && l.k < |g.controllers| && |g.controllers[l.k].replies| > |s.hub.controllers[l.k].replies|
    then s.replied + [ToJob(|s.hub.controllers[l.k].replies|)] else s.replied
  }

  /** The session hears from the driver only, and the driver from the session; it stays connected. */
  predicate Can(l: Link, s: System, st: Step) {
    match st
    case HubStep(a) => Bridge.Can(s.hub, a) && !((a.Ask? || a.Probe?) && a.k == l.k)
    case DriverStep(c) => !c.Arrive? && !c.Stop?
    case Take(now) => s.taken < |s.driver.sent| && Bridge.Can(s.hub, Taken(l, s, now))
    case Give => s.given < |s.replied| && ReplyExists(l, s.hub, s.replied[s.given])
  }

  function Do(l: Link, s: System, st: Step): System
    requires Can(l, s, st)
  {
    match st
    case HubStep(a) => s.(hub := Bridge.Do(s.hub, a), replied := RepliedAfter(l, s, Bridge.Do(s.hub, a)))
    case DriverStep(c) => s.(driver := Driver.Do(s.driver, c).0)
    case Take(now) =>
      var a := Taken(l, s, now);
      s.(hub := Bridge.Do(s.hub, a),
         taken := s.taken + 1,
         replied := if a.Probe?
                    then s.replied + [ToProbe(Bridge.Scan(s.hub.workers, 0, l.tunnel, now, s.hub.stale).1.Some?)]
                    else s.replied)
    case Give =>
      s.(driver := Driver.Do(s.driver, Driver.Arrive(ReplyOf(l, s.hub, s.replied[s.given]))).0, given := s.given + 1)
  }

  predicate IsRun(l: Link, run: seq<System>, steps: seq<Step>) {
    && |run| == |steps| + 1
    && Bridge.Init(run[0].hub) && l.k < |run[0].hub.controllers|
    && run[0].driver == Driver.State(true, map[], [], []) && run[0].taken == run[0].given == 0 && run[0].replied == []
    && forall n | 0 <= n < |steps| :: Can(l, run[n], steps[n]) && run[n + 1] == Do(l, run[n], steps[n])
  }

  // --------------------------------------------------------------- invariant

  /** The j-th reply is to the j-th message. */
  predicate Paired(l: Link, s: System, j: nat)
    requires j < |s.replied| && j < |s.driver.sent| && l.k < |s.hub.controllers|
  {
    var c := s.hub.controllers[l.k];
    match s.replied[j]
    case ToJob(i) => i < |c.replies| && i < |c.asked| && s.driver.sent[j].JobMessage? && c.asked[i] == JobOf(l, s.driver.sent[j])
    case ToProbe(_) => s.driver.sent[j].ProbeMessage?
  }

  /** The job the session is at, if any, is the last message it has taken. */
  predicate AtLast(l: Link, s: System)
    requires l.k < |s.hub.controllers| && s.taken <= |s.driver.sent|
  {
    var c := s.hub.controllers[l.k];
    |s.replied| < s.taken ==>
      && s.driver.sent[s.taken - 1].JobMessage? && c.asked != []
      && c.asked[|c.asked| - 1] == JobOf(l, s.driver.sent[s.taken - 1])
  }

  /** The session has replied to what it has taken, but for the job it may be at. */
  predicate InStep(l: Link, s: System) {
    && l.k < |s.hub.controllers| && s.taken <= |s.driver.sent| && s.given <= |s.replied| <= s.taken
    && |s.hub.controllers[l.k].asked| - |s.hub.controllers[l.k].replies| == s.taken - |s.replied| <= 1
    && AtLast(l, s)
    && forall j | 0 <= j < |s.replied| :: Paired(l, s, j)
  }

  /** What waits in the driver's inbox is one of the replies given so far. */
  predicate FromReplies(l: Link, s: System, r: Driver.Reply) {
    exists j :: 0 <= j < s.given && j < |s.replied| && ReplyExists(l, s.hub, s.replied[j]) && r == ReplyOf(l, s.hub, s.replied[j])
  }

  ghost predicate Inv(l: Link, s: System) {
    && BridgeProofs.Inv(s.hub) && InStep(l, s) && s.driver.started
    && forall r | r in s.driver.inbox :: FromReplies(l, s, r)
  }

  /** What a hub step does to the session's books. */
  lemma SessionBooks(h: Bridge.Hub, a: Bridge.Action, k: nat)
    requires Bridge.Can(h, a) && k < |h.controllers| && !(a.Ask? && a.k == k)
    ensures var g := Bridge.Do(h, a);
            && k < |g.controllers| && g.controllers[k].asked == h.controllers[k].asked
            && h.controllers[k].replies <= g.controllers[k].replies
            && |g.controllers[k].replies| <= |h.controllers[k].replies| + 1
  {
  }

  /** Growing replies leave those already sent as they were. */
  lemma RepliesStay(l: Link, s: System, t: System)
    requires l.k < |s.hub.controllers| && l.k < |t.hub.controllers|
    requires s.hub.controllers[l.k].replies <= t.hub.controllers[l.k].replies
    requires s.replied <= t.replied && s.given <= t.given
    ensures forall r | FromReplies(l, s, r) :: FromReplies(l, t, r)
  {
    forall r | FromReplies(l, s, r) ensures FromReplies(l, t, r) {
      var j :| 0 <= j < s.given && j < |s.replied| && ReplyExists(l, s.hub, s.replied[j]) && r == ReplyOf(l, s.hub, s.replied[j]);
      assert t.replied[j] == s.replied[j];
      assert ReplyOf(l, t.hub, t.replied[j]) == r;
    }
  }

  lemma PairsStay(l: Link, s: System, t: System)
    requires l.k < |s.hub.controllers| && l.k < |t.hub.controllers|
    requires s.hub.controllers[l.k].replies <= t.hub.controllers[l.k].replies
    requires s.hub.controllers[l.k].asked <= t.hub.controllers[l.k].asked
    requires s.replied <= t.replied && s.driver.sent <= t.driver.sent && |s.replied| <= |s.driver.sent|
    requires forall j | 0 <= j < |s.replied| :: Paired(l, s, j)
    ensures forall j | 0 <= j < |s.replied| :: Paired(l, t, j)
  {
    forall j | 0 <= j < |s.replied| ensures Paired(l, t, j) {
      assert Paired(l, s, j) && t.replied[j] == s.replied[j] && t.driver.sent[j] == s.driver.sent[j];
    }
  }

  lemma HubStepKept(l: Link, s: System, a: Bridge.Action)
    requires Inv(l, s) && Can(l, s, HubStep(a))
    ensures Inv(l, Do(l, s, HubStep(a)))
  {
    var t := Do(l, s, HubStep(a));
    BridgeProofs.StepKept(s.hub, a);
    SessionBooks(s.hub, a, l.k);
    RepliesStay(l, s, t);
    PairsStay(l, s, t);
    assert BridgeProofs.HistoryOk(t.hub.workers, t.hub.controllers[l.k]);
  }

  lemma TakeKept(l: Link, s: System, now: Time)
    requires Inv(l, s) && Can(l, s, Take(now))
    ensures Inv(l, Do(l, s, Take(now)))
  {
    var t := Do(l, s, Take(now));
    var a := Taken(l, s, now);
    BridgeProofs.StepKept(s.hub, a);
    var c, d := s.hub.controllers[l.k], t.hub.controllers[l.k];
    assert BridgeProofs.HistoryOk(s.hub.workers, c);
    assert d.replies == c.replies && d.asked == if a.Ask? then c.asked + [a.request] else c.asked;
    RepliesStay(l, s, t);
    PairsStay(l, s, t);
  }

  lemma GiveKept(l: Link, s: System)
    requires Inv(l, s) && Can(l, s, Give)
    ensures Inv(l, Do(l, s, Give))
  {
    var t := Do(l, s, Give);
    RepliesStay(l, s, t);
    PairsStay(l, s, t);
    var arrived := ReplyOf(l, s.hub, s.replied[s.given]);
    assert FromReplies(l, t, arrived) by { assert t.replied[s.given] == s.replied[s.given]; }
  }

  lemma CallsOnlySend(s: Driver.State, c: Driver.Call)
    requires !c.Arrive? && !c.Stop? && s.started
    ensures var t := Driver.Do(s, c).0;
            t.started && s.sent <= t.sent && forall r | r in t.inbox :: r in s.inbox
  {
  }

  lemma DriverStepKept(l: Link, s: System, c: Driver.Call)
    requires Inv(l, s) && Can(l, s, DriverStep(c))
    ensures Inv(l, Do(l, s, DriverStep(c)))
  {
    var t := Do(l, s, DriverStep(c));
    CallsOnlySend(s.driver, c);
    RepliesStay(l, s, t);
    PairsStay(l, s, t);
  }

  lemma InitKept(l: Link, s: System)
    requires Bridge.Init(s.hub) && l.k < |s.hub.controllers|
    requires s.driver == Driver.State(true, map[], [], []) && s.taken == s.given == 0 && s.replied == []
    ensures Inv(l, s)
  {
    BridgeProofs.TraceOk([s.hub], [], 0);
    assert [s.hub][0] == s.hub;
  }

  lemma {:induction false} RunOk(l: Link, run: seq<System>, steps: seq<Step>, n: nat)
    requires IsRun(l, run, steps) && n < |run|
    ensures Inv(l, run[n])
  {
    if n == 0 {
      InitKept(l, run[0]);
    } else {
      RunOk(l, run, steps, n - 1);
      match steps[n - 1]
      case HubStep(a) => HubStepKept(l, run[n - 1], a);
      case DriverStep(c) => DriverStepKept(l, run[n - 1], c);
      case Take(now) => TakeKept(l, run[n - 1], now);
      case Give => GiveKept(l, run[n - 1]);
    }
  }

  // ------------------------------------------------------- the run of the hub

  /** The step of the hub in a step of the system, if any. */
  function ActionOf(l: Link, s: System, st: Step): seq<Bridge.Action>
    requires Can(l, s, st)
  {
    match st
    case HubStep(a) => [a]
    case Take(now) => [Taken(l, s, now)]
    case _ => []
  }

  /** What the hub does and the states it passes in the first n steps. */
  function Actions(l: Link, run: seq<System>, steps: seq<Step>, n: nat): seq<Bridge.Action>
    requires IsRun(l, run, steps) && n <= |steps|
  {
    if n == 0 then [] else Actions(l, run, steps, n - 1) + ActionOf(l, run[n - 1], steps[n - 1])
  }

  function Hubs(l: Link, run: seq<System>, steps: seq<Step>, n: nat): seq<Bridge.Hub>
    requires IsRun(l, run, steps) && n <= |steps|
  {
    if n == 0 then [run[0].hub]
    else Hubs(l, run, steps, n - 1) + if ActionOf(l, run[n - 1], steps[n - 1]) == [] then [] else [run[n].hub]
  }

  lemma ExtendTrace(hs: seq<Bridge.Hub>, acts: seq<Bridge.Action>, a: Bridge.Action, g: Bridge.Hub)
    requires Bridge.IsTrace(hs, acts) && Bridge.Can(hs[|acts|], a) && g == Bridge.Do(hs[|acts|], a)
    ensures Bridge.IsTrace(hs + [g], acts + [a])
  {
    forall m | 0 <= m < |acts| + 1
      ensures Bridge.Can((hs + [g])[m], (acts + [a])[m]) && (hs + [g])[m + 1] == Bridge.Do((hs + [g])[m], (acts + [a])[m])
    {
      if m < |acts| { assert (hs + [g])[m] == hs[m] && (hs + [g])[m + 1] == hs[m + 1] && (acts + [a])[m] == acts[m]; }
    }
  }

  /** Seen from the hub a run of the system is a run of the hub. */
  lemma {:induction false} HubRuns(l: Link, run: seq<System>, steps: seq<Step>, n: nat)
    requires IsRun(l, run, steps) && n <= |steps|
    ensures Bridge.IsTrace(Hubs(l, run, steps, n), Actions(l, run, steps, n))
    ensures Hubs(l, run, steps, n)[|Actions(l, run, steps, n)|] == run[n].hub
  {
    if n > 0 {
      HubRuns(l, run, steps, n - 1);
      var hs, acts := Hubs(l, run, steps, n - 1), Actions(l, run, steps, n - 1);
      var a := ActionOf(l, run[n - 1], steps[n - 1]);
      if a == [] {
        assert hs + [] == hs && acts + a == acts;
      } else {
        ExtendTrace(hs, acts, a[0], run[n].hub);
        assert a == [a[0]];
      }
    }
  }

  // ---------------------------------------------------------------- theorems

  /** The hub is honest: the j-th reply that arrives at the driver answers the j-th message it sent, a
      job under its id and a probe with a probe result. */
  lemma HubIsHonest(l: Link, run: seq<System>, steps: seq<Step>, n: nat)
    requires IsRun(l, run, steps) && n < |steps| && steps[n].Give?
    ensures var s := run[n]; var r := ReplyOf(l, s.hub, s.replied[s.given]);
            && s.given < |s.driver.sent|
            && (s.driver.sent[s.given].ProbeMessage? <==> r.ProbeResult?)
            && (s.driver.sent[s.given].JobMessage? ==> Driver.IsAbout(r, s.driver.sent[s.given].job))
  {
    RunOk(l, run, steps, n);
    var s := run[n];
    assert Paired(l, s, s.given);
    if s.replied[s.given].ToJob? { AnswersItsJob(l, run, steps, n, s.replied[s.given].i); }
  }

  lemma AnswersItsJob(l: Link, run: seq<System>, steps: seq<Step>, n: nat, i: nat)
    requires IsRun(l, run, steps) && n <= |steps| && l.k < |run[n].hub.controllers|
    requires i < |run[n].hub.controllers[l.k].replies|
    ensures i < |run[n].hub.controllers[l.k].asked|
    ensures Bridge.ReplyOf(run[n].hub.controllers[l.k].replies[i]).job == run[n].hub.controllers[l.k].asked[i].id
  {
    HubRuns(l, run, steps, n);
    var hs, acts := Hubs(l, run, steps, n), Actions(l, run, steps, n);
    BridgeProofs.RepliesMatch(hs, acts, |acts|, l.k, i);
  }

  /** The answer to the driver's turn comes from message m: in a step b of the hub's run the session took
      it from worker w, to whom it had handed the turn's job in an earlier step, with nothing else in
      between; and it is the first message about the turn that w, who serves the tunnel, dispatched after
      the hand-over. */
  ghost predicate Relayed(l: Link, hs: seq<Bridge.Hub>, acts: seq<Bridge.Action>, i: nat, turn: Id, m: Bridge.Message, w: nat, since: nat)
    requires |hs| == |acts| + 1
  {
    && (exists b :: 0 <= b < |acts| && BridgeHistory.Decides(hs, acts, b, l.k, i, Bridge.Job(turn, l.tunnel, l.timeoutOk), Bridge.Got(m, w, since)))
    && var ws := hs[|acts|].workers;
       && w < |ws| && l.tunnel in ws[w].tunnels && since <= |ws[w].heard|
       && Bridge.FirstFor(ws[w].heard[since..], turn) == Some(m)
  }

  /** A reply the session relays is relayed in the run of the hub. */
  lemma RelaysReply(l: Link, run: seq<System>, steps: seq<Step>, n: nat, i: nat, turn: Id)
    requires IsRun(l, run, steps) && n <= |steps| && l.k < |run[n].hub.controllers|
    requires var c := run[n].hub.controllers[l.k];
             i < |c.replies| && i < |c.asked| && c.asked[i] == Bridge.Job(turn, l.tunnel, l.timeoutOk) && c.replies[i].outcome.Got?
    ensures |Hubs(l, run, steps, n)| == |Actions(l, run, steps, n)| + 1
    ensures var o := run[n].hub.controllers[l.k].replies[i].outcome;
            Relayed(l, Hubs(l, run, steps, n), Actions(l, run, steps, n), i, turn, o.message, o.w, o.since)
  {
    HubRuns(l, run, steps, n);
    var hs, acts := Hubs(l, run, steps, n), Actions(l, run, steps, n);
    BridgeHistory.RepliesCorrelate(hs, acts, |acts|, l.k, i);
  }

  /** What the driver has waiting for a turn and takes for an answer is a reply of the session to a job
      sent for it. */
  lemma InboxIsRelayed(l: Link, run: seq<System>, steps: seq<Step>, n: nat, r: Driver.Reply) returns (j: nat, i: nat)
    requires IsRun(l, run, steps) && n <= |steps| && r in run[n].driver.inbox && r.JobResult?
    ensures l.k < |run[n].hub.controllers| && j < |run[n].driver.sent| && run[n].driver.sent[j].JobMessage?
    ensures var c := run[n].hub.controllers[l.k];
            && i < |c.replies| && i < |c.asked| && c.asked[i] == JobOf(l, run[n].driver.sent[j])
            && r == Carried(l, Bridge.ReplyOf(c.replies[i])) && c.replies[i].outcome.Got?
  {
    RunOk(l, run, steps, n);
    var s := run[n];
    assert FromReplies(l, s, r);
    j :| 0 <= j < s.given && j < |s.replied| && ReplyExists(l, s.hub, s.replied[j]) && r == ReplyOf(l, s.hub, s.replied[j]);
    assert Paired(l, s, j);
    i := s.replied[j].i;
  }

  /** What an answer says of the reply it was read from. */
  lemma AnswerRead(s: Driver.State, turn: Id)
    requires Driver.Waited(s, turn).1.Answer?
    ensures s.inbox != []
    ensures var a := Driver.Waited(s, turn).1; s.inbox[0] == Driver.JobResult(turn, Some(a.text), a.conversation)
  {
  }

  lemma AnswerRelayed(l: Link, run: seq<System>, steps: seq<Step>, n: nat, r: Driver.Reply)
    returns (j: nat, i: nat, m: Bridge.Message, w: nat, since: nat)
    requires IsRun(l, run, steps) && n <= |steps| && r in run[n].driver.inbox && r.JobResult?
    ensures |Hubs(l, run, steps, n)| == |Actions(l, run, steps, n)| + 1
    ensures j < |run[n].driver.sent| && Driver.Carries(run[n].driver.sent[j], r.job)
    ensures m.JobResult? && l.body(m.body) == (r.text, r.conversation)
    ensures Relayed(l, Hubs(l, run, steps, n), Actions(l, run, steps, n), i, r.job, m, w, since)
  {
    j, i := InboxIsRelayed(l, run, steps, n, r);
    AnswersItsJob(l, run, steps, n, i);
    RelaysReply(l, run, steps, n, i, r.job);
    var o := run[n].hub.controllers[l.k].replies[i].outcome;
    m, w, since := o.message, o.w, o.since;
  }

  /** End to end, in every interleaving with all other sessions: the text a driver returns for a turn is
      that of a message relayed for the turn's own job, which the driver had sent. */
  lemma AnswersCrossTheHub(l: Link, run: seq<System>, steps: seq<Step>, n: nat, turn: Id)
    requires IsRun(l, run, steps) && n < |steps| && steps[n] == DriverStep(Driver.WaitForResponse(turn))
    requires Driver.Waited(run[n].driver, turn).1.Answer?
    ensures |Hubs(l, run, steps, n)| == |Actions(l, run, steps, n)| + 1
    ensures var a := Driver.Waited(run[n].driver, turn).1;
            exists j: nat, i: nat, m: Bridge.Message, w: nat, since: nat ::
              && j < |run[n].driver.sent| && Driver.Carries(run[n].driver.sent[j], turn)
              && m.JobResult? && l.body(m.body) == (Some(a.text), a.conversation)
              && Relayed(l, Hubs(l, run, steps, n), Actions(l, run, steps, n), i, turn, m, w, since)
  {
    AnswerRead(run[n].driver, turn);
    var j, i, m, w, since := AnswerRelayed(l, run, steps, n, run[n].driver.inbox[0]);
  }
}
