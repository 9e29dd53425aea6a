/** The job counters of the hub and of every worker add up in every reachable state. */
module BridgeCounts {
  import opened Records
  import Progress
  import opened Bridge
  import opened BridgeProofs

  /** What is summed over the controller sessions. */
  datatype Measure = Successes | Failures | InFlight | InRequest(w: nat)

  function SuccessCount(answers: seq<Answer>): nat {
    if answers == [] then 0
    else SuccessCount(answers[..|answers| - 1]) + if IsSuccess(answers[|answers| - 1].outcome) then 1 else 0
  }

  function FailureCount(answers: seq<Answer>): nat {
    if answers == [] then 0
    else FailureCount(answers[..|answers| - 1]) + if IsSuccess(answers[|answers| - 1].outcome) then 0 else 1
  }

  function Of(m: Measure, c: Controller): nat {
    match m
    case Successes => SuccessCount(c.settled)
    case Failures => FailureCount(c.settled)
    case InFlight =>
      if c.pc.Checking? || c.pc.Locking? || c.pc.Sending? || c.pc.Waiting? || c.pc.Unwinding? || c.pc.Recording? then 1 else 0
    case InRequest(w) => if (c.pc.Sending? || c.pc.Waiting?) && c.pc.w == w then 1 else 0
  }

  function Sum(m: Measure, cs: seq<Controller>): nat {
    if cs == [] then 0 else Sum(m, cs[..|cs| - 1]) + Of(m, cs[|cs| - 1])
  }

  lemma {:induction false} SumUpdate(m: Measure, cs: seq<Controller>, k: nat, c: Controller)
    requires k < |cs|
    ensures Sum(m, cs[k := c]) == Sum(m, cs) - Of(m, cs[k]) + Of(m, c)
    decreases |cs|
  {
    var n := |cs| - 1;
    var ds := cs[k := c];
    if k == n {
      assert ds[..n] == cs[..n];
    } else {
      SumUpdate(m, cs[..n], k, c);
      assert ds[..n] == cs[..n][k := c];
    }
  }

  lemma {:induction false} SumZero(m: Measure, cs: seq<Controller>)
    requires forall k | 0 <= k < |cs| :: cs[k] == Controller(Idle, [], [], [])
    ensures Sum(m, cs) == 0
  {
    if cs != [] { SumZero(m, cs[..|cs| - 1]); }
  }

  ghost predicate HubBalanced(h: Hub) {
    && h.succeeded == Sum(Successes, h.controllers)
    && h.failed == Sum(Failures, h.controllers)
    && h.succeeded + h.failed + Sum(InFlight, h.controllers) == h.started + h.rejected
  }

  ghost predicate WorkerBalanced(h: Hub, w: nat)
    requires w < |h.workers|
  {
    var v := h.workers[w];
    v.started == v.succeeded + v.failed + v.raised + Sum(InRequest(w), h.controllers)
  }

  ghost predicate Balanced(h: Hub) {
    && HubBalanced(h)
    && (forall w: nat | w < |h.workers| :: WorkerBalanced(h, w))
    && (forall k | 0 <= k < |h.controllers| :: h.controllers[k].pc.Sending? || h.controllers[k].pc.Waiting? ==>
          h.controllers[k].pc.w < |h.workers|)
  }

  /** No controller is in a request to a worker that is not there yet. */
  lemma {:induction false} NewWorkerIdle(cs: seq<Controller>, w: nat)
    requires forall k | 0 <= k < |cs| :: cs[k].pc.Sending? || cs[k].pc.Waiting? ==> cs[k].pc.w < w
    ensures Sum(InRequest(w), cs) == 0
  {
    if cs != [] { NewWorkerIdle(cs[..|cs| - 1], w); }
  }

  lemma SettleCounts(answers: seq<Answer>, a: Answer)
    ensures SuccessCount(answers + [a]) == SuccessCount(answers) + if IsSuccess(a.outcome) then 1 else 0
    ensures FailureCount(answers + [a]) == FailureCount(answers) + if IsSuccess(a.outcome) then 0 else 1
  {
    assert (answers + [a])[..|answers|] == answers;
  }

  predicate OfController(a: Action) { a.Ask? || a.Advance? || a.TimeOut? || a.Vanish? }

  /** A controller step moves one controller. */
  lemma OneControllerMoves(h: Hub, a: Action)
    requires Can(h, a) && OfController(a)
    ensures |Do(h, a).controllers| == |h.controllers|
    ensures Do(h, a).controllers == h.controllers[a.k := Do(h, a).controllers[a.k]]
  {
  }

  /** What the hub's counters gain from h to g is what controller k's books gain. */
  ghost predicate CountersFollow(h: Hub, g: Hub, k: nat)
    requires k < |h.controllers| && k < |g.controllers|
  {
    var c, d := h.controllers[k], g.controllers[k];
    var won := Of(Successes, d) - Of(Successes, c);
    var lost := Of(Failures, d) - Of(Failures, c);
    && g.succeeded - h.succeeded == won
    && g.failed - h.failed == lost
    && g.started + g.rejected - h.started - h.rejected == won + lost + Of(InFlight, d) - Of(InFlight, c)
  }

  lemma RecordingFollows(h: Hub, k: nat, now: Time, ok: bool)
    requires Can(h, Advance(k, now, ok)) && h.controllers[k].pc.Recording?
    ensures CountersFollow(h, Do(h, Advance(k, now, ok)), k)
  {
    var c := h.controllers[k];
    var a := Answer(c.pc.job, c.pc.outcome);
    SettleCounts(c.settled, a);
    var d := c.(settled := c.settled + [a], pc := Clearing(a.job, a.outcome));
    assert Controlled(h, k, now, ok).controllers[k] == d;
  }

  lemma RejectingCounts(h: Hub, k: nat, now: Time, ok: bool)
    requires Can(h, Advance(k, now, ok)) && h.controllers[k].pc.Rejecting?
    ensures var g, c := Do(h, Advance(k, now, ok)), h.controllers[k];
            && k < |g.controllers|
            && g.controllers[k] == c.(settled := c.settled + [Answer(c.pc.job, NoWorker)], pc := Replying(c.pc.job, NoWorker))
            && g.succeeded == h.succeeded && g.failed == h.failed + 1
            && g.started == h.started && g.rejected == h.rejected + 1
  {
  }

  lemma RejectingFollows(h: Hub, k: nat, now: Time, ok: bool)
    requires Can(h, Advance(k, now, ok)) && h.controllers[k].pc.Rejecting?
    ensures k < |Do(h, Advance(k, now, ok)).controllers| && CountersFollow(h, Do(h, Advance(k, now, ok)), k)
  {
    var c := h.controllers[k];
    RejectingCounts(h, k, now, ok);
    SettleCounts(c.settled, Answer(c.pc.job, NoWorker));
  }

  lemma AdvancingFollows(h: Hub, k: nat, now: Time, ok: bool)
    requires Can(h, Advance(k, now, ok)) && !h.controllers[k].pc.Recording? && !h.controllers[k].pc.Rejecting?
    ensures CountersFollow(h, Do(h, Advance(k, now, ok)), k)
  {
    var c, d := h.controllers[k], Do(h, Advance(k, now, ok)).controllers[k];
    assert d.settled == c.settled;
  }

  /** What one controller step adds to the hub's counters is what it adds to the controller's books. */
  lemma HubDelta(h: Hub, a: Action)
    requires Can(h, a) && OfController(a)
    ensures |Do(h, a).controllers| == |h.controllers| && CountersFollow(h, Do(h, a), a.k)
  {
    match a
    case Advance(k, now, ok) =>
      if h.controllers[k].pc.Recording? {
        RecordingFollows(h, k, now, ok);
      } else if h.controllers[k].pc.Rejecting? {
        RejectingFollows(h, k, now, ok);
      } else {
        AdvancingFollows(h, k, now, ok);
      }
    case Ask(_, _) =>
    case TimeOut(_) =>
    case Vanish(_) =>
  }

  lemma HubStep(h: Hub, a: Action)
    requires HubBalanced(h) && Can(h, a) && OfController(a)
    ensures HubBalanced(Do(h, a))
  {
    HubDelta(h, a);
    OneControllerMoves(h, a);
    var d := Do(h, a).controllers[a.k];
    SumUpdate(Successes, h.controllers, a.k, d);
    SumUpdate(Failures, h.controllers, a.k, d);
    SumUpdate(InFlight, h.controllers, a.k, d);
  }

  function Books(v: Worker): int { v.started - v.succeeded - v.failed - v.raised }

  /** What one controller step adds to a worker's counters is the request it opens or closes. */
  lemma WorkerDelta(h: Hub, a: Action, w: nat)
    requires Can(h, a) && OfController(a) && w < |h.workers|
    ensures |Do(h, a).workers| == |h.workers|
    ensures Books(Do(h, a).workers[w]) - Books(h.workers[w])
            == Of(InRequest(w), Do(h, a).controllers[a.k]) - Of(InRequest(w), h.controllers[a.k])
  {
    var pc := h.controllers[a.k].pc;
    if a.Advance? && pc.Looking? {
      ScanKeeps(h.workers, 0, pc.job.tunnel, a.now, h.stale);
      var v := Scan(h.workers, 0, pc.job.tunnel, a.now, h.stale).0[w];
      assert v == h.workers[w] || v == h.workers[w].(alive := false);
    }
  }

  lemma WorkerStep(h: Hub, a: Action, w: nat)
    requires Can(h, a) && OfController(a) && w < |h.workers| && WorkerBalanced(h, w)
    ensures w < |Do(h, a).workers| && WorkerBalanced(Do(h, a), w)
  {
    WorkerDelta(h, a, w);
    OneControllerMoves(h, a);
    SumUpdate(InRequest(w), h.controllers, a.k, Do(h, a).controllers[a.k]);
  }

  lemma BrowserStep(h: Hub, a: Action)
    requires Balanced(h) && Can(h, a) && !OfController(a)
    ensures HubBalanced(Do(h, a)) && forall w: nat | w < |Do(h, a).workers| :: WorkerBalanced(Do(h, a), w)
  {
    var g := Do(h, a);
    assert g.controllers == h.controllers;
    if a.Probe? { ScanKeeps(h.workers, 0, a.tunnel, a.now, h.stale); }
    forall w: nat | w < |g.workers| ensures WorkerBalanced(g, w) {
      if w < |h.workers| {
        assert WorkerBalanced(h, w);
        assert Books(g.workers[w]) == Books(h.workers[w]);
      } else {
        NewWorkerIdle(h.controllers, w);
      }
    }
  }

  lemma StepBalanced(h: Hub, a: Action)
    requires Inv(h) && Balanced(h) && Can(h, a)
    ensures Balanced(Do(h, a))
  {
    var g := Do(h, a);
    if OfController(a) {
      HubStep(h, a);
      forall w: nat | w < |g.workers| ensures WorkerBalanced(g, w) {
        if |h.workers| > 0 { WorkerDelta(h, a, 0); } else { NoWorkersStay(h, a); }
        WorkerStep(h, a, w);
      }
    } else {
      BrowserStep(h, a);
    }
    StepKept(h, a);
    RequestsHaveWorkers(g);
  }

  lemma NoWorkersStay(h: Hub, a: Action)
    requires Can(h, a) && OfController(a) && h.workers == []
    ensures Do(h, a).workers == []
  {
  }

  lemma RequestsHaveWorkers(g: Hub)
    requires Inv(g)
    ensures forall k | 0 <= k < |g.controllers| :: g.controllers[k].pc.Sending? || g.controllers[k].pc.Waiting? ==>
              g.controllers[k].pc.w < |g.workers|
  {
    forall k | 0 <= k < |g.controllers|
      ensures g.controllers[k].pc.Sending? || g.controllers[k].pc.Waiting? ==> g.controllers[k].pc.w < |g.workers|
    {
      assert PcOk(g.workers, g.controllers[k].pc);
    }
  }

  lemma {:induction false} TraceBalanced(run: seq<Hub>, acts: seq<Action>, n: nat)
    requires IsTrace(run, acts) && n < |run|
    ensures Balanced(run[n])
  {
    if n == 0 {
      SumZero(Successes, run[0].controllers);
      SumZero(Failures, run[0].controllers);
      SumZero(InFlight, run[0].controllers);
    } else {
      TraceBalanced(run, acts, n - 1);
      TraceOk(run, acts, n - 1);
      StepBalanced(run[n - 1], acts[n - 1]);
    }
  }

  /** In every reachable state: hub succeeded + failed + in flight = started + rejected for want of
      a worker, succeeded and failed are the jobs settled that way, and for each worker started =
      succeeded + failed + in flight + sends that raised. */
  lemma JobsAddUp(run: seq<Hub>, acts: seq<Action>, n: nat)
    requires IsTrace(run, acts) && n < |run|
    ensures HubBalanced(run[n])
    ensures forall w: nat | w < |run[n].workers| :: WorkerBalanced(run[n], w)
  {
    TraceBalanced(run, acts, n);
  }

  /** A worker's request lock admits one request at a time, so its in-flight count is 0 or 1. */
  lemma {:induction false} AtMostOneInRequest(cs: seq<Controller>, w: nat)
    requires forall j, k | 0 <= j < |cs| && 0 <= k < |cs| && j != k :: !(Holds(cs[j].pc, w) && Holds(cs[k].pc, w))
    ensures Sum(InRequest(w), cs) <= 1
  {
    if cs != [] {
      var n := |cs| - 1;
      AtMostOneInRequest(cs[..n], w);
      if Of(InRequest(w), cs[n]) == 1 {
        assert Holds(cs[n].pc, w);
        forall j | 0 <= j < n ensures Of(InRequest(w), cs[..n][j]) == 0 {
          assert cs[..n][j] == cs[j] && !Holds(cs[j].pc, w);
        }
        NoneInRequest(cs[..n], w);
      }
    }
  }

  lemma {:induction false} NoneInRequest(cs: seq<Controller>, w: nat)
    requires forall j | 0 <= j < |cs| :: Of(InRequest(w), cs[j]) == 0
    ensures Sum(InRequest(w), cs) == 0
  {
    if cs != [] {
      var n := |cs| - 1;
      forall j | 0 <= j < n ensures Of(InRequest(w), cs[..n][j]) == 0 { assert cs[..n][j] == cs[j]; }
      NoneInRequest(cs[..n], w);
    }
  }

  lemma WorkerRunsOneJob(run: seq<Hub>, acts: seq<Action>, n: nat, w: nat)
    requires IsTrace(run, acts) && n < |run| && w < |run[n].workers|
    ensures var v := run[n].workers[w];
            v.succeeded + v.failed + v.raised <= v.started <= v.succeeded + v.failed + v.raised + 1
  {
    TraceBalanced(run, acts, n);
    TraceOk(run, acts, n);
    AtMostOneInRequest(run[n].controllers, w);
    assert WorkerBalanced(run[n], w);
  }

  // --------------------------------------------------------- nobody is stuck

  /** A controller that does not wait for a request lock can move: while it waits for its worker it
      can be answered or time out. */
  lemma UnlockedMoves(h: Hub, k: nat, now: Time)
    requires k < |h.controllers| && PcOk(h.workers, h.controllers[k].pc)
    requires var pc := h.controllers[k].pc;
             !pc.Idle? && !pc.Gone? && (pc.Locking? && pc.w < |h.workers| ==> LockFree(h, pc.w))
    ensures Can(h, Advance(k, now, true)) || Can(h, TimeOut(k))
  {
  }

  /** As long as some controller has a job to answer, some controller can move: a request lock is
      only held by a controller that can be answered, time out, or unwind. */
  lemma NeverStuck(run: seq<Hub>, acts: seq<Action>, n: nat, k: nat, now: Time)
    requires IsTrace(run, acts) && n < |run| && k < |run[n].controllers|
    requires !run[n].controllers[k].pc.Idle? && !run[n].controllers[k].pc.Gone?
    ensures exists j: nat :: j < |run[n].controllers| && (Can(run[n], Advance(j, now, true)) || Can(run[n], TimeOut(j)))
  {
    TraceOk(run, acts, n);
    var h := run[n];
    var pc := h.controllers[k].pc;
    assert PcOk(h.workers, pc);
    var j := k;
    if pc.Locking? && !LockFree(h, pc.w) {
      j :| 0 <= j < |h.controllers| && Holds(h.controllers[j].pc, pc.w);
      assert PcOk(h.workers, h.controllers[j].pc);
    }
    UnlockedMoves(h, j, now);
  }

  // ------------------------------------------------------ the progress table

  /** The progress operation an action performs, if any. */
  function ProgressOf(h: Hub, a: Action): seq<Progress.Op> {
    match a
    case HearProgress(_, job, text, _, clock) => [Progress.Record(job, clock, text)]
    case Advance(k, _, _) =>
      if k < |h.controllers| && h.controllers[k].pc.Clearing? then [Progress.Clear(h.controllers[k].pc.job.id)] else []
    case _ => []
  }

  function History(run: seq<Hub>, acts: seq<Action>): seq<Progress.Op>
    requires |run| == |acts| + 1
  {
    if acts == [] then [] else
      var n := |acts| - 1;
      History(run[..n + 1], acts[..n]) + ProgressOf(run[n], acts[n])
  }

  lemma ProgressStep(h: Hub, a: Action)
    requires Can(h, a)
    ensures Do(h, a).progress
            == if ProgressOf(h, a) == [] then h.progress else Progress.Run(h.progress, ProgressOf(h, a)[0], CAP)
  {
  }

  lemma PrefixTrace(run: seq<Hub>, acts: seq<Action>)
    requires IsTrace(run, acts) && acts != []
    ensures IsTrace(run[..|acts|], acts[..|acts| - 1])
  {
    var n := |acts| - 1;
    forall m | 0 <= m < n ensures Can(run[..n + 1][m], acts[..n][m]) && run[..n + 1][m + 1] == Do(run[..n + 1][m], acts[..n][m]) {
      assert run[..n + 1][m] == run[m] && run[..n + 1][m + 1] == run[m + 1] && acts[..n][m] == acts[m];
    }
  }

  lemma {:induction false} TableFollows(run: seq<Hub>, acts: seq<Action>)
    requires IsTrace(run, acts)
    ensures run[|acts|].progress == Progress.RunAll(History(run, acts), CAP)
    decreases |acts|
  {
    if acts != [] {
      var n := |acts| - 1;
      PrefixTrace(run, acts);
      TableFollows(run[..n + 1], acts[..n]);
      ProgressStep(run[n], acts[n]);
      var before := History(run[..n + 1], acts[..n]);
      var op := ProgressOf(run[n], acts[n]);
      assert run[..n + 1][n] == run[n];
      if op == [] {
        assert before + op == before;
      } else {
        assert (before + op)[..|before|] == before;
      }
    }
  }

  /** Under every interleaving of progress messages and cleared jobs, with a strictly increasing
      clock, the hub's table holds exactly what a recency list of capacity 200 holds: each record
      moves its job to the recent end, each clear removes it, and past 200 the other end goes. */
  lemma ProgressIsRecency(run: seq<Hub>, acts: seq<Action>)
    requires IsTrace(run, acts) && Progress.Ticking(History(run, acts))
    ensures |run[|acts|].progress| <= 200
    ensures forall job, text :: (exists x :: x in run[|acts|].progress && x.job == job && x.text == text)
                                <==> (job, text) in Progress.RunListAll(History(run, acts), 200)
  {
    TableFollows(run, acts);
    Progress.TableRefinesRecency(History(run, acts), CAP);
  }
}
