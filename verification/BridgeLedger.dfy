/** Every counter of the hub and of its workers counts steps of the run: which ones, and no others. */
module BridgeLedger {
  import opened Records
  import opened Bridge
  import BridgeHistory
  import BridgeWatch

  /** The step is one of controller k's own. */
  predicate Advances(h: Hub, a: Action) { a.Advance? && a.k < |h.controllers| }

  predicate HubStarts(h: Hub, a: Action) { Advances(h, a) && h.controllers[a.k].pc.Starting? }

  predicate HubRejects(h: Hub, a: Action) { Advances(h, a) && h.controllers[a.k].pc.Rejecting? }

  /** The hub books a job whose worker sent a result. */
  predicate HubWins(h: Hub, a: Action) {
    && Advances(h, a) && h.controllers[a.k].pc.Recording?
    && h.controllers[a.k].pc.outcome.Got? && h.controllers[a.k].pc.outcome.message.JobResult?
  }

  /** The hub books a job that had no worker, or that ended in any other way. */
  predicate HubLoses(h: Hub, a: Action) {
    HubRejects(h, a) || (Advances(h, a) && h.controllers[a.k].pc.Recording? && !HubWins(h, a))
  }

  predicate WorkerStarts(h: Hub, a: Action, w: nat) {
    Advances(h, a) && h.controllers[a.k].pc.Locking? && h.controllers[a.k].pc.w == w
  }

  /** The step takes a message of worker w from its pending table. */
  predicate Takes(h: Hub, a: Action, w: nat, result: bool) {
    && Advances(h, a) && h.controllers[a.k].pc.Waiting? && h.controllers[a.k].pc.w == w && w < |h.workers|
    && var id := h.controllers[a.k].pc.job.id;
       id in h.workers[w].pending && h.workers[w].pending[id].Some? && h.workers[w].pending[id].value.JobResult? == result
  }

  predicate Expires(h: Hub, a: Action, w: nat) {
    a.TimeOut? && a.k < |h.controllers| && h.controllers[a.k].pc.Waiting? && h.controllers[a.k].pc.w == w
  }

  predicate SendFails(h: Hub, a: Action, w: nat) {
    Advances(h, a) && !a.ok && h.controllers[a.k].pc.Sending? && h.controllers[a.k].pc.w == w
  }

  function One(b: bool): nat { if b then 1 else 0 }

  /** How many of the steps from m to n are of a kind. */
  function Between(run: seq<Hub>, acts: seq<Action>, m: nat, n: nat, kind: (Hub, Action) -> bool): nat
    requires m <= n <= |acts| && |run| == |acts| + 1
    decreases n - m
  {
    if n == m then 0 else Between(run, acts, m, n - 1, kind) + One(kind(run[n - 1], acts[n - 1]))
  }

  lemma HubStepCounts(h: Hub, a: Action)
    requires Can(h, a)
    ensures var g := Do(h, a);
            && g.started == h.started + One(HubStarts(h, a)) && g.rejected == h.rejected + One(HubRejects(h, a))
            && g.succeeded == h.succeeded + One(HubWins(h, a)) && g.failed == h.failed + One(HubLoses(h, a))
  {
  }

  /** In every run the hub has started a job for each starting step, succeeded for each job booked with a result,
      and failed for each job booked without one or rejected. */
  lemma {:induction false} HubCounts(run: seq<Hub>, acts: seq<Action>, n: nat)
    requires IsTrace(run, acts) && n < |run|
    ensures run[n].started == Between(run, acts, 0, n, HubStarts) && run[n].rejected == Between(run, acts, 0, n, HubRejects)
    ensures run[n].succeeded == Between(run, acts, 0, n, HubWins) && run[n].failed == Between(run, acts, 0, n, HubLoses)
  {
    if n > 0 {
      HubCounts(run, acts, n - 1);
      HubStepCounts(run[n - 1], acts[n - 1]);
    }
  }

  /** How one step moves the counters of a worker. */
  predicate Moved(v: Worker, u: Worker, h: Hub, a: Action, w: nat) {
    && u.started == v.started + One(WorkerStarts(h, a, w))
    && u.succeeded == v.succeeded + One(Takes(h, a, w, true))
    && u.failed == v.failed + One(Takes(h, a, w, false)) + One(Expires(h, a, w))
    && u.raised == v.raised + One(SendFails(h, a, w))
  }

  lemma WorkerStepCounts(h: Hub, a: Action, w: nat)
    requires Can(h, a) && w < |h.workers|
    ensures w < |Do(h, a).workers| && Moved(h.workers[w], Do(h, a).workers[w], h, a, w)
  {
    if BridgeWatch.Looks(h, a) { LookCountsNothing(h, a, w); }
  }

  lemma LookCountsNothing(h: Hub, a: Action, w: nat)
    requires Can(h, a) && w < |h.workers| && BridgeWatch.Looks(h, a)
    ensures w < |Do(h, a).workers| && Moved(h.workers[w], Do(h, a).workers[w], h, a, w)
  {
    if a.Probe? { BridgeWatch.ScanMarks(h.workers, 0, a.tunnel, a.now, h.stale, w); }
    if a.Advance? && h.controllers[a.k].pc.Looking? {
      BridgeWatch.ScanMarks(h.workers, 0, h.controllers[a.k].pc.job.tunnel, a.now, h.stale, w);
    }
  }

  lemma NewWorkerCounts(h: Hub, a: Action, w: nat)
    requires Can(h, a) && |h.workers| <= w < |Do(h, a).workers|
    ensures var v := Do(h, a).workers[w]; v.started == v.succeeded == v.failed == v.raised == 0
  {
    if a.Probe? { BridgeHistory.FindsFirstFit(h.workers, 0, a.tunnel, a.now, h.stale); }
  }

  /** In every run, from the moment a worker is there, it has started a job for each hand-over to it, succeeded
      for each result taken from it, failed for each error taken from it and each timeout, and neither for a
      message that could not be sent. */
  lemma {:induction false} WorkerCounts(run: seq<Hub>, acts: seq<Action>, m: nat, n: nat, w: nat)
    requires IsTrace(run, acts) && m <= n < |run| && w < |run[m].workers|
    ensures w < |run[n].workers|
    ensures var a, b := run[m].workers[w], run[n].workers[w];
            && b.started - a.started == Between(run, acts, m, n, (h, x) => WorkerStarts(h, x, w))
            && b.succeeded - a.succeeded == Between(run, acts, m, n, (h, x) => Takes(h, x, w, true))
            && b.failed - a.failed == Between(run, acts, m, n, (h, x) => Takes(h, x, w, false))
                                      + Between(run, acts, m, n, (h, x) => Expires(h, x, w))
            && b.raised - a.raised == Between(run, acts, m, n, (h, x) => SendFails(h, x, w))
    decreases n - m
  {
    if m < n {
      WorkerCounts(run, acts, m, n - 1, w);
      WorkerStepCounts(run[n - 1], acts[n - 1], w);
    }
  }

  // ---------------------------------------------------------------- look-ups

  /** A probe and the look-up for a job take exactly the listed workers out of service that have been silent for
      too long and that no fit worker comes before. */
  lemma LookingMarks(h: Hub, a: Action, w: nat, tunnel: Id)
    requires Can(h, a) && w < |h.workers|
    requires (a.Probe? && a.tunnel == tunnel)
             || (a.Advance? && h.controllers[a.k].pc.Looking? && h.controllers[a.k].pc.job.tunnel == tunnel)
    ensures var reached := h.workers[w].listed && forall v | 0 <= v < w :: !BridgeHistory.Fit(h.workers[v], tunnel, a.now, h.stale);
            w < |Do(h, a).workers|
            && Do(h, a).workers[w] == if reached then h.workers[w].(alive := h.workers[w].alive && a.now - h.workers[w].lastSeen <= h.stale)
                                      else h.workers[w]
  {
    BridgeHistory.FindsFirstFit(h.workers, 0, tunnel, a.now, h.stale);
    BridgeWatch.ScanMarks(h.workers, 0, tunnel, a.now, h.stale, w);
  }
}
