/** Where in the run each answer comes from: the step that handed the job over, and the step that
    decided how it ended. */
module BridgeHistory {
  import opened Records
  import opened Bridge
  import opened BridgeProofs

  // ------------------------------------------------------------- single steps

  predicate Moves(h: Hub, a: Action, k: nat) { a.Advance? && a.k == k && k < |h.controllers| }

  /** The step looks for a worker of the job's tunnel, with what it finds. */
  predicate LooksUp(h: Hub, a: Action, k: nat, job: Job, found: Option<nat>) {
    Moves(h, a, k) && h.controllers[k].pc == Looking(job) && Scan(h.workers, 0, job.tunnel, a.now, h.stale).1 == found
  }

  /** The step puts the job into the pending table of worker w, who has dispatched `since` messages by then. */
  predicate HandsOver(h: Hub, a: Action, k: nat, job: Job, w: nat, since: nat) {
    Moves(h, a, k) && h.controllers[k].pc == Locking(job, w) && w < |h.workers| && since == |h.workers[w].heard|
  }

  /** A worker that can be given jobs of the tunnel. */
  predicate Fit(w: Worker, tunnel: Id, now: Time, stale: Time) {
    w.listed && w.alive && now - w.lastSeen <= stale && tunnel in w.tunnels
  }

  /** Worker w is the first that can be given jobs of the tunnel. */
  predicate FirstFit(ws: seq<Worker>, w: nat, tunnel: Id, now: Time, stale: Time) {
    w < |ws| && Fit(ws[w], tunnel, now, stale) && forall v | 0 <= v < w :: !Fit(ws[v], tunnel, now, stale)
  }

  predicate InRequest(h: Hub, k: nat, job: Job, w: nat, since: nat) {
    k < |h.controllers| && (h.controllers[k].pc == Sending(job, w, since) || h.controllers[k].pc == Waiting(job, w, since))
  }

  /** How many jobs of the controller the hub has counted. */
  function SettledAt(h: Hub, k: nat): nat { if k < |h.controllers| then |h.controllers[k].settled| else 0 }

  // ------------------------------------------------------------- in the run

  /** Step c looks for a worker of the job's tunnel when w is the first fit one. */
  predicate Chooses(run: seq<Hub>, acts: seq<Action>, c: nat, k: nat, job: Job, w: nat)
    requires c < |acts| && |run| == |acts| + 1
  {
    && Moves(run[c], acts[c], k) && run[c].controllers[k].pc == Looking(job)
    && FirstFit(run[c].workers, w, job.tunnel, acts[c].now, run[c].stale)
  }

  /** One of the first n steps chose the worker for the job the controller is at. */
  ghost predicate Chosen(run: seq<Hub>, acts: seq<Action>, n: nat, k: nat, job: Job, w: nat)
    requires n <= |acts| && |run| == |acts| + 1
  {
    exists c :: 0 <= c < n && Chooses(run, acts, c, k, job, w) && SettledAt(run[c], k) == SettledAt(run[n], k)
  }

  /** After n steps the controller is in a request that one of them opened. */
  ghost predicate Underway(run: seq<Hub>, acts: seq<Action>, n: nat, k: nat, job: Job, w: nat, since: nat)
    requires n <= |acts| && |run| == |acts| + 1
  {
    exists a :: 0 <= a < n && OpenFrom(run, acts, a, n, k, job, w, since)
  }

  ghost predicate OpenFrom(run: seq<Hub>, acts: seq<Action>, a: nat, n: nat, k: nat, job: Job, w: nat, since: nat)
    requires a < n <= |acts| && |run| == |acts| + 1
  {
    && HandsOver(run[a], acts[a], k, job, w, since) && SettledAt(run[a], k) == SettledAt(run[n], k)
    && Chosen(run, acts, a, k, job, w)
    && forall c | a < c <= n :: InRequest(run[c], k, job, w, since)
  }

  /** Step b decides how the job ends. */
  ghost predicate EndsAt(run: seq<Hub>, acts: seq<Action>, b: nat, k: nat, job: Job, o: Outcome)
    requires b < |acts| && |run| == |acts| + 1
  {
    match o
    case NoWorker => LooksUp(run[b], acts[b], k, job, None)
    case BadTimeout =>
      && !job.timeoutOk && Moves(run[b], acts[b], k) && run[b].controllers[k].pc.Checking? && run[b].controllers[k].pc.job == job
      && Chosen(run, acts, b, k, job, run[b].controllers[k].pc.w)
    case SendRaised =>
      && Moves(run[b], acts[b], k) && !acts[b].ok && run[b].controllers[k].pc.Sending? && run[b].controllers[k].pc.job == job
      && Underway(run, acts, b, k, job, run[b].controllers[k].pc.w, run[b].controllers[k].pc.since)
    case TimedOut(w, since, until) =>
      && acts[b] == TimeOut(k) && k < |run[b].controllers| && run[b].controllers[k].pc == Waiting(job, w, since)
      && w < |run[b].workers| && until == |run[b].workers[w].heard|
      && Underway(run, acts, b, k, job, w, since)
    case Got(m, w, since) =>
      && Moves(run[b], acts[b], k) && run[b].controllers[k].pc == Waiting(job, w, since)
      && w < |run[b].workers| && job.id in run[b].workers[w].pending && run[b].workers[w].pending[job.id] == Some(m)
      && Underway(run, acts, b, k, job, w, since)
  }

  /** Step b decides the controller's i-th job: i of its jobs have been counted by then. */
  ghost predicate Decides(run: seq<Hub>, acts: seq<Action>, b: nat, k: nat, i: nat, job: Job, o: Outcome)
    requires b < |acts| && |run| == |acts| + 1
  {
    EndsAt(run, acts, b, k, job, o) && SettledAt(run[b], k) == i
  }

  ghost predicate Ended(run: seq<Hub>, acts: seq<Action>, n: nat, k: nat, i: nat, job: Job, o: Outcome)
    requires n <= |acts| && |run| == |acts| + 1
  {
    exists b :: 0 <= b < n && Decides(run, acts, b, k, i, job, o)
  }

  ghost predicate PcCame(run: seq<Hub>, acts: seq<Action>, n: nat, k: nat, pc: Pc)
    requires n <= |acts| && |run| == |acts| + 1
  {
    match pc
    case Rejecting(job) => Ended(run, acts, n, k, SettledAt(run[n], k), job, NoWorker)
    case Starting(job, w) => Chosen(run, acts, n, k, job, w)
    case Checking(job, w) => Chosen(run, acts, n, k, job, w)
    case Locking(job, w) => Chosen(run, acts, n, k, job, w)
    case Sending(job, w, since) => Underway(run, acts, n, k, job, w, since)
    case Waiting(job, w, since) => Underway(run, acts, n, k, job, w, since)
    case Unwinding(job, _, o) => Ended(run, acts, n, k, SettledAt(run[n], k), job, o)
    case Recording(job, o) => Ended(run, acts, n, k, SettledAt(run[n], k), job, o)
    case _ => true
  }

  ghost predicate AllEnded(run: seq<Hub>, acts: seq<Action>, n: nat, k: nat, answers: seq<Answer>)
    requires n <= |acts| && |run| == |acts| + 1
  {
    forall i | 0 <= i < |answers| :: Ended(run, acts, n, k, i, answers[i].job, answers[i].outcome)
  }

  ghost predicate Came(run: seq<Hub>, acts: seq<Action>, n: nat, k: nat)
    requires n <= |acts| && |run| == |acts| + 1 && k < |run[n].controllers|
  {
    PcCame(run, acts, n, k, run[n].controllers[k].pc) && AllEnded(run, acts, n, k, run[n].controllers[k].settled)
  }

  // ------------------------------------------------------------------- proof

  lemma EndedStays(run: seq<Hub>, acts: seq<Action>, n: nat, k: nat, i: nat, job: Job, o: Outcome)
    requires n < |acts| && |run| == |acts| + 1 && Ended(run, acts, n, k, i, job, o)
    ensures Ended(run, acts, n + 1, k, i, job, o)
  {
    var b :| 0 <= b < n && Decides(run, acts, b, k, i, job, o);
    assert 0 <= b < n + 1;
  }

  lemma AllEndedStays(run: seq<Hub>, acts: seq<Action>, n: nat, k: nat, answers: seq<Answer>)
    requires n < |acts| && |run| == |acts| + 1 && AllEnded(run, acts, n, k, answers)
    ensures AllEnded(run, acts, n + 1, k, answers)
  {
    forall i | 0 <= i < |answers| ensures Ended(run, acts, n + 1, k, i, answers[i].job, answers[i].outcome) {
      EndedStays(run, acts, n, k, i, answers[i].job, answers[i].outcome);
    }
  }

  lemma ChosenStays(run: seq<Hub>, acts: seq<Action>, n: nat, k: nat, job: Job, w: nat)
    requires n < |acts| && |run| == |acts| + 1 && Chosen(run, acts, n, k, job, w)
    requires SettledAt(run[n + 1], k) == SettledAt(run[n], k)
    ensures Chosen(run, acts, n + 1, k, job, w)
  {
    var c :| 0 <= c < n && Chooses(run, acts, c, k, job, w) && SettledAt(run[c], k) == SettledAt(run[n], k);
    assert 0 <= c < n + 1;
  }

  lemma UnderwayStays(run: seq<Hub>, acts: seq<Action>, n: nat, k: nat, job: Job, w: nat, since: nat)
    requires n < |acts| && |run| == |acts| + 1 && Underway(run, acts, n, k, job, w, since)
    requires InRequest(run[n + 1], k, job, w, since) && SettledAt(run[n + 1], k) == SettledAt(run[n], k)
    ensures Underway(run, acts, n + 1, k, job, w, since)
  {
    var a :| 0 <= a < n && OpenFrom(run, acts, a, n, k, job, w, since);
    assert OpenFrom(run, acts, a, n + 1, k, job, w, since);
  }

  /** A controller that the step leaves alone. */
  lemma CameStill(run: seq<Hub>, acts: seq<Action>, n: nat, k: nat)
    requires n < |acts| && |run| == |acts| + 1 && k < |run[n].controllers| && Came(run, acts, n, k)
    requires k < |run[n + 1].controllers| && run[n + 1].controllers[k].pc == run[n].controllers[k].pc
    requires run[n + 1].controllers[k].settled == run[n].controllers[k].settled
    ensures Came(run, acts, n + 1, k)
  {
    var c := run[n].controllers[k];
    AllEndedStays(run, acts, n, k, c.settled);
    match c.pc
    case Rejecting(job) => EndedStays(run, acts, n, k, |c.settled|, job, NoWorker);
    case Starting(job, w) => ChosenStays(run, acts, n, k, job, w);
    case Checking(job, w) => ChosenStays(run, acts, n, k, job, w);
    case Locking(job, w) => ChosenStays(run, acts, n, k, job, w);
    case Sending(job, w, since) => UnderwayStays(run, acts, n, k, job, w, since);
    case Waiting(job, w, since) => UnderwayStays(run, acts, n, k, job, w, since);
    case Unwinding(job, _, o) => EndedStays(run, acts, n, k, |c.settled|, job, o);
    case Recording(job, o) => EndedStays(run, acts, n, k, |c.settled|, job, o);
    case _ =>
  }

  /** The controller a step moves, if any. */
  predicate MovedBy(a: Action, k: nat) {
    (a.Ask? || a.Advance? || a.TimeOut? || a.Vanish?) && a.k == k
  }

  lemma OthersRest(h: Hub, a: Action, k: nat)
    requires Can(h, a) && k < |h.controllers| && !MovedBy(a, k)
    ensures k < |Do(h, a).controllers| && Do(h, a).controllers[k] == h.controllers[k]
  {
  }

  lemma LookAdvances(h: Hub, k: nat, now: Time, ok: bool)
    requires Can(h, Advance(k, now, ok)) && h.controllers[k].pc.Looking?
    ensures var g := Do(h, Advance(k, now, ok)); var job := h.controllers[k].pc.job;
            && k < |g.controllers| && g.controllers[k].settled == h.controllers[k].settled
            && ((g.controllers[k].pc.Starting? && g.controllers[k].pc.job == job
                 && FirstFit(h.workers, g.controllers[k].pc.w, job.tunnel, now, h.stale))
                || (g.controllers[k].pc == Rejecting(job) && LooksUp(h, Advance(k, now, ok), k, job, None)))
  {
    FindsFirstFit(h.workers, 0, h.controllers[k].pc.job.tunnel, now, h.stale);
  }

  lemma RejectAdvances(h: Hub, k: nat, now: Time, ok: bool)
    requires Can(h, Advance(k, now, ok)) && h.controllers[k].pc.Rejecting?
    ensures var g := Do(h, Advance(k, now, ok)); var job := h.controllers[k].pc.job;
            && k < |g.controllers| && g.controllers[k].pc == Replying(job, NoWorker)
            && g.controllers[k].settled == h.controllers[k].settled + [Answer(job, NoWorker)]
  {
  }

  /** The points where a job only passes on its outcome. */
  lemma EndAdvances(h: Hub, k: nat, now: Time, ok: bool)
    requires Can(h, Advance(k, now, ok))
    requires var pc := h.controllers[k].pc; pc.Unwinding? || pc.Recording? || pc.Clearing? || pc.Replying?
    ensures var g := Do(h, Advance(k, now, ok)); var c := h.controllers[k];
            && k < |g.controllers|
            && g.controllers[k].settled == (if c.pc.Recording? then c.settled + [Answer(c.pc.job, c.pc.outcome)] else c.settled)
            && match c.pc
               case Unwinding(job, _, o) => g.controllers[k].pc == Recording(job, o)
               case Recording(job, o) => g.controllers[k].pc == Clearing(job, o)
               case Clearing(job, o) => g.controllers[k].pc == Replying(job, o)
               case Replying(_, _) => g.controllers[k].pc == Idle
  {
  }

  lemma RequestAdvances(h: Hub, k: nat, now: Time, ok: bool)
    requires Can(h, Advance(k, now, ok))
    requires var pc := h.controllers[k].pc; pc.Starting? || pc.Checking? || pc.Locking? || pc.Sending? || pc.Waiting?
    ensures var g := Do(h, Advance(k, now, ok));
            && k < |g.controllers| && g.controllers[k].settled == h.controllers[k].settled
            && match h.controllers[k].pc
               case Starting(job, w) => g.controllers[k].pc == Checking(job, w)
               case Checking(job, w) => g.controllers[k].pc == if job.timeoutOk then Locking(job, w) else Recording(job, BadTimeout)
               case Locking(job, w) => g.controllers[k].pc == Sending(job, w, |h.workers[w].heard|)
               case Sending(job, w, since) =>
                 g.controllers[k].pc == if ok then Waiting(job, w, since) else Unwinding(job, w, SendRaised)
               case Waiting(job, w, since) =>
                 g.controllers[k].pc == Unwinding(job, w, Got(h.workers[w].pending[job.id].value, w, since))
  {
  }

  lemma SettledOneMore(run: seq<Hub>, acts: seq<Action>, n: nat, k: nat, answers: seq<Answer>, a: Answer)
    requires n <= |acts| && |run| == |acts| + 1
    requires AllEnded(run, acts, n, k, answers) && Ended(run, acts, n, k, |answers|, a.job, a.outcome)
    ensures AllEnded(run, acts, n, k, answers + [a])
  {
  }

  lemma RequestCame(run: seq<Hub>, acts: seq<Action>, n: nat, k: nat)
    requires IsTrace(run, acts) && n < |acts| && k < |run[n].controllers| && Came(run, acts, n, k) && Moves(run[n], acts[n], k)
    requires var pc := run[n].controllers[k].pc; pc.Starting? || pc.Checking? || pc.Locking? || pc.Sending? || pc.Waiting?
    ensures k < |run[n + 1].controllers| && Came(run, acts, n + 1, k)
  {
    var h, c := run[n], run[n].controllers[k];
    RequestAdvances(h, k, acts[n].now, acts[n].ok);
    AllEndedStays(run, acts, n, k, c.settled);
    match c.pc
    case Checking(job, w) =>
      if !job.timeoutOk { assert Decides(run, acts, n, k, |c.settled|, job, BadTimeout); } else { ChosenStays(run, acts, n, k, job, w); }
    case Starting(job, w) => ChosenStays(run, acts, n, k, job, w);
    case Locking(job, w) =>
      assert OpenFrom(run, acts, n, n + 1, k, job, w, |h.workers[w].heard|);
    case Sending(job, w, since) =>
      if acts[n].ok {
        UnderwayStays(run, acts, n, k, job, w, since);
      } else {
        assert Decides(run, acts, n, k, |c.settled|, job, SendRaised);
      }
    case Waiting(job, w, since) =>
      assert Decides(run, acts, n, k, |c.settled|, job, Got(h.workers[w].pending[job.id].value, w, since));
    case _ =>
  }

  lemma EndCame(run: seq<Hub>, acts: seq<Action>, n: nat, k: nat)
    requires IsTrace(run, acts) && n < |acts| && k < |run[n].controllers| && Came(run, acts, n, k) && Moves(run[n], acts[n], k)
    requires var pc := run[n].controllers[k].pc; pc.Unwinding? || pc.Recording? || pc.Clearing? || pc.Replying?
    ensures k < |run[n + 1].controllers| && Came(run, acts, n + 1, k)
  {
    var c := run[n].controllers[k];
    EndAdvances(run[n], k, acts[n].now, acts[n].ok);
    AllEndedStays(run, acts, n, k, c.settled);
    if c.pc.Unwinding? || c.pc.Recording? { EndedStays(run, acts, n, k, |c.settled|, c.pc.job, c.pc.outcome); }
    if c.pc.Recording? { SettledOneMore(run, acts, n + 1, k, c.settled, Answer(c.pc.job, c.pc.outcome)); }
  }

  lemma LookCame(run: seq<Hub>, acts: seq<Action>, n: nat, k: nat)
    requires IsTrace(run, acts) && n < |acts| && k < |run[n].controllers| && Came(run, acts, n, k) && Moves(run[n], acts[n], k)
    requires run[n].controllers[k].pc.Looking? || run[n].controllers[k].pc.Rejecting?
    ensures k < |run[n + 1].controllers| && Came(run, acts, n + 1, k)
  {
    var c := run[n].controllers[k];
    AllEndedStays(run, acts, n, k, c.settled);
    if c.pc.Looking? {
      LookAdvances(run[n], k, acts[n].now, acts[n].ok);
      if run[n + 1].controllers[k].pc.Rejecting? {
        assert Decides(run, acts, n, k, |c.settled|, c.pc.job, NoWorker);
      } else {
        assert Chooses(run, acts, n, k, c.pc.job, run[n + 1].controllers[k].pc.w);
      }
    } else {
      RejectAdvances(run[n], k, acts[n].now, acts[n].ok);
      EndedStays(run, acts, n, k, |c.settled|, c.pc.job, NoWorker);
      SettledOneMore(run, acts, n + 1, k, c.settled, Answer(c.pc.job, NoWorker));
    }
  }

  lemma RestCame(run: seq<Hub>, acts: seq<Action>, n: nat, k: nat)
    requires IsTrace(run, acts) && n < |acts| && k < |run[n].controllers| && Came(run, acts, n, k)
    requires MovedBy(acts[n], k) && !acts[n].Advance?
    ensures k < |run[n + 1].controllers| && Came(run, acts, n + 1, k)
  {
    var c := run[n].controllers[k];
    AllEndedStays(run, acts, n, k, c.settled);
    if acts[n].TimeOut? {
      var o := TimedOut(c.pc.w, c.pc.since, |run[n].workers[c.pc.w].heard|);
      assert Decides(run, acts, n, k, |c.settled|, c.pc.job, o);
    }
  }

  lemma {:induction false} TraceCame(run: seq<Hub>, acts: seq<Action>, n: nat, k: nat)
    requires IsTrace(run, acts) && n < |run| && k < |run[n].controllers|
    ensures Came(run, acts, n, k)
  {
    if n > 0 {
      SameControllers(run, acts, n - 1);
      TraceCame(run, acts, n - 1, k);
      var a, pc := acts[n - 1], run[n - 1].controllers[k].pc;
      if !MovedBy(a, k) {
        OthersRest(run[n - 1], a, k);
        CameStill(run, acts, n - 1, k);
      } else if !a.Advance? {
        RestCame(run, acts, n - 1, k);
      } else if pc.Looking? || pc.Rejecting? {
        LookCame(run, acts, n - 1, k);
      } else if pc.Unwinding? || pc.Recording? || pc.Clearing? || pc.Replying? {
        EndCame(run, acts, n - 1, k);
      } else {
        RequestCame(run, acts, n - 1, k);
      }
    }
  }

  lemma SameControllers(run: seq<Hub>, acts: seq<Action>, n: nat)
    requires IsTrace(run, acts) && n < |acts|
    ensures |run[n + 1].controllers| == |run[n].controllers|
  {
  }

  /** A look-up finds the first fit worker, and nothing exactly if there is none. */
  lemma {:induction false} FindsFirstFit(ws: seq<Worker>, i: nat, tunnel: Id, now: Time, stale: Time)
    requires i <= |ws|
    ensures var found := Scan(ws, i, tunnel, now, stale).1;
            && (found.None? <==> forall j | i <= j < |ws| :: !Fit(ws[j], tunnel, now, stale))
            && (found.Some? ==>
                  && i <= found.value < |ws| && Fit(ws[found.value], tunnel, now, stale)
                  && forall j | i <= j < found.value :: !Fit(ws[j], tunnel, now, stale))
    decreases |ws| - i
  {
    if i < |ws| {
      if !ws[i].listed {
        FindsFirstFit(ws, i + 1, tunnel, now, stale);
      } else {
        var w := if ws[i].alive && now - ws[i].lastSeen > stale then ws[i].(alive := false) else ws[i];
        var vs := ws[i := w];
        FindsFirstFit(vs, i + 1, tunnel, now, stale);
        assert forall j | i < j < |ws| :: vs[j] == ws[j];
      }
    }
  }

  lemma {:induction false} SettledGrows(run: seq<Hub>, acts: seq<Action>, m: nat, n: nat, k: nat)
    requires IsTrace(run, acts) && m <= n < |run|
    ensures SettledAt(run[m], k) <= SettledAt(run[n], k)
    decreases n - m
  {
    if m < n {
      SettledGrows(run, acts, m, n - 1, k);
      SettledStep(run[n - 1], acts[n - 1], k);
    }
  }

  lemma SettledStep(h: Hub, a: Action, k: nat)
    requires Can(h, a)
    ensures SettledAt(h, k) <= SettledAt(Do(h, a), k)
  {
    if k < |h.controllers| && !MovedBy(a, k) { OthersRest(h, a, k); }
  }

  /** Jobs of one controller are decided in the order asked, each by a step of its own, and each is
      handed over after the one before was decided. */
  lemma DecidedInOrder(run: seq<Hub>, acts: seq<Action>, b: nat, c: nat, k: nat, i: nat, j: nat,
      job: Job, o: Outcome, next: Job, p: Outcome)
    requires IsTrace(run, acts) && b < |acts| && c < |acts| && i < j
    requires Decides(run, acts, b, k, i, job, o) && Decides(run, acts, c, k, j, next, p)
    ensures b < c
    ensures forall a, w: nat, since: nat | 0 <= a < c && OpenFrom(run, acts, a, c, k, next, w, since) :: b < a
  {
    if c <= b { SettledGrows(run, acts, c, b, k); }
    forall a, w: nat, since: nat | 0 <= a < c && OpenFrom(run, acts, a, c, k, next, w, since) ensures b < a {
      if a <= b { SettledGrows(run, acts, a, b, k); }
    }
  }

  /** Correlation, for every interleaving. The i-th reply answers the i-th job under its id, and a step b
      of the run decides it, a step of its own (DecidedInOrder). Relayed: the controller took the message
      pending for the job in step b, it was in one request to worker w ever since step a handed the job to
      w, and in a step before that w was the first worker of the job's tunnel that was listed, alive and heard
      from in time; the message is the first about the job that w dispatched after the hand-over.
      Timed out: step b is the timeout of such a request, and w dispatched nothing about the job between a
      and b. Not sent: the sending of such a request failed in step b. No worker: at step b no worker of the tunnel was listed, alive and heard from in time. */
  lemma RepliesCorrelate(run: seq<Hub>, acts: seq<Action>, n: nat, k: nat, i: nat)
    requires IsTrace(run, acts) && n < |run| && k < |run[n].controllers| && i < |run[n].controllers[k].replies|
    ensures i < |run[n].controllers[k].asked|
    ensures var ws, job, r := run[n].workers, run[n].controllers[k].asked[i], run[n].controllers[k].replies[i];
            && r.job == job && ReplyOf(r).job == job.id
            && (exists b :: 0 <= b < n && Decides(run, acts, b, k, i, job, r.outcome)
                            && (r.outcome.NoWorker? ==> forall w | w in run[b].workers :: !Fit(w, job.tunnel, acts[b].now, run[b].stale)))
            && (r.outcome.Got? ==>
                  && r.outcome.w < |ws| && job.tunnel in ws[r.outcome.w].tunnels && r.outcome.since <= |ws[r.outcome.w].heard|
                  && FirstFor(ws[r.outcome.w].heard[r.outcome.since..], job.id) == Some(ReplyOf(r)))
            && (r.outcome.TimedOut? ==>
                  && r.outcome.w < |ws| && job.tunnel in ws[r.outcome.w].tunnels
                  && r.outcome.since <= r.outcome.until <= |ws[r.outcome.w].heard|
                  && FirstFor(ws[r.outcome.w].heard[r.outcome.since..r.outcome.until], job.id).None?)
  {
    RepliesMatch(run, acts, n, k, i);
    TraceOk(run, acts, n);
    TraceCame(run, acts, n, k);
    var c := run[n].controllers[k];
    assert HistoryOk(run[n].workers, c);
    assert c.replies[i] == c.settled[i] && c.settled[i].job == c.asked[i];
    var job, o := c.asked[i], c.replies[i].outcome;
    assert Ended(run, acts, n, k, i, job, o);
    var b :| 0 <= b < n && Decides(run, acts, b, k, i, job, o);
    if o.NoWorker? { FindsFirstFit(run[b].workers, 0, job.tunnel, acts[b].now, run[b].stale); }
  }
}
