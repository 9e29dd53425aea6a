/** Correlation, conservation and exclusion in every reachable state of the bridge. */
module BridgeProofs {
  import opened Records
  import opened Bridge

  // -------------------------------------------------------------- invariant

  lemma {:induction false} FirstForGrows(ms: seq<Message>, m: Message, job: Id)
    ensures FirstFor(ms + [m], job)
            == if FirstFor(ms, job).Some? then FirstFor(ms, job) else if m.job == job then Some(m) else None
  {
    if ms == [] {
      assert (ms + [m])[1..] == [];
    } else {
      assert (ms + [m])[1..] == ms[1..] + [m];
      FirstForGrows(ms[1..], m, job);
    }
  }

  /** An outcome tells the truth about what its worker has dispatched. */
  predicate OutcomeOk(ws: seq<Worker>, job: Job, o: Outcome) {
    match o
    case Got(m, w, since) =>
      && w < |ws| && since <= |ws[w].heard| && job.tunnel in ws[w].tunnels
      && FirstFor(ws[w].heard[since..], job.id) == Some(m)
    case TimedOut(w, since, until) =>
      && w < |ws| && since <= until <= |ws[w].heard| && job.tunnel in ws[w].tunnels
      && FirstFor(ws[w].heard[since..until], job.id).None?
    case _ => true
  }

  predicate Serves(ws: seq<Worker>, w: nat, job: Job) { w < |ws| && job.tunnel in ws[w].tunnels }

  predicate Busy(pc: Pc) {
    !pc.Idle? && !pc.Clearing? && !pc.Replying? && !pc.Gone?
  }

  /** A controller's position against its worker. */
  predicate PcOk(ws: seq<Worker>, pc: Pc) {
    match pc
    case Starting(job, w) => Serves(ws, w, job)
    case Checking(job, w) => Serves(ws, w, job)
    case Locking(job, w) => Serves(ws, w, job)
    case Sending(job, w, since) =>
      && Serves(ws, w, job) && since <= |ws[w].heard|
      && ws[w].pending == map[job.id := FirstFor(ws[w].heard[since..], job.id)]
    case Waiting(job, w, since) =>
      && Serves(ws, w, job) && since <= |ws[w].heard|
      && ws[w].pending == map[job.id := FirstFor(ws[w].heard[since..], job.id)]
    case Unwinding(job, w, o) =>
      Serves(ws, w, job) && ws[w].pending.Keys == {job.id} && OutcomeOk(ws, job, o)
    case Recording(job, o) => OutcomeOk(ws, job, o)
    case _ => true
  }

  /** A controller's books: jobs asked, settled and answered line up. */
  predicate HistoryOk(ws: seq<Worker>, c: Controller) {
    && c.replies <= c.settled
    && |c.settled| <= |c.asked|
    && (forall i | 0 <= i < |c.settled| :: c.settled[i].job == c.asked[i] && OutcomeOk(ws, c.asked[i], c.settled[i].outcome))
    && (Busy(c.pc) ==> c.replies == c.settled && |c.asked| == |c.settled| + 1 && c.asked[|c.settled|] == c.pc.job)
    && (c.pc.Idle? ==> c.replies == c.settled && |c.asked| == |c.settled|)
    && (c.pc.Clearing? || c.pc.Replying? ==>
          |c.asked| == |c.settled| && c.settled == c.replies + [Answer(c.pc.job, c.pc.outcome)])
    && (c.pc.Gone? ==> |c.asked| == |c.settled| && |c.settled| <= |c.replies| + 1)
  }

  ghost predicate Inv(h: Hub) {
    && (forall k | 0 <= k < |h.controllers| ::
          PcOk(h.workers, h.controllers[k].pc) && HistoryOk(h.workers, h.controllers[k]))
    && (forall j, k, w | 0 <= j < |h.controllers| && 0 <= k < |h.controllers| && j != k ::
          !(Holds(h.controllers[j].pc, w) && Holds(h.controllers[k].pc, w)))
    && (forall w | 0 <= w < |h.workers| && LockFree(h, w) :: h.workers[w].pending == map[])
  }

  /** Workers stay, keep their tunnels, and only add to what they have dispatched. */
  ghost predicate WorkersGrow(a: seq<Worker>, b: seq<Worker>) {
    && |a| <= |b|
    && forall w | 0 <= w < |a| :: b[w].tunnels == a[w].tunnels && a[w].heard <= b[w].heard
  }

  lemma OutcomeStays(a: seq<Worker>, b: seq<Worker>, job: Job, o: Outcome)
    requires WorkersGrow(a, b) && OutcomeOk(a, job, o)
    ensures OutcomeOk(b, job, o)
  {
    match o
    case Got(m, w, since) => FirstForPrefix(a[w].heard[since..], b[w].heard[since..], job.id);
    case TimedOut(w, since, until) => assert b[w].heard[since..until] == a[w].heard[since..until];
    case _ =>
  }

  lemma {:induction false} FirstForPrefix(a: seq<Message>, b: seq<Message>, job: Id)
    requires a <= b && FirstFor(a, job).Some?
    ensures FirstFor(b, job) == FirstFor(a, job)
  {
    if a[0].job != job {
      assert a[1..] <= b[1..];
      FirstForPrefix(a[1..], b[1..], job);
    }
  }

  /** Only a hearing touches a pending queue from outside the lock. */
  ghost predicate SamePending(a: seq<Worker>, b: seq<Worker>, w: nat) {
    && w < |a| && w < |b|
    && b[w].pending == a[w].pending && b[w].heard == a[w].heard
  }

  lemma PcStays(a: seq<Worker>, b: seq<Worker>, pc: Pc)
    requires WorkersGrow(a, b) && PcOk(a, pc)
    requires forall w: nat | Holds(pc, w) :: SamePending(a, b, w)
    ensures PcOk(b, pc)
  {
    match pc
    case Unwinding(job, w, o) =>
      assert Holds(pc, w);
      OutcomeStays(a, b, job, o);
    case Recording(job, o) => OutcomeStays(a, b, job, o);
    case Sending(job, w, since) => assert Holds(pc, w);
    case Waiting(job, w, since) => assert Holds(pc, w);
    case _ =>
  }

  lemma HistoryStays(a: seq<Worker>, b: seq<Worker>, c: Controller)
    requires WorkersGrow(a, b) && HistoryOk(a, c)
    ensures HistoryOk(b, c)
  {
    forall i | 0 <= i < |c.settled| ensures OutcomeOk(b, c.asked[i], c.settled[i].outcome) {
      OutcomeStays(a, b, c.asked[i], c.settled[i].outcome);
    }
  }

  // ---------------------------------------------------- steps of the browsers

  /** A step that changes at most worker flags and times. */
  lemma QuietStep(h: Hub, g: Hub)
    requires Inv(h) && g.controllers == h.controllers && WorkersGrow(h.workers, g.workers)
    requires forall w | 0 <= w < |h.workers| :: SamePending(h.workers, g.workers, w)
    requires forall w | |h.workers| <= w < |g.workers| :: g.workers[w].pending == map[]
    ensures Inv(g)
  {
    forall k | 0 <= k < |g.controllers|
      ensures PcOk(g.workers, g.controllers[k].pc) && HistoryOk(g.workers, g.controllers[k])
    {
      PcStays(h.workers, g.workers, h.controllers[k].pc);
      HistoryStays(h.workers, g.workers, h.controllers[k]);
    }
    forall w | 0 <= w < |g.workers| && LockFree(g, w) ensures g.workers[w].pending == map[] {
      if w < |h.workers| { assert LockFree(h, w) && SamePending(h.workers, g.workers, w); }
    }
  }

  /** A worker that has dispatched one more message. */
  function Heard(v: Worker, m: Message, now: Time): Worker {
    v.(lastSeen := now, pending := Dispatched(v.pending, m), heard := v.heard + [m])
  }

  /** Hearing a message: the pending queue of the worker follows FirstFor. */
  lemma HeardPending(v: Worker, m: Message, now: Time, job: Id, since: nat)
    requires since <= |v.heard| && v.pending == map[job := FirstFor(v.heard[since..], job)]
    ensures since <= |Heard(v, m, now).heard|
    ensures Heard(v, m, now).pending == map[job := FirstFor(Heard(v, m, now).heard[since..], job)]
  {
    assert (v.heard + [m])[since..] == v.heard[since..] + [m];
    FirstForGrows(v.heard[since..], m, job);
  }

  lemma HeardPc(ws: seq<Worker>, w: nat, m: Message, now: Time, pc: Pc)
    requires w < |ws| && PcOk(ws, pc)
    ensures PcOk(ws[w := Heard(ws[w], m, now)], pc)
  {
    var ws' := ws[w := Heard(ws[w], m, now)];
    assert WorkersGrow(ws, ws');
    match pc
    case Sending(job, x, since) => if x == w { HeardPending(ws[w], m, now, job.id, since); }
    case Waiting(job, x, since) => if x == w { HeardPending(ws[w], m, now, job.id, since); }
    case Unwinding(job, _, o) => OutcomeStays(ws, ws', job, o);
    case Recording(job, o) => OutcomeStays(ws, ws', job, o);
    case _ =>
  }

  lemma HearKept(h: Hub, w: nat, m: Message, now: Time)
    requires Inv(h) && Can(h, Hear(w, m, now))
    ensures Inv(Do(h, Hear(w, m, now)))
  {
    var g := Do(h, Hear(w, m, now));
    assert WorkersGrow(h.workers, g.workers);
    forall k | 0 <= k < |g.controllers|
      ensures PcOk(g.workers, g.controllers[k].pc) && HistoryOk(g.workers, g.controllers[k])
    {
      HeardPc(h.workers, w, m, now, h.controllers[k].pc);
      HistoryStays(h.workers, g.workers, h.controllers[k]);
    }
    forall x | 0 <= x < |g.workers| && LockFree(g, x) ensures g.workers[x].pending == map[] {
      assert LockFree(h, x);
    }
  }

  // ------------------------------------------------- steps of the controllers

  lemma {:induction false} ScanKeeps(ws: seq<Worker>, i: nat, tunnel: Id, now: Time, stale: Time)
    requires i <= |ws|
    ensures var r := Scan(ws, i, tunnel, now, stale);
            && (forall w | 0 <= w < |ws| :: r.0[w] == ws[w] || r.0[w] == ws[w].(alive := false))
            && (r.1.Some? ==> r.1.value < |ws| && tunnel in ws[r.1.value].tunnels)
    decreases |ws| - i
  {
    if i < |ws| && ws[i].listed {
      var w := if ws[i].alive && now - ws[i].lastSeen > stale then ws[i].(alive := false) else ws[i];
      if !(w.alive && tunnel in w.tunnels) { ScanKeeps(ws[i := w], i + 1, tunnel, now, stale); }
    } else if i < |ws| {
      ScanKeeps(ws, i + 1, tunnel, now, stale);
    }
  }

  /** A step of controller k from h to g. */
  ghost predicate StepOf(h: Hub, g: Hub, k: nat) {
    && Inv(h) && k < |h.controllers| == |g.controllers|
    && g.controllers == h.controllers[k := g.controllers[k]]
    && |g.workers| == |h.workers| && WorkersGrow(h.workers, g.workers)
  }

  /** What remains to check when one controller has moved. */
  lemma ControllerStep(h: Hub, g: Hub, k: nat)
    requires StepOf(h, g, k)
    requires PcOk(g.workers, g.controllers[k].pc) && HistoryOk(g.workers, g.controllers[k])
    requires forall w: nat | Holds(g.controllers[k].pc, w) :: Holds(h.controllers[k].pc, w) || LockFree(h, w)
    requires forall w: nat | w < |h.workers| && !Holds(g.controllers[k].pc, w) ::
               SamePending(h.workers, g.workers, w) || (Holds(h.controllers[k].pc, w) && g.workers[w].pending == map[])
    requires forall w: nat | Holds(h.controllers[k].pc, w) && !Holds(g.controllers[k].pc, w) && w < |g.workers| ::
               g.workers[w].pending == map[]
    ensures Inv(g)
  {
    forall j | 0 <= j < |g.controllers|
      ensures PcOk(g.workers, g.controllers[j].pc) && HistoryOk(g.workers, g.controllers[j])
    {
      if j != k {
        var pc := h.controllers[j].pc;
        forall w: nat | Holds(pc, w) ensures SamePending(h.workers, g.workers, w) {
          assert !Holds(h.controllers[k].pc, w) && !LockFree(h, w);
          assert PcOk(h.workers, pc);
        }
        PcStays(h.workers, g.workers, pc);
        HistoryStays(h.workers, g.workers, h.controllers[j]);
      }
    }
    forall w | 0 <= w < |g.workers| && LockFree(g, w) ensures g.workers[w].pending == map[] {
      assert !Holds(g.controllers[k].pc, w);
      if Holds(h.controllers[k].pc, w) {
      } else {
        assert LockFree(h, w) by {
          forall j | 0 <= j < |h.controllers| ensures !Holds(h.controllers[j].pc, w) {
            if j != k { assert g.controllers[j] == h.controllers[j]; }
          }
        }
      }
    }
  }

  /** Where the mover stands next, and what it has left of its worker's queue. */
  ghost predicate MoverOk(h: Hub, g: Hub, k: nat)
    requires k < |h.controllers| == |g.controllers|
  {
    var pc, pc' := h.controllers[k].pc, g.controllers[k].pc;
    && |g.workers| == |h.workers| && WorkersGrow(h.workers, g.workers)
    && PcOk(g.workers, pc')
    && (forall w: nat | Holds(pc', w) :: Holds(pc, w) || LockFree(h, w))
    && (forall w: nat | w < |h.workers| && !Holds(pc', w) ::
          SamePending(h.workers, g.workers, w) || (Holds(pc, w) && g.workers[w].pending == map[]))
    && (forall w: nat | Holds(pc, w) && !Holds(pc', w) && w < |g.workers| :: g.workers[w].pending == map[])
  }

  lemma LookPc(h: Hub, k: nat, now: Time, ok: bool)
    requires Inv(h) && Can(h, Advance(k, now, ok)) && h.controllers[k].pc.Looking?
    ensures MoverOk(h, Do(h, Advance(k, now, ok)), k)
  {
    var g := Do(h, Advance(k, now, ok));
    ScanKeeps(h.workers, 0, h.controllers[k].pc.job.tunnel, now, h.stale);
    forall w: nat | w < |h.workers|
      ensures SamePending(h.workers, g.workers, w) && h.workers[w].tunnels == g.workers[w].tunnels
    {
      assert g.workers[w] == h.workers[w] || g.workers[w] == h.workers[w].(alive := false);
    }
  }

  /** Only the mover's worker changed. */
  lemma OthersSame(h: Hub, g: Hub, x: nat)
    requires |g.workers| == |h.workers| && x < |h.workers| && g.workers == h.workers[x := g.workers[x]]
    ensures forall w: nat | w < |h.workers| && w != x :: SamePending(h.workers, g.workers, w)
  {
  }

  lemma LockPc(h: Hub, k: nat, now: Time, ok: bool)
    requires Inv(h) && Can(h, Advance(k, now, ok)) && h.controllers[k].pc.Locking?
    ensures MoverOk(h, Do(h, Advance(k, now, ok)), k)
  {
    var pc := h.controllers[k].pc;
    var g := Do(h, Advance(k, now, ok));
    var v := h.workers[pc.w];
    assert PcOk(h.workers, pc);
    OthersSame(h, g, pc.w);
    assert LockFree(h, pc.w) && v.pending == map[];
    assert v.heard[|v.heard|..] == [];
  }

  lemma SendPc(h: Hub, k: nat, now: Time, ok: bool)
    requires Inv(h) && Can(h, Advance(k, now, ok)) && h.controllers[k].pc.Sending?
    ensures MoverOk(h, Do(h, Advance(k, now, ok)), k)
  {
    var pc := h.controllers[k].pc;
    var g := Do(h, Advance(k, now, ok));
    assert PcOk(h.workers, pc);
    if g.workers != h.workers { OthersSame(h, g, pc.w); }
    assert SamePending(h.workers, g.workers, pc.w);
    assert Holds(pc, pc.w);
  }

  lemma WaitPc(h: Hub, k: nat, now: Time, ok: bool)
    requires Inv(h) && Can(h, Advance(k, now, ok)) && h.controllers[k].pc.Waiting?
    ensures MoverOk(h, Do(h, Advance(k, now, ok)), k)
  {
    var pc := h.controllers[k].pc;
    var g := Do(h, Advance(k, now, ok));
    assert PcOk(h.workers, pc);
    if g.workers != h.workers { OthersSame(h, g, pc.w); }
    assert SamePending(h.workers, g.workers, pc.w);
    assert Holds(pc, pc.w);
  }

  lemma UnwindPc(h: Hub, k: nat, now: Time, ok: bool)
    requires Inv(h) && Can(h, Advance(k, now, ok)) && h.controllers[k].pc.Unwinding?
    ensures MoverOk(h, Do(h, Advance(k, now, ok)), k)
  {
    var pc := h.controllers[k].pc;
    var g := Do(h, Advance(k, now, ok));
    assert PcOk(h.workers, pc);
    OthersSame(h, g, pc.w);
    assert h.workers[pc.w].pending - {pc.job.id} == map[];
    assert WorkersGrow(h.workers, g.workers);
    OutcomeStays(h.workers, g.workers, pc.job, pc.outcome);
    assert Holds(pc, pc.w);
  }

  lemma OtherPc(h: Hub, k: nat, now: Time, ok: bool)
    requires Inv(h) && Can(h, Advance(k, now, ok))
    requires var pc := h.controllers[k].pc;
             pc.Rejecting? || pc.Starting? || pc.Checking? || pc.Recording? || pc.Clearing? || pc.Replying?
    ensures MoverOk(h, Do(h, Advance(k, now, ok)), k)
  {
    var g := Do(h, Advance(k, now, ok));
    assert PcOk(h.workers, h.controllers[k].pc);
    assert g.workers == h.workers;
    forall w: nat | w < |h.workers| ensures SamePending(h.workers, g.workers, w) {}
  }

  lemma AdvancePc(h: Hub, k: nat, now: Time, ok: bool)
    requires Inv(h) && Can(h, Advance(k, now, ok))
    ensures MoverOk(h, Do(h, Advance(k, now, ok)), k)
  {
    var pc := h.controllers[k].pc;
    if pc.Looking? {
      LookPc(h, k, now, ok);
    } else if pc.Locking? {
      LockPc(h, k, now, ok);
    } else if pc.Sending? {
      SendPc(h, k, now, ok);
    } else if pc.Waiting? {
      WaitPc(h, k, now, ok);
    } else if pc.Unwinding? {
      UnwindPc(h, k, now, ok);
    } else {
      OtherPc(h, k, now, ok);
    }
  }

  lemma RecordHistory(h: Hub, k: nat, now: Time, ok: bool)
    requires Inv(h) && Can(h, Advance(k, now, ok)) && h.controllers[k].pc.Recording?
    requires WorkersGrow(h.workers, Do(h, Advance(k, now, ok)).workers)
    ensures HistoryOk(Do(h, Advance(k, now, ok)).workers, Do(h, Advance(k, now, ok)).controllers[k])
  {
    var g, c := Do(h, Advance(k, now, ok)), h.controllers[k];
    assert PcOk(h.workers, c.pc) && HistoryOk(h.workers, c);
    HistoryStays(h.workers, g.workers, c);
    OutcomeStays(h.workers, g.workers, c.pc.job, c.pc.outcome);
  }

  lemma AdvanceHistory(h: Hub, k: nat, now: Time, ok: bool)
    requires Inv(h) && Can(h, Advance(k, now, ok)) && !h.controllers[k].pc.Recording?
    requires WorkersGrow(h.workers, Do(h, Advance(k, now, ok)).workers)
    ensures HistoryOk(Do(h, Advance(k, now, ok)).workers, Do(h, Advance(k, now, ok)).controllers[k])
  {
    var g, c := Do(h, Advance(k, now, ok)), h.controllers[k];
    assert PcOk(h.workers, c.pc) && HistoryOk(h.workers, c);
    HistoryStays(h.workers, g.workers, c);
  }

  lemma AdvanceKept(h: Hub, k: nat, now: Time, ok: bool)
    requires Inv(h) && Can(h, Advance(k, now, ok))
    ensures Inv(Do(h, Advance(k, now, ok)))
  {
    AdvancePc(h, k, now, ok);
    if h.controllers[k].pc.Recording? { RecordHistory(h, k, now, ok); } else { AdvanceHistory(h, k, now, ok); }
    ControllerStep(h, Do(h, Advance(k, now, ok)), k);
  }

  lemma TimeOutKept(h: Hub, k: nat)
    requires Inv(h) && Can(h, TimeOut(k))
    ensures Inv(Do(h, TimeOut(k)))
  {
    var g := Do(h, TimeOut(k));
    var c := h.controllers[k];
    assert PcOk(h.workers, c.pc) && HistoryOk(h.workers, c);
    HistoryStays(h.workers, g.workers, c);
    var v := h.workers[c.pc.w];
    assert v.heard[c.pc.since..|v.heard|] == v.heard[c.pc.since..];
    ControllerStep(h, g, k);
  }

  lemma AskKept(h: Hub, k: nat, job: Job)
    requires Inv(h) && Can(h, Ask(k, job))
    ensures Inv(Do(h, Ask(k, job)))
  {
    ControllerStep(h, Do(h, Ask(k, job)), k);
  }

  lemma VanishKept(h: Hub, k: nat)
    requires Inv(h) && Can(h, Vanish(k))
    ensures Inv(Do(h, Vanish(k)))
  {
    ControllerStep(h, Do(h, Vanish(k)), k);
  }

  lemma QuietKept(h: Hub, a: Action)
    requires Inv(h) && Can(h, a) && (a.Register? || a.HearProgress? || a.Heartbeat? || a.Disconnect? || a.Snapshot?)
    ensures Inv(Do(h, a))
  {
    QuietStep(h, Do(h, a));
  }

  lemma ProbeKept(h: Hub, k: nat, tunnel: Id, now: Time)
    requires Inv(h) && Can(h, Probe(k, tunnel, now))
    ensures Inv(Do(h, Probe(k, tunnel, now)))
  {
    ScanKeeps(h.workers, 0, tunnel, now, h.stale);
    var g := Do(h, Probe(k, tunnel, now));
    forall w | 0 <= w < |h.workers|
      ensures SamePending(h.workers, g.workers, w) && h.workers[w].tunnels == g.workers[w].tunnels
              && h.workers[w].heard <= g.workers[w].heard
    {
      assert g.workers[w] == h.workers[w] || g.workers[w] == h.workers[w].(alive := false);
    }
    QuietStep(h, g);
  }

  lemma StepKept(h: Hub, a: Action)
    requires Inv(h) && Can(h, a)
    ensures Inv(Do(h, a))
  {
    match a
    case Hear(w, m, now) => HearKept(h, w, m, now);
    case Advance(k, now, ok) => AdvanceKept(h, k, now, ok);
    case TimeOut(k) => TimeOutKept(h, k);
    case Probe(k, tunnel, now) => ProbeKept(h, k, tunnel, now);
    case Ask(k, job) => AskKept(h, k, job);
    case Vanish(k) => VanishKept(h, k);
    case _ => QuietKept(h, a);
  }

  lemma {:induction false} TraceOk(run: seq<Hub>, acts: seq<Action>, n: nat)
    requires IsTrace(run, acts) && n < |run|
    ensures Inv(run[n])
  {
    if n > 0 {
      TraceOk(run, acts, n - 1);
      StepKept(run[n - 1], acts[n - 1]);
    }
  }

  // ------------------------------------------------------------ correlation

  /** What a state says of each reply: it answers the job at the same place, under its id; `since` and
      `until` are places in what the worker has dispatched, and the message is the first from there on. */
  lemma RepliesMatch(run: seq<Hub>, acts: seq<Action>, n: nat, k: nat, i: nat)
    requires IsTrace(run, acts) && n < |run| && k < |run[n].controllers| && i < |run[n].controllers[k].replies|
    ensures i < |run[n].controllers[k].asked|
    ensures var job, a := run[n].controllers[k].asked[i], run[n].controllers[k].replies[i];
            && a.job == job
            && ReplyOf(a).job == job.id
            && (a.outcome.Got? ==>
                  && a.outcome.w < |run[n].workers| && job.tunnel in run[n].workers[a.outcome.w].tunnels
                  && a.outcome.since <= |run[n].workers[a.outcome.w].heard|
                  && FirstFor(run[n].workers[a.outcome.w].heard[a.outcome.since..], job.id) == Some(ReplyOf(a)))
            && (a.outcome.TimedOut? ==>
                  && a.outcome.w < |run[n].workers|
                  && a.outcome.since <= a.outcome.until <= |run[n].workers[a.outcome.w].heard|
                  && FirstFor(run[n].workers[a.outcome.w].heard[a.outcome.since..a.outcome.until], job.id).None?)
  {
    TraceOk(run, acts, n);
    var c := run[n].controllers[k];
    assert HistoryOk(run[n].workers, c);
    assert c.replies[i] == c.settled[i];
    if c.replies[i].outcome.Got? { FirstForJob(run[n].workers[c.replies[i].outcome.w].heard[c.replies[i].outcome.since..], c.asked[i].id); }
  }

  lemma {:induction false} FirstForJob(ms: seq<Message>, job: Id)
    ensures FirstFor(ms, job).Some? ==> FirstFor(ms, job).value.job == job && FirstFor(ms, job).value in ms
  {
    if ms != [] { FirstForJob(ms[1..], job); }
  }

  /** An idle controller has answered everything it was asked. */
  lemma IdleHasAnswered(run: seq<Hub>, acts: seq<Action>, n: nat, k: nat)
    requires IsTrace(run, acts) && n < |run| && k < |run[n].controllers| && run[n].controllers[k].pc.Idle?
    ensures |run[n].controllers[k].replies| == |run[n].controllers[k].asked|
  {
    TraceOk(run, acts, n);
    assert HistoryOk(run[n].workers, run[n].controllers[k]);
  }

  /** A worker has at most one pending job: that of the controller holding its request lock. */
  lemma OnePending(run: seq<Hub>, acts: seq<Action>, n: nat, w: nat)
    requires IsTrace(run, acts) && n < |run| && w < |run[n].workers|
    ensures |run[n].workers[w].pending| <= 1
    ensures forall j | j in run[n].workers[w].pending ::
              exists k :: 0 <= k < |run[n].controllers| && Holds(run[n].controllers[k].pc, w) && run[n].controllers[k].pc.job.id == j
  {
    TraceOk(run, acts, n);
    var h := run[n];
    if LockFree(h, w) {
      assert h.workers[w].pending == map[];
    } else {
      var k :| 0 <= k < |h.controllers| && Holds(h.controllers[k].pc, w);
      assert PcOk(h.workers, h.controllers[k].pc);
      var id := h.controllers[k].pc.job.id;
      assert h.workers[w].pending.Keys == {id};
      assert |h.workers[w].pending| == |h.workers[w].pending.Keys|;
    }
  }

  /** A reply dispatched before the timeout step is never lost: the timeout is not possible then. */
  lemma ReplyBeatsTimeout(run: seq<Hub>, acts: seq<Action>, n: nat, k: nat, i: nat)
    requires IsTrace(run, acts) && n < |run| && k < |run[n].controllers| && run[n].controllers[k].pc.Waiting?
    requires var pc := run[n].controllers[k].pc;
             pc.w < |run[n].workers| && pc.since <= i < |run[n].workers[pc.w].heard|
             && run[n].workers[pc.w].heard[i].job == pc.job.id
    ensures !Can(run[n], TimeOut(k)) && forall now, ok :: Can(run[n], Advance(k, now, ok))
  {
    TraceOk(run, acts, n);
    var pc := run[n].controllers[k].pc;
    assert PcOk(run[n].workers, pc);
    var ms := run[n].workers[pc.w].heard[pc.since..];
    assert ms[i - pc.since].job == pc.job.id;
    FirstForFinds(ms, pc.job.id, i - pc.since);
  }

  lemma {:induction false} FirstForFinds(ms: seq<Message>, job: Id, i: nat)
    requires i < |ms| && ms[i].job == job
    ensures FirstFor(ms, job).Some?
  {
    if ms[0].job != job { FirstForFinds(ms[1..], job, i - 1); }
  }
}
