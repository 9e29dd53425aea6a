/** bridge/server.py as a step machine: controller sessions, browser sessions and the hub they
    meet in. Every step is what one thread does between two points where another may run. */
module Bridge {
  import opened Records
  import Progress

  /** What a browser sends for a job. */
  datatype Message = JobResult(job: Id, body: Id) | JobError(job: Id, body: Id)

  /** `heard` is everything the browser session has dispatched, `raised` counts failed sends. */
  datatype Worker = Worker(
    tunnels: set<Id>,
    listed: bool,
    alive: bool,
    lastSeen: Time,
    pending: map<Id, Option<Message>>,
    started: nat,
    succeeded: nat,
    failed: nat,
    raised: nat,
    heard: seq<Message>)

  datatype Job = Job(id: Id, tunnel: Id, timeoutOk: bool)

  /** How a job ended; positions are in the worker's `heard`. */
  datatype Outcome =
    | NoWorker
    | BadTimeout
    | SendRaised
    | TimedOut(w: nat, since: nat, until: nat)
    | Got(message: Message, w: nat, since: nat)

  datatype Answer = Answer(job: Job, outcome: Outcome)

  /** Where a controller session stands. */
  datatype Pc =
    | Idle
    | Looking(job: Job)
    | Rejecting(job: Job)
    | Starting(job: Job, w: nat)
    | Checking(job: Job, w: nat)
    | Locking(job: Job, w: nat)
    | Sending(job: Job, w: nat, since: nat)
    | Waiting(job: Job, w: nat, since: nat)
    | Unwinding(job: Job, w: nat, outcome: Outcome)
    | Recording(job: Job, outcome: Outcome)
    | Clearing(job: Job, outcome: Outcome)
    | Replying(job: Job, outcome: Outcome)
    | Gone

  /** `asked` are the jobs received, `settled` the ones counted by the hub, `replies` those answered. */
  datatype Controller = Controller(pc: Pc, asked: seq<Job>, settled: seq<Answer>, replies: seq<Answer>)

  /** `stale` is how long a worker may be silent; the server's default is 45 seconds. */
  datatype Hub = Hub(
    workers: seq<Worker>,
    controllers: seq<Controller>,
    started: nat,
    succeeded: nat,
    failed: nat,
    rejected: nat,
    progress: Progress.Table,
    stale: Time)

  const CAP: nat := 200

  // -------------------------------------------------------------- functions

  /** `dispatch`: the first message for a pending job is kept, anything else is dropped. */
  function Dispatched(pending: map<Id, Option<Message>>, m: Message): map<Id, Option<Message>> {
    if m.job in pending && pending[m.job].None? then pending[m.job := Some(m)] else pending
  }

  /** `worker_for`, from the i-th worker on: marks the stale ones it passes and stops at the first
      one that is alive and serves the tunnel. */
  function Scan(ws: seq<Worker>, i: nat, tunnel: Id, now: Time, stale: Time): (r: (seq<Worker>, Option<nat>))
    requires i <= |ws|
    ensures |r.0| == |ws|
    decreases |ws| - i
  {
    if i == |ws| then (ws, None)
    else if !ws[i].listed then Scan(ws, i + 1, tunnel, now, stale)
    else
      var w := if ws[i].alive && now - ws[i].lastSeen > stale then ws[i].(alive := false) else ws[i];
      if w.alive && tunnel in w.tunnels then (ws[i := w], Some(i))
      else Scan(ws[i := w], i + 1, tunnel, now, stale)
  }

  /** The first message for a job. */
  function FirstFor(ms: seq<Message>, job: Id): Option<Message> {
    if ms == [] then None else if ms[0].job == job then Some(ms[0]) else FirstFor(ms[1..], job)
  }

  predicate IsSuccess(o: Outcome) { o.Got? && o.message.JobResult? }

  /** The message a controller gets for an answer. */
  function ReplyOf(a: Answer): Message {
    if a.outcome.Got? then a.outcome.message else JobError(a.job.id, 0)
  }

  /** The request lock of a worker is held from `Sending` to `Unwinding`. */
  predicate Holds(pc: Pc, w: nat) {
    (pc.Sending? || pc.Waiting? || pc.Unwinding?) && pc.w == w
  }

  // ------------------------------------------------------------------ steps

  datatype Action =
    | Register(tunnels: set<Id>, now: Time)
    | Hear(w: nat, message: Message, now: Time)
    | HearProgress(w: nat, job: Id, text: Id, now: Time, clock: Time)
    | Heartbeat(w: nat, now: Time)
    | Disconnect(w: nat)
    | Snapshot(now: Time)
    | Probe(k: nat, tunnel: Id, now: Time)
    | Ask(k: nat, request: Job)
    | Advance(k: nat, now: Time, ok: bool)
    | TimeOut(k: nat)
    | Vanish(k: nat)

  /** `snapshot` and `stats` mark every stale worker. */
  function MarkStale(ws: seq<Worker>, now: Time, stale: Time): (r: seq<Worker>)
    ensures |r| == |ws|
    ensures forall i | 0 <= i < |ws| ::
              r[i] == if ws[i].listed && ws[i].alive && now - ws[i].lastSeen > stale then ws[i].(alive := false) else ws[i]
  {
    seq(|ws|, i requires 0 <= i < |ws| =>
      if ws[i].listed && ws[i].alive && now - ws[i].lastSeen > stale then ws[i].(alive := false) else ws[i])
  }

  predicate LockFree(h: Hub, w: nat) {
    forall j | 0 <= j < |h.controllers| :: !Holds(h.controllers[j].pc, w)
  }

  predicate Can(h: Hub, a: Action) {
    match a
    case Register(tunnels, _) => tunnels != {}
    case Hear(w, _, _) => w < |h.workers| && h.workers[w].listed
    case HearProgress(w, _, _, _, _) => w < |h.workers| && h.workers[w].listed
    case Heartbeat(w, _) => w < |h.workers| && h.workers[w].listed
    case Disconnect(w) => w < |h.workers| && h.workers[w].listed
    case Snapshot(_) => true
    case Probe(k, _, _) => k < |h.controllers| && h.controllers[k].pc.Idle?
    case Ask(k, _) => k < |h.controllers| && h.controllers[k].pc.Idle?
    case Advance(k, _, _) =>
      && k < |h.controllers|
      && var pc := h.controllers[k].pc;
         && !pc.Idle? && !pc.Gone?
         && (pc.Locking? ==> pc.w < |h.workers| && LockFree(h, pc.w))
         && (pc.Starting? || pc.Checking? || pc.Sending? || pc.Unwinding? ==> pc.w < |h.workers|)
         && (pc.Waiting? ==>
               && pc.w < |h.workers| && pc.job.id in h.workers[pc.w].pending
               && h.workers[pc.w].pending[pc.job.id].Some?)
    case TimeOut(k) =>
      && k < |h.controllers| && h.controllers[k].pc.Waiting? && h.controllers[k].pc.w < |h.workers|
      && var pc := h.controllers[k].pc;
         pc.job.id in h.workers[pc.w].pending && h.workers[pc.w].pending[pc.job.id].None?
    case Vanish(k) => k < |h.controllers| && (h.controllers[k].pc.Idle? || h.controllers[k].pc.Replying?)
  }

  function At(h: Hub, k: nat, pc: Pc): Hub
    requires k < |h.controllers|
  {
    h.(controllers := h.controllers[k := h.controllers[k].(pc := pc)])
  }

  /** The hub counts a job and remembers how it ended. */
  function Settle(h: Hub, k: nat, a: Answer): Hub
    requires k < |h.controllers|
  {
    var c := h.controllers[k];
    h.(controllers := h.controllers[k := c.(settled := c.settled + [a])],
       succeeded := if IsSuccess(a.outcome) then h.succeeded + 1 else h.succeeded,
       failed := if IsSuccess(a.outcome) then h.failed else h.failed + 1)
  }

  /** One controller step. */
  function Controlled(h: Hub, k: nat, now: Time, ok: bool): Hub
    requires Can(h, Advance(k, now, ok))
  {
    var c := h.controllers[k];
    match c.pc
    case Looking(job) =>
      var (ws, found) := Scan(h.workers, 0, job.tunnel, now, h.stale);
      At(h.(workers := ws), k, if found.None? then Rejecting(job) else Starting(job, found.value))
    case Rejecting(job) =>
      At(Settle(h.(rejected := h.rejected + 1), k, Answer(job, NoWorker)), k, Replying(job, NoWorker))
    case Starting(job, w) => At(h.(started := h.started + 1), k, Checking(job, w))
    case Checking(job, w) => At(h, k, if job.timeoutOk then Locking(job, w) else Recording(job, BadTimeout))
    case Locking(job, w) =>
      var v := h.workers[w];
      At(h.(workers := h.workers[w := v.(pending := v.pending[job.id := None], started := v.started + 1)]), k,
         Sending(job, w, |v.heard|))
    case Sending(job, w, since) =>
      var v := h.workers[w];
      if ok then At(h, k, Waiting(job, w, since))
      else At(h.(workers := h.workers[w := v.(raised := v.raised + 1)]), k, Unwinding(job, w, SendRaised))
    case Waiting(job, w, since) =>
      var v := h.workers[w];
      var m := v.pending[job.id].value;
      var v' := if m.JobError? then v.(failed := v.failed + 1) else v.(succeeded := v.succeeded + 1);
      At(h.(workers := h.workers[w := v']), k, Unwinding(job, w, Got(m, w, since)))
    case Unwinding(job, w, outcome) =>
      var v := h.workers[w];
      At(h.(workers := h.workers[w := v.(pending := v.pending - {job.id})]), k, Recording(job, outcome))
    case Recording(job, outcome) => At(Settle(h, k, Answer(job, outcome)), k, Clearing(job, outcome))
    case Clearing(job, outcome) => At(h.(progress := Progress.Pop(h.progress, job.id)), k, Replying(job, outcome))
    case Replying(job, outcome) =>
      h.(controllers := h.controllers[k := c.(pc := Idle, replies := c.replies + [Answer(job, outcome)])])
  }

  function Do(h: Hub, a: Action): Hub
    requires Can(h, a)
  {
    match a
    case Register(tunnels, now) => h.(workers := h.workers + [Worker(tunnels, true, true, now, map[], 0, 0, 0, 0, [])])
    case Hear(w, m, now) =>
      var v := h.workers[w];
      h.(workers := h.workers[w := v.(lastSeen := now, pending := Dispatched(v.pending, m), heard := v.heard + [m])])
    case HearProgress(w, job, text, now, clock) =>
      h.(workers := h.workers[w := h.workers[w].(lastSeen := now)],
         progress := Progress.Recorded(h.progress, Progress.Entry(job, clock, text), CAP))
    case Heartbeat(w, now) => h.(workers := h.workers[w := h.workers[w].(lastSeen := now)])
    case Disconnect(w) => h.(workers := h.workers[w := h.workers[w].(alive := false, listed := false)])
    case Snapshot(now) => h.(workers := MarkStale(h.workers, now, h.stale))
    case Probe(_, tunnel, now) => h.(workers := Scan(h.workers, 0, tunnel, now, h.stale).0)
    case Ask(k, job) =>
      var c := h.controllers[k];
      h.(controllers := h.controllers[k := c.(pc := Looking(job), asked := c.asked + [job])])
    case Advance(k, now, ok) => Controlled(h, k, now, ok)
    case TimeOut(k) =>
      var pc := h.controllers[k].pc;
      var v := h.workers[pc.w];
      At(h.(workers := h.workers[pc.w := v.(failed := v.failed + 1)]), k,
         Unwinding(pc.job, pc.w, TimedOut(pc.w, pc.since, |v.heard|)))
    case Vanish(k) => At(h, k, Gone)
  }

  predicate Init(h: Hub) {
    && h.workers == [] && h.started == h.succeeded == h.failed == h.rejected == 0 && h.progress == []
    && h.stale > 0
    && forall k | 0 <= k < |h.controllers| :: h.controllers[k] == Controller(Idle, [], [], [])
  }

  predicate IsTrace(run: seq<Hub>, acts: seq<Action>) {
    && |run| == |acts| + 1
    && Init(run[0])
    && forall n | 0 <= n < |acts| :: Can(run[n], acts[n]) && run[n + 1] == Do(run[n], acts[n])
  }
}
