/** bridge/server.py as it runs in one thread: the worker and hub objects, with the calls the step
    machine is made of. What other threads do while a request waits comes in as parameters. */
module BridgeObjects {
  import opened Records
  import Progress
  import Bridge
  import BridgeHistory
  import BridgeWatch

  type Message = Bridge.Message

  /** What `request` ends with: a reply, or an exception. */
  datatype Requested = Replied(message: Message) | SendError | TimedOut

  class BrowserWorker {
    const tunnelIds: set<Id>
    var lastSeen: Time
    var pending: map<Id, Option<Message>>
    var alive: bool
    var jobsStarted: nat
    var jobsSucceeded: nat
    var jobsFailed: nat

    constructor (tunnels: set<Id>, now: Time)
      ensures tunnelIds == tunnels && lastSeen == now && alive && pending == map[]
      ensures jobsStarted == jobsSucceeded == jobsFailed == 0
    {
      tunnelIds, lastSeen, alive, pending := tunnels, now, true, map[];
      jobsStarted, jobsSucceeded, jobsFailed := 0, 0, 0;
    }

    /** The worker as the machine sees it; the machine's own books are left empty. */
    function View(): Bridge.Worker
      reads this
    {
      Bridge.Worker(tunnelIds, true, alive, lastSeen, pending, jobsStarted, jobsSucceeded, jobsFailed, 0, [])
    }

    method Dispatch(m: Message)
      modifies this`pending
      ensures pending == Bridge.Dispatched(old(pending), m)
    {
      if m.job in pending {
        var target := pending[m.job];
        if target.None? { pending := pending[m.job := Some(m)]; }
      }
    }

    /** `arrived` are the messages dispatched while the request waits, in order, until its queue
        yields one or the time is up. */
    method Request(job: Id, sendOk: bool, arrived: seq<Message>) returns (r: Requested)
      modifies this`pending, this`jobsStarted, this`jobsSucceeded, this`jobsFailed
      ensures r == if !sendOk then SendError
                   else if Bridge.FirstFor(arrived, job).Some? then Replied(Bridge.FirstFor(arrived, job).value)
                   else TimedOut
      ensures pending.Keys == old(pending).Keys - {job}
      ensures jobsStarted == old(jobsStarted) + 1
      ensures jobsSucceeded == old(jobsSucceeded) + if r.Replied? && r.message.JobResult? then 1 else 0
      ensures jobsFailed == old(jobsFailed) + if r.TimedOut? || (r.Replied? && r.message.JobError?) then 1 else 0
    {
      pending := pending[job := None];
      jobsStarted := jobsStarted + 1;
      r := SendError;
      if sendOk {
        var i := 0;
        while i < |arrived| && pending[job].None?
          invariant 0 <= i <= |arrived| && pending.Keys == old(pending).Keys + {job}
          invariant pending[job].None? ==> Bridge.FirstFor(arrived, job) == Bridge.FirstFor(arrived[i..], job)
          invariant pending[job].Some? ==> pending[job] == Bridge.FirstFor(arrived, job)
          modifies this`pending
        {
          Dispatch(arrived[i]);
          i := i + 1;
        }
        if pending[job].Some? {
          var response := pending[job].value;
          if response.JobError? {
            jobsFailed := jobsFailed + 1;
          } else {
            jobsSucceeded := jobsSucceeded + 1;
          }
          r := Replied(response);
        } else {
          jobsFailed := jobsFailed + 1;
          r := TimedOut;
        }
      }
      pending := pending - {job};
    }
  }

  class BridgeHub {
    const staleAfter: Time
    var workers: seq<BrowserWorker>
    var started: nat
    var succeeded: nat
    var failed: nat
    var progress: Progress.Table

    ghost predicate Valid()
      reads this
    {
      && (forall i, j | 0 <= i < j < |workers| :: workers[i] != workers[j])
      && Progress.Keyed(progress) && |progress| <= Bridge.CAP
    }

    function Views(): (r: seq<Bridge.Worker>)
      reads this, workers
      ensures |r| == |workers| && forall i | 0 <= i < |workers| :: r[i] == workers[i].View()
    {
      seq(|workers|, i requires 0 <= i < |workers| reads this, workers => workers[i].View())
    }

    constructor (stale: Time)
      requires stale > 0
      ensures staleAfter == stale
      ensures Valid() && workers == [] && progress == [] && started == succeeded == failed == 0
    {
      staleAfter := stale;
      workers, progress := [], [];
      started, succeeded, failed := 0, 0, 0;
    }

    method Register(w: BrowserWorker)
      requires Valid() && w !in workers
      modifies this`workers
      ensures Valid() && workers == old(workers) + [w]
    {
      workers := workers + [w];
    }

    method Unregister(w: BrowserWorker)
      requires Valid()
      modifies this`workers, w`alive
      ensures Valid() && !w.alive && w !in workers
      ensures forall v | v != w :: v in workers <==> v in old(workers)
    {
      w.alive := false;
      var i := 0;
      while i < |workers| && workers[i] != w
        invariant 0 <= i <= |workers| && forall j | 0 <= j < i :: workers[j] != w
      {
        i := i + 1;
      }
      if i < |workers| {
        ghost var was := workers;
        workers := workers[..i] + workers[i + 1..];
        forall v | v in was && v != w ensures v in workers {
          var j :| 0 <= j < |was| && was[j] == v;
          assert workers[if j < i then j else j - 1] == v;
        }
      }
    }

    static lemma LookedAt(was: seq<Bridge.Worker>, tunnel: Id, now: Time, stale: Time)
      requires forall x | 0 <= x < |was| :: was[x].listed
      ensures var (ws, found) := Bridge.Scan(was, 0, tunnel, now, stale);
              && (found.Some? ==> BridgeHistory.FirstFit(was, found.value, tunnel, now, stale) && ws[found.value] == was[found.value])
              && (found.None? ==> forall x: nat :: !BridgeHistory.FirstFit(was, x, tunnel, now, stale))
              && forall x: nat | x < |was| ::
                   && OnlyMarked(was[x], ws[x], now, stale)
                   && ws[x] == if found.None? || x <= found.value
                               then was[x].(alive := was[x].alive && now - was[x].lastSeen <= stale) else was[x]
    {
      BridgeHistory.FindsFirstFit(was, 0, tunnel, now, stale);
      forall x: nat | x < |was|
        ensures var (ws, found) := Bridge.Scan(was, 0, tunnel, now, stale);
                && OnlyMarked(was[x], ws[x], now, stale)
                && ws[x] == if found.None? || x <= found.value
                            then was[x].(alive := was[x].alive && now - was[x].lastSeen <= stale) else was[x]
      {
        BridgeWatch.ScanMarks(was, 0, tunnel, now, stale, x);
      }
    }

    /** Marks the stale workers it passes and returns the first that is alive and serves the tunnel. */
    method WorkerFor(tunnel: Id, now: Time) returns (r: Option<nat>)
      requires Valid()
      modifies workers`alive
      ensures Valid() && (Views(), r) == Bridge.Scan(old(Views()), 0, tunnel, now, staleAfter)
      ensures r.Some? ==> r.value < |workers| && BridgeHistory.FirstFit(old(Views()), r.value, tunnel, now, staleAfter)
      ensures r.Some? ==> Views()[r.value] == old(Views())[r.value]
      ensures r.None? ==> forall x: nat :: !BridgeHistory.FirstFit(old(Views()), x, tunnel, now, staleAfter)
      ensures forall x: nat | x < |workers| :: OnlyMarked(old(Views())[x], Views()[x], now, staleAfter)
      ensures forall x: nat | x < |workers| && (r.None? || x <= r.value) ::
                Views()[x].alive == (old(Views())[x].alive && now - old(Views())[x].lastSeen <= staleAfter)
      ensures forall x: nat | x < |workers| && r.Some? && x > r.value :: Views()[x] == old(Views())[x]
    {
      LookedAt(Views(), tunnel, now, staleAfter);
      r := None;
      var i := 0;
      while i < |workers|
        invariant 0 <= i <= |workers|
        invariant Bridge.Scan(old(Views()), 0, tunnel, now, staleAfter) == Bridge.Scan(Views(), i, tunnel, now, staleAfter)
      {
        var w := workers[i];
        ghost var before := Views();
        if w.alive && now - w.lastSeen > staleAfter { w.alive := false; }
        assert Views() == before[i := w.View()];
        if w.alive && tunnel in w.tunnelIds { return Some(i); }
        i := i + 1;
      }
    }

    /** The marking loop of `snapshot` and `stats`. */
    method MarkStale(now: Time)
      requires Valid()
      modifies workers`alive
      ensures Valid() && Views() == Bridge.MarkStale(old(Views()), now, staleAfter)
    {
      ghost var was := Views();
      for i := 0 to |workers|
        invariant Views()[i..] == was[i..]
        invariant Views()[..i] == Bridge.MarkStale(was, now, staleAfter)[..i]
      {
        var w := workers[i];
        ghost var before := Views();
        assert before[i] == was[i..][0];
        if w.alive && now - w.lastSeen > staleAfter { w.alive := false; }
        assert Views() == before[i := w.View()];
        NextMarked(was, before, Views(), i, now, staleAfter);
      }
    }

    static lemma NextMarked(was: seq<Bridge.Worker>, before: seq<Bridge.Worker>, after: seq<Bridge.Worker>, i: nat, now: Time, stale: Time)
      requires |was| == |before| == |after| && i < |was|
      requires before[i..] == was[i..] && before[..i] == Bridge.MarkStale(was, now, stale)[..i]
      requires after == before[i := Bridge.MarkStale(was, now, stale)[i]]
      ensures after[i + 1..] == was[i + 1..] && after[..i + 1] == Bridge.MarkStale(was, now, stale)[..i + 1]
    {
      assert after[i + 1..] == before[i..][1..] && was[i + 1..] == was[i..][1..];
      assert after[..i + 1] == before[..i] + [after[i]];
    }

    method RecordJobResult(success: bool)
      modifies this`succeeded, this`failed
      ensures succeeded == old(succeeded) + if success then 1 else 0
      ensures failed == old(failed) + if success then 0 else 1
    {
      if success { succeeded := succeeded + 1; } else { failed := failed + 1; }
    }

    method RecordProgress(job: Id, text: Id, now: Time)
      requires Valid()
      modifies this`progress
      ensures Valid() && progress == Progress.Recorded(old(progress), Progress.Entry(job, now, text), Bridge.CAP)
    {
      ghost var e := Progress.Entry(job, now, text);
      Progress.PutIs(progress, e);
      progress := Progress.Put(progress, Progress.Entry(job, now, text));
      if |progress| > Bridge.CAP {
        var oldest := 0;
        for i := 1 to |progress|
          invariant 0 <= oldest < i
          invariant forall j | 0 <= j < i :: progress[oldest].at <= progress[j].at
          invariant forall j | 0 <= j < oldest :: progress[oldest].at < progress[j].at
        {
          if progress[i].at < progress[oldest].at { oldest := i; }
        }
        assert Progress.IsOldest(progress, oldest) && oldest == Progress.Oldest(progress);
        Progress.PopIs(progress, progress[oldest].job);
        progress := Progress.Pop(progress, progress[oldest].job);
      }
    }

    method GetProgress(job: Id) returns (r: Option<Id>)
      requires Valid()
      ensures r.None? <==> !Progress.Has(progress, job)
      ensures r.Some? ==> exists e :: e in progress && e.job == job && e.text == r.value
    {
      var i := Progress.Find(progress, job);
      if i < |progress| {
        assert progress[i] in progress;
        r := Some(progress[i].text);
      } else {
        r := None;
      }
    }

    method ClearProgress(job: Id)
      requires Valid()
      modifies this`progress
      ensures Valid() && progress == Progress.Pop(old(progress), job) && !Progress.Has(progress, job)
    {
      Progress.PopIs(progress, job);
      progress := Progress.Pop(progress, job);
      forall i | 0 <= i < |progress| ensures progress[i].job != job { assert progress[i] in progress; }
    }

    /** What a job does to a worker it is not given to: at most, it finds it silent for too long. */
    static predicate OnlyMarked(v: Bridge.Worker, w: Bridge.Worker, now: Time, stale: Time) {
      w == v || (w == v.(alive := false) && now - v.lastSeen > stale)
    }

    /** What a job does to the worker it is given to. */
    static predicate Served(v: Bridge.Worker, w: Bridge.Worker, job: Bridge.Job, sendOk: bool, reply: Message) {
      && w.tunnels == v.tunnels && w.alive && w.lastSeen == v.lastSeen
      && w.pending.Keys == v.pending.Keys - {job.id}
      && w.started == v.started + 1
      && w.succeeded == v.succeeded + (if reply.JobResult? then 1 else 0)
      && w.failed == v.failed + if sendOk && !reply.JobResult? then 1 else 0
    }

    /** The job branch of `_controller_session` once a worker is found: the job is handed to it. */
    method GiveJob(x: nat, job: Bridge.Job, sendOk: bool, arrived: seq<Message>) returns (reply: Message)
      requires Valid() && x < |workers| && workers[x].alive
      modifies this`started, this`succeeded, this`failed, this`progress, workers[x]
      ensures Valid() && started == old(started) + 1 && progress == Progress.Pop(old(progress), job.id)
      ensures var first := Bridge.FirstFor(arrived, job.id);
              reply == if job.timeoutOk && sendOk && first.Some? then first.value else Bridge.JobError(job.id, 0)
      ensures succeeded == old(succeeded) + if reply.JobResult? then 1 else 0
      ensures failed == old(failed) + if reply.JobResult? then 0 else 1
      ensures if job.timeoutOk then Served(old(workers[x].View()), workers[x].View(), job, sendOk, reply)
              else workers[x].View() == old(workers[x].View())
    {
      started := started + 1;
      reply := Bridge.JobError(job.id, 0);
      if !job.timeoutOk {
        RecordJobResult(false);
      } else {
        var r := workers[x].Request(job.id, sendOk, arrived);
        if r.Replied? {
          reply := r.message;
          RecordJobResult(reply.JobResult?);
        } else {
          RecordJobResult(false);
        }
      }
      ClearProgress(job.id);
    }

    /** The job branch of `_controller_session`, from the message to the reply. Exactly the first worker that
        is alive, heard from in time and serves the tunnel is given the job. */
    method RunJob(job: Bridge.Job, now: Time, sendOk: bool, arrived: seq<Message>) returns (reply: Message)
      requires Valid()
      modifies this`started, this`succeeded, this`failed, this`progress, workers
      ensures Valid() && workers == old(workers)
      ensures reply.job == job.id
      ensures var first := Bridge.FirstFor(arrived, job.id);
              var found := exists x: nat :: BridgeHistory.FirstFit(old(Views()), x, job.tunnel, now, staleAfter);
              && reply == (if found && job.timeoutOk && sendOk && first.Some? then first.value else Bridge.JobError(job.id, 0))
              && started == old(started) + (if found then 1 else 0)
              && progress == if found then Progress.Pop(old(progress), job.id) else old(progress)
      ensures forall x: nat | x < |workers| ::
                if job.timeoutOk && BridgeHistory.FirstFit(old(Views()), x, job.tunnel, now, staleAfter)
                then Served(old(Views())[x], Views()[x], job, sendOk, reply)
                else OnlyMarked(old(Views())[x], Views()[x], now, staleAfter)
      ensures succeeded == old(succeeded) + (if reply.JobResult? then 1 else 0)
      ensures failed == old(failed) + (if reply.JobResult? then 0 else 1)
    {
      FirstForJobIs(arrived, job.id);
      var found := WorkerFor(job.tunnel, now);
      if found.None? {
        RecordJobResult(false);
        return Bridge.JobError(job.id, 0);
      }
      ghost var marked := Views();
      reply := GiveJob(found.value, job, sendOk, arrived);
      forall x: nat | x < |workers| && x != found.value ensures Views()[x] == marked[x] {
        assert workers[x] != workers[found.value];
      }
    }
  }

  lemma {:induction false} FirstForJobIs(ms: seq<Message>, job: Id)
    ensures Bridge.FirstFor(ms, job).Some? ==> Bridge.FirstFor(ms, job).value.job == job
  {
    if ms != [] { FirstForJobIs(ms[1..], job); }
  }
}
