/** What keeps a worker in service, what takes it out, and what a finished job leaves of its progress. */
module BridgeWatch {
  import opened Records
  import Progress
  import opened Bridge
  import BridgeHistory

  // ------------------------------------------------------------- first message

  /** The first message for a job is one of the messages, it is for the job, and none before it is. */
  lemma {:induction false} FirstForIs(ms: seq<Message>, job: Id, m: Message)
    ensures FirstFor(ms, job) == Some(m)
            <==> (exists i :: 0 <= i < |ms| && ms[i] == m && m.job == job && forall j | 0 <= j < i :: ms[j].job != job)
    decreases |ms|
  {
    if ms != [] {
      FirstForIs(ms[1..], job, m);
      if i :| 0 <= i < |ms| && ms[i] == m && m.job == job && forall j | 0 <= j < i :: ms[j].job != job {
        if i > 0 {
          assert ms[0].job != job;
          assert ms[1..][i - 1] == m && forall j | 0 <= j < i - 1 :: ms[1..][j] == ms[j + 1];
        }
      }
      if ms[0].job != job && FirstFor(ms[1..], job) == Some(m) {
        var i :| 0 <= i < |ms[1..]| && ms[1..][i] == m && m.job == job && forall j | 0 <= j < i :: ms[1..][j].job != job;
        assert ms[i + 1] == m && forall j | 0 < j < i + 1 :: ms[j] == ms[1..][j - 1];
      }
    }
  }

  // ------------------------------------------------------------------ service

  /** The action is a message of worker w: a result, a progress note or a heartbeat. */
  predicate Speaks(a: Action, w: nat) { (a.Hear? || a.HearProgress? || a.Heartbeat?) && a.w == w }

  /** The action looks at workers and marks the silent ones: a job's look-up, a probe or a snapshot. */
  predicate Looks(h: Hub, a: Action) {
    a.Snapshot? || a.Probe? || (a.Advance? && a.k < |h.controllers| && h.controllers[a.k].pc.Looking?)
  }

  /** A look-up takes exactly the listed workers out of service that it passes and that have been silent for
      too long; it passes those before the one it finds, or all if it finds none. */
  lemma {:induction false} ScanMarks(ws: seq<Worker>, i: nat, tunnel: Id, now: Time, stale: Time, w: nat)
    requires i <= |ws| && w < |ws|
    ensures var r := Scan(ws, i, tunnel, now, stale).0;
            r[w] == ws[w] || (r[w] == ws[w].(alive := false) && ws[w].listed && now - ws[w].lastSeen > stale)
    ensures Scan(ws, i, tunnel, now, stale).1.Some? ==> i <= Scan(ws, i, tunnel, now, stale).1.value
    ensures var (r, found) := Scan(ws, i, tunnel, now, stale);
            r[w] == if i <= w && (found.None? || w <= found.value) && ws[w].listed
                    then ws[w].(alive := ws[w].alive && now - ws[w].lastSeen <= stale) else ws[w]
    decreases |ws| - i
  {
    if i < |ws| {
      if !ws[i].listed {
        ScanMarks(ws, i + 1, tunnel, now, stale, w);
      } else {
        var v := if ws[i].alive && now - ws[i].lastSeen > stale then ws[i].(alive := false) else ws[i];
        ScanMarks(ws[i := v], i + 1, tunnel, now, stale, w);
      }
    }
  }

  /** What a step does to a worker's standing. */
  lemma StepStanding(h: Hub, a: Action, w: nat)
    requires Can(h, a) && w < |h.workers|
    ensures var g := Do(h, a);
            && w < |g.workers| && g.workers[w].tunnels == h.workers[w].tunnels && g.stale == h.stale
            && g.workers[w].lastSeen == (if Speaks(a, w) then a.now else h.workers[w].lastSeen)
            && g.workers[w].listed == (h.workers[w].listed && a != Disconnect(w))
            && (g.workers[w].alive ==> h.workers[w].alive && a != Disconnect(w))
            && (h.workers[w].alive && !g.workers[w].alive ==>
                  a == Disconnect(w) || (Looks(h, a) && a.now - h.workers[w].lastSeen > h.stale))
  {
    if a.Probe? { ScanMarks(h.workers, 0, a.tunnel, a.now, h.stale, w); }
    if a.Advance? && h.controllers[a.k].pc.Looking? {
      ScanMarks(h.workers, 0, h.controllers[a.k].pc.job.tunnel, a.now, h.stale, w);
    }
  }

  /** A worker that is listed and alive and speaks can be given the jobs of its tunnels until it has been
      silent for longer than the limit. */
  lemma SpeakingKeepsFit(h: Hub, a: Action, w: nat, tunnel: Id, now: Time)
    requires Can(h, a) && w < |h.workers| && Speaks(a, w) && h.workers[w].listed && h.workers[w].alive
    requires tunnel in h.workers[w].tunnels
    ensures BridgeHistory.Fit(Do(h, a).workers[w], tunnel, now, h.stale) <==> now - a.now <= h.stale
  {
    StepStanding(h, a, w);
  }

  /** A browser that registers becomes the last worker, and is fit for its tunnels from then on. */
  lemma RegisteringMakesFit(h: Hub, tunnels: set<Id>, tunnel: Id, seen: Time, now: Time)
    requires tunnels != {} && tunnel in tunnels
    ensures var g := Do(h, Register(tunnels, seen));
            && g.workers[..|h.workers|] == h.workers && |g.workers| == |h.workers| + 1
            && (BridgeHistory.Fit(g.workers[|h.workers|], tunnel, now, h.stale) <==> now - seen <= h.stale)
  {
  }

  /** In every run, a worker that is fit for a moment stays fit for it, as long as it does not disconnect
      and nobody looks at the workers after that moment. */
  lemma {:induction false} StaysFit(run: seq<Hub>, acts: seq<Action>, m: nat, n: nat, w: nat, tunnel: Id, now: Time)
    requires IsTrace(run, acts) && m <= n < |run| && w < |run[m].workers|
    requires BridgeHistory.Fit(run[m].workers[w], tunnel, now, run[m].stale)
    requires forall c | m <= c < n ::
               && acts[c] != Disconnect(w)
               && (Speaks(acts[c], w) ==> now - acts[c].now <= run[m].stale)
               && (Looks(run[c], acts[c]) ==> acts[c].now <= now)
    ensures w < |run[n].workers| && run[n].stale == run[m].stale
    ensures BridgeHistory.Fit(run[n].workers[w], tunnel, now, run[n].stale)
    decreases n - m
  {
    if m < n {
      StaysFit(run, acts, m, n - 1, w, tunnel, now);
      StepStanding(run[n - 1], acts[n - 1], w);
    }
  }

  /** In every run, a worker that is disconnected or was found silent for too long is out of service for
      good, whatever it still sends. */
  lemma {:induction false} OutForGood(run: seq<Hub>, acts: seq<Action>, m: nat, n: nat, w: nat, tunnel: Id, now: Time)
    requires IsTrace(run, acts) && m <= n < |run| && w < |run[m].workers|
    requires !run[m].workers[w].listed || !run[m].workers[w].alive
    ensures w < |run[n].workers| && !BridgeHistory.Fit(run[n].workers[w], tunnel, now, run[n].stale)
    ensures !run[n].workers[w].listed || !run[n].workers[w].alive
    decreases n - m
  {
    if m < n {
      OutForGood(run, acts, m, n - 1, w, tunnel, now);
      StepStanding(run[n - 1], acts[n - 1], w);
    }
  }

  /** A snapshot takes exactly the listed workers out of service that have been silent for too long. */
  lemma SnapshotMarks(h: Hub, w: nat, now: Time)
    requires w < |h.workers| && h.workers[w].listed
    ensures var v := Do(h, Snapshot(now)).workers[w];
            v == h.workers[w].(alive := h.workers[w].alive && now - h.workers[w].lastSeen <= h.stale)
  {
  }

  // ----------------------------------------------------------------- progress

  /** A step cleared the progress of the job. */
  ghost predicate Cleared(run: seq<Hub>, acts: seq<Action>, n: nat, k: nat, job: Job)
    requires n <= |acts| && |run| == |acts| + 1
  {
    exists d :: 0 <= d < n && Clears(run, acts, d, k, job)
  }

  predicate Clears(run: seq<Hub>, acts: seq<Action>, d: nat, k: nat, job: Job)
    requires d < |acts| && |run| == |acts| + 1
  {
    && acts[d].Advance? && acts[d].k == k && k < |run[d].controllers|
    && run[d].controllers[k].pc.Clearing? && run[d].controllers[k].pc.job == job
    && !Progress.Has(run[d + 1].progress, job.id)
  }

  ghost predicate RepliesCleared(run: seq<Hub>, acts: seq<Action>, n: nat, k: nat)
    requires n <= |acts| && |run| == |acts| + 1 && k < |run[n].controllers|
  {
    var c := run[n].controllers[k];
    && (c.pc.Replying? && !c.pc.outcome.NoWorker? ==> Cleared(run, acts, n, k, c.pc.job))
    && (forall i | 0 <= i < |c.replies| && !c.replies[i].outcome.NoWorker? :: Cleared(run, acts, n, k, c.replies[i].job))
  }

  lemma ClearingClears(h: Hub, k: nat, now: Time, ok: bool)
    requires Can(h, Advance(k, now, ok)) && h.controllers[k].pc.Clearing? && Progress.Keyed(h.progress)
    ensures !Progress.Has(Do(h, Advance(k, now, ok)).progress, h.controllers[k].pc.job.id)
    ensures forall e | e in h.progress && e.job != h.controllers[k].pc.job.id :: e in Do(h, Advance(k, now, ok)).progress
  {
    Progress.PopIs(h.progress, h.controllers[k].pc.job.id);
    var t := Do(h, Advance(k, now, ok)).progress;
    forall i | 0 <= i < |t| ensures t[i].job != h.controllers[k].pc.job.id { assert t[i] in t; }
  }

  lemma ProgressStaysKeyed(h: Hub, a: Action)
    requires Can(h, a) && Progress.Keyed(h.progress)
    ensures Progress.Keyed(Do(h, a).progress)
  {
    if a.HearProgress? {
      var e := Progress.Entry(a.job, a.clock, a.text);
      Progress.PutIs(h.progress, e);
      var u := Progress.Put(h.progress, e);
      if |u| > CAP { Progress.PopIs(u, u[Progress.Oldest(u)].job); }
    }
    if a.Advance? && h.controllers[a.k].pc.Clearing? { Progress.PopIs(h.progress, h.controllers[a.k].pc.job.id); }
  }

  lemma {:induction false} TraceKeyed(run: seq<Hub>, acts: seq<Action>, n: nat)
    requires IsTrace(run, acts) && n < |run|
    ensures Progress.Keyed(run[n].progress)
  {
    if n > 0 {
      TraceKeyed(run, acts, n - 1);
      ProgressStaysKeyed(run[n - 1], acts[n - 1]);
    }
  }

  lemma ClearedStays(run: seq<Hub>, acts: seq<Action>, n: nat, k: nat, job: Job)
    requires n < |acts| && |run| == |acts| + 1 && Cleared(run, acts, n, k, job)
    ensures Cleared(run, acts, n + 1, k, job)
  {
    var d :| 0 <= d < n && Clears(run, acts, d, k, job);
    assert 0 <= d < n + 1;
  }

  lemma ControllerMoves(h: Hub, a: Action, k: nat)
    requires Can(h, a) && k < |h.controllers|
    ensures var g := Do(h, a);
            && k < |g.controllers|
            && (g.controllers[k].replies == h.controllers[k].replies
                || (h.controllers[k].pc.Replying?
                    && g.controllers[k].replies == h.controllers[k].replies + [Answer(h.controllers[k].pc.job, h.controllers[k].pc.outcome)]))
            && (g.controllers[k].pc.Replying? && !g.controllers[k].pc.outcome.NoWorker? ==>
                  g.controllers[k].pc == h.controllers[k].pc
                  || (h.controllers[k].pc.Clearing? && a.Advance? && a.k == k && g.controllers[k].pc.job == h.controllers[k].pc.job))
  {
  }

  lemma {:induction false} TraceCleared(run: seq<Hub>, acts: seq<Action>, n: nat, k: nat)
    requires IsTrace(run, acts) && n < |run| && k < |run[n].controllers|
    ensures RepliesCleared(run, acts, n, k)
  {
    if n > 0 {
      BridgeHistory.SameControllers(run, acts, n - 1);
      TraceCleared(run, acts, n - 1, k);
      TraceKeyed(run, acts, n - 1);
      ControllerMoves(run[n - 1], acts[n - 1], k);
      var c, c' := run[n - 1].controllers[k], run[n].controllers[k];
      forall job: Job | Cleared(run, acts, n - 1, k, job) ensures Cleared(run, acts, n, k, job) {
        ClearedStays(run, acts, n - 1, k, job);
      }
      if c.pc.Clearing? && acts[n - 1].Advance? && acts[n - 1].k == k {
        ClearingClears(run[n - 1], k, acts[n - 1].now, acts[n - 1].ok);
        assert Clears(run, acts, n - 1, k, c.pc.job);
      }
    }
  }

  /** Every job that was given to a worker has its progress removed from the table, in a step of its
      controller, before it is answered. */
  lemma AnsweredJobsAreCleared(run: seq<Hub>, acts: seq<Action>, n: nat, k: nat, i: nat)
    requires IsTrace(run, acts) && n < |run| && k < |run[n].controllers| && i < |run[n].controllers[k].replies|
    requires !run[n].controllers[k].replies[i].outcome.NoWorker?
    ensures Cleared(run, acts, n, k, run[n].controllers[k].replies[i].job)
  {
    TraceCleared(run, acts, n, k);
  }
}
