/** No deadlock, and no endless run: every client's program is a finite one. */
module Liveness {
  import opened Records
  import opened Store
  import opened Engine
  import opened Machine
  import opened Invariant
  import opened Preservation

  // ------------------------------------------------------------ no deadlock

  /** A client that can take a step other than dying. */
  ghost predicate CanAct(s: State, i: nat) {
    exists a: Action :: !a.Crash? && Can(s, i, a)
  }

  /** Counting up from `n` through the ids in use ends at a free one. */
  lemma {:induction false} FreshFrom(used: set<Id>, rest: set<Id>, n: Id) returns (id: Id)
    requires forall x | x in used :: x in rest || x < n
    ensures id !in used
    decreases |rest|
  {
    if n in rest {
      forall x | x in used ensures x in rest - {n} || x < n + 1 {}
      id := FreshFrom(used, rest - {n}, n + 1);
    } else {
      id := n;
    }
  }

  lemma SomeInput(used: set<Id>) returns (inp: Input)
    ensures inp.uuid !in used && inp.ok
  {
    var id := FreshFrom(used, used, 0);
    var report := Report(0, Review, Pass, [], [], 0, 0, 0, [], [], []);
    inp := Input(id, 0, true, Manifest([], [], 0), 0, Response(None, report));
  }

  /** A client inside a lock section can always go on: it waits for nobody. */
  lemma SectionGoesOn(s: State, i: nat)
    requires Inv(s) && i < |s.clients| && Live(s.clients[i]) && s.clients[i].sec.Some?
    ensures CanAct(s, i)
  {
    assert ClientOk(s.disk, s.used, s.clients[i]);
    if s.clients[i].sec.value.done < |Current(s.clients[i]).writes| {
      assert Can(s, i, WriteNext);
    } else {
      var inp := SomeInput(s.used);
      assert Can(s, i, Leave(inp));
    }
  }

  /** A client that waits for a file lock waits for a client inside a section. */
  lemma CallGoesOn(s: State, i: nat) returns (j: nat)
    requires Inv(s) && i < |s.clients| && Live(s.clients[i]) && s.clients[i].sec.None? && CallOf(s.clients[i].prog).Some?
    ensures j < |s.clients| && CanAct(s, j)
  {
    var l := LockOf(CallOf(s.clients[i].prog).value);
    if LockFree(s, l) {
      assert Can(s, i, Enter);
      return i;
    }
    j :| 0 <= j < |s.clients| && HoldsLock(s.clients[j], l);
    SectionGoesOn(s, j);
  }

  lemma WithoutOpWaitGoesOn(s: State, i: nat) returns (j: nat)
    requires Inv(s) && i < |s.clients| && Live(s.clients[i]) && OpWanted(s.clients[i].prog).None?
    ensures j < |s.clients| && CanAct(s, j)
  {
    if s.clients[i].sec.Some? {
      SectionGoesOn(s, i);
      return i;
    } else if CallOf(s.clients[i].prog).Some? {
      j := CallGoesOn(s, i);
    } else {
      var inp := SomeInput(s.used);
      assert Can(s, i, Local(inp));
      return i;
    }
  }

  /** Lock order: a program that holds an operation lock waits for none, and one that waits for
      an operation lock holds nothing at all. */
  lemma LocksAreOrdered(p: Program)
    ensures OpHeld(p).Some? ==> OpWanted(p).None?
    ensures OpWanted(p).Some? ==> OpHeld(p).None? && CallOf(p).None?
  {
  }

  /** As long as some client has not finished or died, some client can move. */
  lemma NoDeadlock(run: seq<State>, moves: seq<Move>, k: nat, i: nat)
    requires IsTrace(run, moves) && k < |run| && i < |run[k].clients| && Live(run[k].clients[i])
    ensures exists j: nat :: j < |run[k].clients| && CanAct(run[k], j)
  {
    var s := run[k];
    TraceOk(run, moves, k);
    LocksAreOrdered(s.clients[i].prog);
    if OpWanted(s.clients[i].prog).None? {
      var j := WithoutOpWaitGoesOn(s, i);
    } else {
      assert ClientOk(s.disk, s.used, s.clients[i]);
      var o := OpWanted(s.clients[i].prog).value;
      if OpFree(s, o) {
        assert Can(s, i, TakeOp);
        assert CanAct(s, i);
      } else {
        var h :| 0 <= h < |s.clients| && HoldsOp(s.clients[h], o);
        LocksAreOrdered(s.clients[h].prog);
        var j := WithoutOpWaitGoesOn(s, h);
      }
    }
  }

  // ---------------------------------------------------------- every run ends

  /** How many points a run still has before it, at most. */
  function PointRank(p: Point): nat {
    match p
    case Failing(_, _) => 1
    case Finish(_, _) => 2
    case WriteResult(_) => 3
    case Validate(_, _) => 4
    case NoteConversation(_, _, _) => 5
    case BindWrite(_, _, _, _) => 6
    case BindRead(_, _) => 7
    case AwaitFinal(_, _) => 8
    case CallFinal(_, _) => 9
    case Reread(_) => 10
    case TakeChat(_) => 11
    case BeginFinal(_, _) => 12
    case WritePack(_, _) => 13
    case BuildContext(_) => 14
    case WriteManifest(_) => 15
    case AwaitPlanner => 16
    case BeginPlanning(_) => 17
    case Attach(_) => 18
    case WriteRoute => 19
    case WriteRequest => 20
    case WriteStatus(_) => 21
  }

  function SubmitRank(p: SubmitPoint): nat {
    match p
    case Conclude(_) => 1
    case StoreResult => 2
    case ReadManifest(_, _) => 3
    case Advance(_) => 1
    case ReadChat(_) => 2
    case StorePack(_, _) => 3
    case Build(_, _) => 4
    case StoreManifest(_, _) => 5
    case ReadRoute(_, _) => 6
    case ReadRequest(_) => 7
    case Load => 8
    case TakeRequest => 9
  }

  function ProgramRank(p: Program): nat {
    match p
    case Halted(_) => 0
    case At(_, pt) => PointRank(pt)
    case BindExplicit(_, _, _) => 22
    case PickChat(_, _, _) => 23
    case LoadChat(_) => 23
    case LoadSession(_) => 24
    case MakeSession(_, _) => 25
    case CheckSession(_) => 26
    case Start(_) => 27
    case Submitting(_, _, at) => SubmitRank(at)
    case DrawChat(_, _, _) => 2
    case ArchiveLoadSession(_, _) => 3
    case ArchiveLoadChat(_, _, _) => 2
    case _ => 1
  }

  /** The steps a client can still take, at most: four for a point with a two-write section. */
  function Fuel(cl: Client): nat {
    if cl.crashed || cl.prog.Halted? then 0
    else 5 * ProgramRank(cl.prog) - (if cl.sec.Some? then 1 + Min2(cl.sec.value.done) else 0)
  }

  function Min2(n: nat): nat { if n <= 2 then n else 2 }

  function TotalFuel(cls: seq<Client>): nat {
    if cls == [] then 0 else TotalFuel(cls[..|cls| - 1]) + Fuel(cls[|cls| - 1])
  }

  lemma {:induction false} TotalFuelDrops(a: seq<Client>, i: nat, cl: Client)
    requires i < |a| && Fuel(cl) < Fuel(a[i])
    ensures TotalFuel(a[i := cl]) < TotalFuel(a)
    decreases |a|
  {
    var n := |a| - 1;
    var b := a[i := cl];
    if i == n {
      assert b[..n] == a[..n];
    } else {
      TotalFuelDrops(a[..n], i, cl);
      assert b[..n] == a[..n][i := cl];
    }
  }

  lemma LocalDrops(p: Program, d: Disk, inp: Input)
    requires !p.Halted? && CallOf(p).None? && OpWanted(p).None?
    ensures ProgramRank(LocalStep(p, d, inp)) < ProgramRank(p)
  {
  }

  lemma ResumeDrops(p: Program, ret: Ret, inp: Input)
    requires CallOf(p).Some?
    ensures ProgramRank(Resume(p, ret, inp)) < ProgramRank(p)
  {
  }

  /** Every move uses up some of the mover's fuel and none of the others'. */
  lemma MoveBurnsFuel(s: State, i: nat, a: Action)
    requires Inv(s) && Can(s, i, a)
    ensures TotalFuel(Do(s, i, a).clients) < TotalFuel(s.clients)
  {
    var cl := s.clients[i];
    assert ClientOk(s.disk, s.used, cl);
    if cl.sec.Some? { WritesAreGuarded(CallOf(cl.prog).value, cl.sec.value.snap); }
    match a {
      case Local(inp) => LocalDrops(cl.prog, s.disk, inp);
      case Leave(inp) => ResumeDrops(cl.prog, Current(cl).ret, inp);
      case _ =>
    }
    assert ProgramRank(cl.prog) >= 1;
    TotalFuelDrops(s.clients, i, Do(s, i, a).clients[i]);
  }

  /** Every run is bounded by the fuel of its first state, so with NoDeadlock every run that is
      continued as long as possible ends with all clients finished or dead. */
  lemma {:induction false} RunsAreBounded(run: seq<State>, moves: seq<Move>, k: nat)
    requires IsTrace(run, moves) && k < |run|
    ensures k + TotalFuel(run[k].clients) <= TotalFuel(run[0].clients)
  {
    if k > 0 {
      RunsAreBounded(run, moves, k - 1);
      TraceOk(run, moves, k - 1);
      MoveBurnsFuel(run[k - 1], moves[k - 1].who, moves[k - 1].act);
    }
  }
}
