/** What context building promises: collection does not depend on order, the budget loop conserves,
    fails exactly when it must, isolates priorities and is maximal. */
module ContextProofs {
  import opened Records
  import Sorting
  import opened Context

  // ----------------------------------------- collection: least rank, any order

  predicate Distinct(t: Table) {
    forall i, j | 0 <= i < j < |t| :: t[i].path != t[j].path
  }

  function PriorityOf(t: Table, path: Path): Option<Priority> {
    if Find(t, path) < |t| then Some(t[Find(t, path)].priority) else None
  }

  function Lower(a: Option<Priority>, p: Priority): Option<Priority> {
    if a.None? || Rank(p) < Rank(a.value) then Some(p) else a
  }

  lemma MembersByPriority(t: Table, c: Candidate)
    requires Distinct(t)
    ensures c in t <==> PriorityOf(t, c.path) == Some(c.priority)
  {
    var i := Find(t, c.path);
    if c in t {
      var j :| 0 <= j < |t| && t[j] == c;
      assert i == j;
    }
  }

  lemma AddedLowers(t: Table, path: Path, p: Priority, q: Path)
    requires Distinct(t)
    ensures Distinct(Added(t, path, p))
    ensures PriorityOf(Added(t, path, p), q) == if q == path then Lower(PriorityOf(t, q), p) else PriorityOf(t, q)
  {
    var i, u := Find(t, path), Added(t, path, p);
    var j, k := Find(t, q), Find(u, q);
    assert forall x | 0 <= x < |t| && x != i :: u[x] == t[x];
    if q == path {
      assert u[i].path == q;
    } else if j < |t| {
      assert u[j] == t[j];
    }
    assert k < |u| ==> u[k].path == q;
  }

  predicate ReachedAt(h: Hit, hidden: set<Id>, path: Path) { Counts(h, hidden) && h.target.path == path }

  /** Some hit leads to the path under a name that is not hidden. */
  predicate Hits(hits: seq<Hit>, hidden: set<Id>, path: Path) {
    exists i :: 0 <= i < |hits| && ReachedAt(hits[i], hidden, path)
  }

  predicate Reaching(s: Source, hidden: set<Id>, path: Path) {
    s.selector.Reaches? && Hits(s.selector.hits, hidden, path)
  }

  lemma {:induction false} HitsLower(t: Table, hits: seq<Hit>, p: Priority, hidden: set<Id>, q: Path)
    requires Distinct(t)
    ensures Distinct(AddedHits(t, hits, p, hidden))
    ensures PriorityOf(AddedHits(t, hits, p, hidden), q)
            == if Hits(hits, hidden, q) then Lower(PriorityOf(t, q), p) else PriorityOf(t, q)
  {
    if hits != [] {
      var n := |hits| - 1;
      HitsLower(t, hits[..n], p, hidden, q);
      assert Hits(hits, hidden, q) <==> Hits(hits[..n], hidden, q) || ReachedAt(hits[n], hidden, q) by {
        forall i | 0 <= i < n && ReachedAt(hits[i], hidden, q) ensures Hits(hits[..n], hidden, q) {
          assert hits[..n][i] == hits[i];
        }
      }
      if Counts(hits[n], hidden) {
        AddedLowers(AddedHits(t, hits[..n], p, hidden), hits[n].target.path, p, q);
      }
    }
  }

  /** The least priority with which any source reaches the path. */
  function Least(sources: seq<Source>, hidden: set<Id>, path: Path): Option<Priority> {
    if sources == [] then None
    else
      var before := Least(sources[..|sources| - 1], hidden, path);
      var s := sources[|sources| - 1];
      if Reaching(s, hidden, path) then Lower(before, s.priority) else before
  }

  lemma {:induction false} GatheredIsLeast(sources: seq<Source>, hidden: set<Id>, q: Path)
    ensures Distinct(Gathered([], sources, hidden))
    ensures PriorityOf(Gathered([], sources, hidden), q) == Least(sources, hidden, q)
  {
    if sources != [] {
      var n := |sources| - 1;
      GatheredIsLeast(sources[..n], hidden, q);
      if sources[n].selector.Reaches? {
        HitsLower(Gathered([], sources[..n], hidden), sources[n].selector.hits, sources[n].priority, hidden, q);
      }
    }
  }

  /** Said without an order: some source reaches the path with this priority, none with a lower rank. */
  ghost predicate IsLeast(sources: seq<Source>, hidden: set<Id>, path: Path, p: Priority) {
    && (exists s :: s in sources && Reaching(s, hidden, path) && s.priority == p)
    && (forall s | s in sources && Reaching(s, hidden, path) :: Rank(p) <= Rank(s.priority))
  }

  lemma {:induction false} LeastIsLeast(sources: seq<Source>, hidden: set<Id>, path: Path, p: Priority)
    ensures Least(sources, hidden, path) == Some(p) <==> IsLeast(sources, hidden, path, p)
    decreases |sources|
  {
    if sources != [] {
      var n := |sources| - 1;
      var before, s := sources[..n], sources[n];
      assert forall x :: x in sources <==> x in before || x == s by {
        assert sources == before + [s];
      }
      LeastIsLeast(before, hidden, path, p);
      var l := Least(before, hidden, path);
      if l.Some? { LeastIsLeast(before, hidden, path, l.value); } else { NoneReaches(before, hidden, path); }
    }
  }

  lemma {:induction false} NoneReaches(sources: seq<Source>, hidden: set<Id>, path: Path)
    requires Least(sources, hidden, path).None?
    ensures forall s | s in sources :: !Reaching(s, hidden, path)
  {
    if sources != [] { NoneReaches(sources[..|sources| - 1], hidden, path); }
  }

  /** A file is a candidate with a priority exactly if that is the least one it is asked for with. */
  lemma CollectsLeast(sources: seq<Source>, hidden: set<Id>, c: Candidate)
    ensures Distinct(Gathered([], sources, hidden))
    ensures c in Gathered([], sources, hidden) <==> IsLeast(sources, hidden, c.path, c.priority)
  {
    GatheredIsLeast(sources, hidden, c.path);
    MembersByPriority(Gathered([], sources, hidden), c);
    LeastIsLeast(sources, hidden, c.path, c.priority);
  }

  // ------------------------------------------------------------------- sort

  predicate Ascending(cs: seq<Candidate>) { Sorting.Ascending(cs, VisitKey) }

  lemma Before(cs: seq<Candidate>, i: nat, j: nat)
    requires Ascending(cs) && i < j < |cs|
    ensures Rank(cs[i].priority) <= Rank(cs[j].priority) && cs[i] != cs[j]
  {
    assert Sorting.Less(VisitKey(cs[i]), VisitKey(cs[j]));
  }

  lemma OrderedIs(t: Table)
    requires Distinct(t)
    ensures Ascending(Ordered(t)) && multiset(Ordered(t)) == multiset(t)
    ensures forall x :: x in Ordered(t) <==> x in t
  {
    assert forall i, j | 0 <= i < j < |t| :: VisitKey(t[i]) != VisitKey(t[j]) by {
      forall i, j | 0 <= i < j < |t| ensures VisitKey(t[i]) != VisitKey(t[j]) { assert t[i].path != t[j].path; }
    }
    Sorting.SortedIs(t, VisitKey);
  }

  function Files(sources: seq<Source>, hidden: set<Id>): seq<Candidate> {
    Ordered(Gathered([], sources, hidden))
  }

  lemma FilesAre(sources: seq<Source>, hidden: set<Id>)
    ensures Ascending(Files(sources, hidden))
    ensures forall c :: c in Files(sources, hidden) <==> IsLeast(sources, hidden, c.path, c.priority)
  {
    GatheredIsLeast(sources, hidden, 0);
    OrderedIs(Gathered([], sources, hidden));
    forall c ensures c in Files(sources, hidden) <==> IsLeast(sources, hidden, c.path, c.priority) {
      CollectsLeast(sources, hidden, c);
    }
  }

  /** Collection is confluent: the order of requirements, includes and artifacts, and any
      repetition among them, do not change the list of files. */
  lemma CollectionIsConfluent(a: seq<Source>, b: seq<Source>, hidden: set<Id>)
    requires forall s :: s in a <==> s in b
    ensures Files(a, hidden) == Files(b, hidden)
  {
    FilesAre(a, hidden);
    FilesAre(b, hidden);
    forall c ensures c in Files(a, hidden) <==> c in Files(b, hidden) {
      assert IsLeast(a, hidden, c.path, c.priority) <==> IsLeast(b, hidden, c.path, c.priority);
    }
    Sorting.AscendingUnique(Files(a, hidden), Files(b, hidden), VisitKey);
  }

  // ------------------------------------------------------- the budget loop

  predicate Eligible(c: Candidate, e: Env) { Defect(FileAt(e, c.path), e.limit).None? }

  function SizeOf(c: Candidate, e: Env): nat {
    var f := FileAt(e, c.path);
    if f.Readable? then |f.raw| else 0
  }

  /** The bytes of the files that must fit. */
  function RequiredBytes(cs: seq<Candidate>, e: Env): nat {
    if cs == [] then 0
    else
      var c := cs[|cs| - 1];
      RequiredBytes(cs[..|cs| - 1], e) + if c.priority.P0? && Eligible(c, e) then SizeOf(c, e) else 0
  }

  predicate RequiredOversize(cs: seq<Candidate>, e: Env) {
    exists i :: 0 <= i < |cs| && cs[i].priority.P0? && SizeOf(cs[i], e) > e.limit
  }

  lemma {:induction false} TotalBounded(s: Selection, cs: seq<Candidate>, e: Env)
    requires s.Selection? && s.total <= e.budget && Selected(s, cs, e).Selection?
    ensures s.total <= Selected(s, cs, e).total <= e.budget
    ensures (forall i | 0 <= i < |cs| :: cs[i].priority.P0?) ==> Selected(s, cs, e).total == s.total + RequiredBytes(cs, e)
  {
    if cs != [] { TotalBounded(s, cs[..|cs| - 1], e); }
  }

  /** The loop fails exactly if a required file is too large on its own, or the inline bytes and
      all required files together exceed the budget. */
  lemma {:induction false} FailsExactly(s: Selection, cs: seq<Candidate>, e: Env)
    requires s.Selection? && s.total <= e.budget && Ascending(cs)
    ensures Selected(s, cs, e).TooLarge? <==> RequiredOversize(cs, e) || s.total + RequiredBytes(cs, e) > e.budget
  {
    if cs != [] {
      var n := |cs| - 1;
      FailsExactly(s, cs[..n], e);
      var last := cs[n].priority.P0? && SizeOf(cs[n], e) > e.limit;
      assert RequiredOversize(cs, e) <==> (RequiredOversize(cs[..n], e) || last) by {
        forall i | 0 <= i < n ensures cs[..n][i] == cs[i] {}
      }
      if Selected(s, cs[..n], e).Selection? {
        TotalBounded(s, cs[..n], e);
        if cs[n].priority.P0? {
          forall i | 0 <= i < n ensures cs[..n][i].priority.P0? { Before(cs, i, n); }
        }
      }
    }
  }

  function FilePaths(arts: seq<Artifact>): multiset<Path> {
    if arts == [] then multiset{}
    else
      var a := arts[|arts| - 1];
      FilePaths(arts[..|arts| - 1]) + if a.FromFile? then multiset{a.path} else multiset{}
  }

  function OmittedPaths(os: seq<Omission>): multiset<Path> {
    if os == [] then multiset{}
    else
      var o := os[|os| - 1];
      OmittedPaths(os[..|os| - 1]) + if o.Omitted? then multiset{o.path} else multiset{}
  }

  function PathsOf(cs: seq<Candidate>): multiset<Path> {
    if cs == [] then multiset{} else PathsOf(cs[..|cs| - 1]) + multiset{cs[|cs| - 1].path}
  }

  lemma Appended(s: Selection, c: Candidate, e: Env)
    requires s.Selection? && Visited(s, c, e).Selection?
    ensures var t := Visited(s, c, e);
            && FilePaths(t.arts) + OmittedPaths(t.omitted) == FilePaths(s.arts) + OmittedPaths(s.omitted) + multiset{c.path}
            && t.total - s.total == Sizes(t.arts) - Sizes(s.arts)
  {
    var t := Visited(s, c, e);
    if t.arts != s.arts { assert t.arts[..|s.arts|] == s.arts; } else { assert t.omitted[..|s.omitted|] == s.omitted; }
  }

  /** Every candidate ends up once, as an artifact or as an omission, and the total is the sum of sizes. */
  lemma {:induction false} Conserves(s: Selection, cs: seq<Candidate>, e: Env)
    requires s.Selection? && s.total == Sizes(s.arts) && Selected(s, cs, e).Selection?
    ensures var r := Selected(s, cs, e);
            && FilePaths(r.arts) + OmittedPaths(r.omitted) == FilePaths(s.arts) + OmittedPaths(s.omitted) + PathsOf(cs)
            && r.total == Sizes(r.arts)
  {
    if cs != [] {
      Conserves(s, cs[..|cs| - 1], e);
      Appended(Selected(s, cs[..|cs| - 1], e), cs[|cs| - 1], e);
    }
  }

  /** What became of a candidate: left out for its defect, taken whole, or left out for want of
      space that is still wanting at the end. */
  predicate Accounted(r: Selection, c: Candidate, e: Env)
    requires r.Selection?
  {
    match Defect(FileAt(e, c.path), e.limit)
    case Some(reason) => Omitted(reason, c.path) in r.omitted
    case None =>
      || FromFile(c.path, c.priority, FileAt(e, c.path).raw) in r.arts
      || (Omitted(OverBudget, c.path) in r.omitted && !c.priority.P0? && r.total + SizeOf(c, e) > e.budget)
  }

  lemma {:induction false} AllAccounted(s: Selection, cs: seq<Candidate>, e: Env)
    requires s.Selection? && Selected(s, cs, e).Selection?
    ensures forall i | 0 <= i < |cs| :: Accounted(Selected(s, cs, e), cs[i], e)
  {
    if cs != [] {
      var n := |cs| - 1;
      var before, r := Selected(s, cs[..n], e), Selected(s, cs, e);
      AllAccounted(s, cs[..n], e);
      forall i | 0 <= i < n ensures Accounted(r, cs[i], e) {
        assert cs[..n][i] == cs[i] && Accounted(before, cs[i], e);
      }
    }
  }

  // ------------------------------------------------------ priority isolation

  /** The candidates of rank at most k, in the same order. */
  function UpTo(cs: seq<Candidate>, k: int): seq<Candidate> {
    if cs == [] then []
    else UpTo(cs[..|cs| - 1], k) + if Rank(cs[|cs| - 1].priority) <= k then [cs[|cs| - 1]] else []
  }

  lemma {:induction false} UpToIs(cs: seq<Candidate>, k: int)
    requires Ascending(cs)
    ensures UpTo(cs, k) <= cs && forall i | |UpTo(cs, k)| <= i < |cs| :: Rank(cs[i].priority) > k
    ensures forall i | 0 <= i < |UpTo(cs, k)| :: Rank(cs[i].priority) <= k
  {
    if cs != [] {
      var n := |cs| - 1;
      UpToIs(cs[..n], k);
      if Rank(cs[n].priority) <= k {
        forall i | 0 <= i < n ensures Rank(cs[i].priority) <= k { Before(cs, i, n); }
        assert |UpTo(cs[..n], k)| == n;
      }
    }
  }

  ghost predicate Extends(small: Selection, large: Selection, k: int) {
    && small.Selection? && large.Selection?
    && small.arts <= large.arts && small.omitted <= large.omitted
    && forall i | |small.arts| <= i < |large.arts| :: large.arts[i].FromFile? && Rank(large.arts[i].priority) > k
  }

  lemma {:induction false} Isolates(s: Selection, cs: seq<Candidate>, e: Env, k: int)
    requires s.Selection? && s.total <= e.budget && Ascending(cs) && k >= 0
    ensures Selected(s, cs, e).TooLarge? <==> Selected(s, UpTo(cs, k), e).TooLarge?
    ensures Selected(s, cs, e).Selection? ==> Extends(Selected(s, UpTo(cs, k), e), Selected(s, cs, e), k)
  {
    if cs != [] {
      var n := |cs| - 1;
      Isolates(s, cs[..n], e, k);
      UpToIs(cs[..n], k);
      if Rank(cs[n].priority) <= k {
        forall i | 0 <= i < n ensures Rank(cs[i].priority) <= k { Before(cs, i, n); }
        assert UpTo(cs[..n], k) == cs[..n] && UpTo(cs, k) == cs;
      } else {
        assert UpTo(cs, k) == UpTo(cs[..n], k);
      }
    }
  }

  /** The sources of rank at most k. */
  function SourcesUpTo(ss: seq<Source>, k: int): (r: seq<Source>)
    ensures forall s :: s in r <==> s in ss && Rank(s.priority) <= k
  {
    if ss == [] then []
    else
      assert forall s :: s in ss <==> s == ss[0] || s in ss[1..];
      (if Rank(ss[0].priority) <= k then [ss[0]] else []) + SourcesUpTo(ss[1..], k)
  }

  lemma DroppingSources(ss: seq<Source>, hidden: set<Id>, k: int)
    ensures Files(SourcesUpTo(ss, k), hidden) == UpTo(Files(ss, hidden), k)
  {
    var all, some := Files(ss, hidden), Files(SourcesUpTo(ss, k), hidden);
    FilesAre(ss, hidden);
    FilesAre(SourcesUpTo(ss, k), hidden);
    UpToIs(all, k);
    forall c ensures c in some <==> c in UpTo(all, k) {
      assert c in UpTo(all, k) <==> c in all && Rank(c.priority) <= k by {
        if c in all && Rank(c.priority) <= k { var i :| 0 <= i < |all| && all[i] == c; }
      }
      LowRankSame(ss, hidden, k, c);
    }
    Sorting.AscendingUnique(some, UpTo(all, k), VisitKey);
  }

  lemma LowRankSame(ss: seq<Source>, hidden: set<Id>, k: int, c: Candidate)
    ensures IsLeast(SourcesUpTo(ss, k), hidden, c.path, c.priority)
            <==> IsLeast(ss, hidden, c.path, c.priority) && Rank(c.priority) <= k
  {
  }

  /** Priority isolation: dropping every requirement, include and artifact of rank greater than k
      leaves the files of rank at most k as they were, and with them success or failure. */
  lemma PriorityIsolation(s: Selection, ss: seq<Source>, hidden: set<Id>, e: Env, k: int)
    requires s.Selection? && s.total <= e.budget && k >= 0
    ensures var full, dropped := Selected(s, Files(ss, hidden), e), Selected(s, Files(SourcesUpTo(ss, k), hidden), e);
            && (full.TooLarge? <==> dropped.TooLarge?)
            && (full.Selection? ==> Extends(dropped, full, k))
  {
    DroppingSources(ss, hidden, k);
    FilesAre(ss, hidden);
    Isolates(s, Files(ss, hidden), e, k);
  }

  // -------------------------------------------------------- the whole build

  lemma {:induction false} InlineHasNoFiles(a: Ask, specs: seq<Spec>)
    ensures FilePaths(InlineArts(a, specs)) == multiset{} && OmittedPaths(SuppressedSpecs(a, specs)) == multiset{}
  {
    if specs != [] {
      var n := |specs| - 1;
      InlineHasNoFiles(a, specs[..n]);
      var arts, os := InlineArts(a, specs), SuppressedSpecs(a, specs);
      if arts != InlineArts(a, specs[..n]) { assert arts[..|arts| - 1] == InlineArts(a, specs[..n]); }
      if os != SuppressedSpecs(a, specs[..n]) { assert os[..|os| - 1] == SuppressedSpecs(a, specs[..n]); }
    }
  }

  lemma {:induction false} MarkersHaveNoPaths(a: Ask, specs: seq<Spec>)
    ensures OmittedPaths([IncludesSuppressed] + SuppressedSpecs(a, specs)) == multiset{}
  {
    var all := [IncludesSuppressed] + SuppressedSpecs(a, specs);
    if specs == [] {
      assert all == [IncludesSuppressed] && all[..0] == [];
    } else {
      var n := |specs| - 1;
      MarkersHaveNoPaths(a, specs[..n]);
      if Suppressed(a, specs[n]) {
        assert all[..|all| - 1] == [IncludesSuppressed] + SuppressedSpecs(a, specs[..n]);
      } else {
        assert all == [IncludesSuppressed] + SuppressedSpecs(a, specs[..n]);
      }
    }
  }

  lemma StartedHasNoFiles(a: Ask)
    ensures FilePaths(Started(a).arts) == multiset{} && OmittedPaths(Started(a).omitted) == multiset{}
  {
    InlineHasNoFiles(a, a.specs);
    MarkersHaveNoPaths(a, a.specs);
    var arts := InlineArts(a, a.specs);
    if a.wantDiff && !a.design && a.diff != [] {
      assert (arts + [GitDiff(a.diff)])[..|arts|] == arts;
    } else {
      assert arts + [] == arts;
    }
    assert [] + SuppressedSpecs(a, a.specs) == SuppressedSpecs(a, a.specs);
  }

  function FilesOf(a: Ask): seq<Candidate> { Files(SourcesOf(a), Hidden(a)) }

  /** The security error comes before every other; the size error comes exactly if the inline bytes
      do not fit, a required file exceeds the file limit, or inline and required bytes do not fit. */
  lemma BuildFailsExactly(a: Ask, files: map<Path, File>, limit: nat)
    ensures Build(a, files, limit) == Failure(SecurityError)
            <==> (!a.rootOk || exists i :: 0 <= i < |SourcesOf(a)| && Refused(SourcesOf(a)[i].selector, Hidden(a)))
    ensures var e := Env(files, Budget(a), limit);
            Build(a, files, limit) == Failure(TooLargeError)
            <==> (&& a.rootOk && !AnyRefused(SourcesOf(a), Hidden(a))
                  && (RequiredOversize(FilesOf(a), e)
                      || Sizes(Started(a).arts) + RequiredBytes(FilesOf(a), e) > a.requestBytes
                      || Sizes(Started(a).arts) + RequiredBytes(FilesOf(a), e) > a.manifestBytes))
  {
    if Started(a).total <= Budget(a) {
      FilesAre(SourcesOf(a), Hidden(a));
      FailsExactly(Started(a), FilesOf(a), Env(files, Budget(a), limit));
    }
  }

  lemma {:induction false} SortedOnce(cs: seq<Candidate>, path: Path)
    requires forall i, j | 0 <= i < j < |cs| :: cs[i].path != cs[j].path
    ensures PathsOf(cs)[path] == if exists i :: 0 <= i < |cs| && cs[i].path == path then 1 else 0
  {
    if cs != [] {
      var n := |cs| - 1;
      SortedOnce(cs[..n], path);
      if cs[n].path == path {
        forall i | 0 <= i < n ensures cs[..n][i].path != path {}
      } else if i :| 0 <= i < |cs| && cs[i].path == path {
        assert cs[..n][i].path == path;
      }
    }
  }

  lemma ReachedIsListed(ss: seq<Source>, hidden: set<Id>, path: Path, s: Source)
    requires s in ss && Reaching(s, hidden, path)
    ensures exists i :: 0 <= i < |Files(ss, hidden)| && Files(ss, hidden)[i].path == path
  {
    if Least(ss, hidden, path).None? { NoneReaches(ss, hidden, path); }
    var c := Candidate(path, Least(ss, hidden, path).value);
    LeastIsLeast(ss, hidden, path, c.priority);
    FilesAre(ss, hidden);
    assert c in Files(ss, hidden);
  }

  lemma OncePerFile(ss: seq<Source>, hidden: set<Id>, path: Path)
    ensures PathsOf(Files(ss, hidden))[path] == if exists s :: s in ss && Reaching(s, hidden, path) then 1 else 0
  {
    var cs := Files(ss, hidden);
    FilesAre(ss, hidden);
    GatheredIsLeast(ss, hidden, path);
    forall i, j | 0 <= i < j < |cs| ensures cs[i].path != cs[j].path {
      Before(cs, i, j);
      assert cs[i] in cs && cs[j] in cs;
    }
    SortedOnce(cs, path);
    if i :| 0 <= i < |cs| && cs[i].path == path {
      assert cs[i] in cs;
    }
    if s :| s in ss && Reaching(s, hidden, path) {
      ReachedIsListed(ss, hidden, path, s);
    }
  }

  /** A pack is within both budgets, its total is the sum of its sizes, and each file asked for
      under a name that is not hidden, and no other, is in it once: as an artifact or as an omission. */
  lemma BuildConserves(a: Ask, files: map<Path, File>, limit: nat)
    requires Build(a, files, limit).Success?
    ensures var r := Build(a, files, limit);
            && r.total == Sizes(r.arts) && r.total <= a.requestBytes && r.total <= a.manifestBytes
            && forall path :: (FilePaths(r.arts) + OmittedPaths(r.omitted))[path]
                              == if exists s :: s in SourcesOf(a) && Reaching(s, Hidden(a), path) then 1 else 0
  {
    var e, cs := Env(files, Budget(a), limit), FilesOf(a);
    StartedHasNoFiles(a);
    Conserves(Started(a), cs, e);
    TotalBounded(Started(a), cs, e);
    var r := Build(a, files, limit);
    assert FilePaths(r.arts) + OmittedPaths(r.omitted) == PathsOf(cs);
    forall path ensures PathsOf(cs)[path] == if exists s :: s in SourcesOf(a) && Reaching(s, Hidden(a), path) then 1 else 0 {
      OncePerFile(SourcesOf(a), Hidden(a), path);
    }
  }

  /** A NUL among the first 4096 bytes. */
  predicate LooksBinary(raw: seq<Byte>) {
    exists i :: 0 <= i < |raw| && i < 4096 && raw[i] == 0
  }

  lemma DefectIs(f: File, limit: nat)
    ensures Defect(f, limit) == Some(NotReadable) <==> f.Unreadable?
    ensures Defect(f, limit) == Some(Oversize) <==> f.Readable? && |f.raw| > limit
    ensures Defect(f, limit) == Some(Binary) <==> f.Readable? && |f.raw| <= limit && LooksBinary(f.raw)
    ensures Defect(f, limit) == Some(NotUtf8) <==> f.Readable? && |f.raw| <= limit && !LooksBinary(f.raw) && !f.utf8
    ensures Defect(f, limit) != Some(OverBudget)
  {
    if f.Readable? {
      var head := f.raw[..if |f.raw| < 4096 then |f.raw| else 4096];
      if LooksBinary(f.raw) {
        var i :| 0 <= i < |f.raw| && i < 4096 && f.raw[i] == 0;
        assert head[i] == 0;
      }
    }
  }

  /** Maximality and faithful reasons: every file asked for is left out as unreadable, too large,
      binary or undecodable, the first of these that is so; or it is whole in the context pack with its least
      priority; or it is not required and would still not fit in the space that is left. */
  lemma BuildIsMaximal(a: Ask, files: map<Path, File>, limit: nat, path: Path, p: Priority)
    requires Build(a, files, limit).Success? && IsLeast(SourcesOf(a), Hidden(a), path, p)
    ensures var r := Build(a, files, limit);
            var f := if path in files then files[path] else Unreadable;
            if f.Unreadable? then Omitted(NotReadable, path) in r.omitted
            else if |f.raw| > limit then Omitted(Oversize, path) in r.omitted && p != P0
            else if LooksBinary(f.raw) then Omitted(Binary, path) in r.omitted
            else if !f.utf8 then Omitted(NotUtf8, path) in r.omitted
            else
              || FromFile(path, p, f.raw) in r.arts
              || (Omitted(OverBudget, path) in r.omitted && p != P0
                  && (r.total + |f.raw| > a.requestBytes || r.total + |f.raw| > a.manifestBytes))
  {
    var e, cs := Env(files, Budget(a), limit), FilesOf(a);
    AllAccounted(Started(a), cs, e);
    FilesAre(SourcesOf(a), Hidden(a));
    var c := Candidate(path, p);
    assert c in cs;
    var i :| 0 <= i < |cs| && cs[i] == c;
    assert Accounted(Selected(Started(a), cs, e), cs[i], e);
    FailsExactly(Started(a), cs, e);
    DefectIs(FileAt(e, path), limit);
  }

  // ----------------------------------------------------- what is not a file

  lemma {:induction false} SelectedKeeps(s: Selection, cs: seq<Candidate>, e: Env)
    requires s.Selection? && Selected(s, cs, e).Selection?
    ensures var r := Selected(s, cs, e);
            s.arts <= r.arts && forall i | |s.arts| <= i < |r.arts| :: r.arts[i].FromFile?
  {
    if cs != [] { SelectedKeeps(s, cs[..|cs| - 1], e); }
  }

  lemma {:induction false} InlineAre(a: Ask, specs: seq<Spec>, x: Artifact)
    ensures x in InlineArts(a, specs) <==>
              exists i :: 0 <= i < |specs| && !Suppressed(a, specs[i]) && specs[i].WithContent?
                          && x == Inline(specs[i].title, specs[i].priority, specs[i].role, specs[i].content)
  {
    if specs != [] {
      var n := |specs| - 1;
      InlineAre(a, specs[..n], x);
      forall i | 0 <= i < n ensures specs[..n][i] == specs[i] {}
    }
  }

  /** Besides files a pack holds exactly the attached contents, as they came and with their own
      priority and role, but for candidate solutions in an independent design; and the git diff
      exactly if it is asked for, not empty, and the request is no independent design. */
  lemma BuildKeepsAttachments(a: Ask, files: map<Path, File>, limit: nat, x: Artifact)
    requires Build(a, files, limit).Success? && !x.FromFile?
    ensures x in Build(a, files, limit).arts <==>
              (|| (exists i :: 0 <= i < |a.specs| && a.specs[i].WithContent? && !(a.design && a.specs[i].role.CandidateSolution?)
                     && x == Inline(a.specs[i].title, a.specs[i].priority, a.specs[i].role, a.specs[i].content))
               || (x == GitDiff(a.diff) && a.wantDiff && a.diff != [] && !a.design))
  {
    InlineAre(a, a.specs, x);
    var s, r := Started(a), Build(a, files, limit);
    SelectedKeeps(s, FilesOf(a), Env(files, Budget(a), limit));
    if x in r.arts {
      var i :| 0 <= i < |r.arts| && r.arts[i] == x;
      assert i < |s.arts| && s.arts[i] == x;
    }
    if x in s.arts {
      var i :| 0 <= i < |s.arts| && s.arts[i] == x;
      assert r.arts[i] == x;
    }
  }

  /** The attachments an independent design looks at. */
  function Shown(a: Ask, specs: seq<Spec>): seq<Spec> {
    if specs == [] then []
    else Shown(a, specs[..|specs| - 1]) + if Suppressed(a, specs[|specs| - 1]) then [] else [specs[|specs| - 1]]
  }

  lemma {:induction false} ShownDecides(a: Ask, specs: seq<Spec>)
    ensures InlineArts(a, specs) == InlineArts(a, Shown(a, specs)) && OfSpecs(a, specs) == OfSpecs(a, Shown(a, specs))
  {
    if specs != [] {
      var n := |specs| - 1;
      ShownDecides(a, specs[..n]);
      var kept := Shown(a, specs);
      if Suppressed(a, specs[n]) {
        assert kept == Shown(a, specs[..n]);
      } else {
        assert kept[..|kept| - 1] == Shown(a, specs[..n]);
      }
    }
  }

  lemma {:induction false} DesignAlike(a: Ask, b: Ask, specs: seq<Spec>)
    requires a.design && b.design
    ensures InlineArts(a, specs) == InlineArts(b, specs) && OfSpecs(a, specs) == OfSpecs(b, specs)
  {
    if specs != [] { DesignAlike(a, b, specs[..|specs| - 1]); }
  }

  lemma {:induction false} OmissionsDoNotDecide(s: Selection, t: Selection, cs: seq<Candidate>, e: Env)
    requires s.Selection? && t.Selection? && s.arts == t.arts && s.total == t.total
    ensures var u, v := Selected(s, cs, e), Selected(t, cs, e);
            && (u.TooLarge? <==> v.TooLarge?) && (u.Selection? ==> u.arts == v.arts && u.total == v.total)
  {
    if cs != [] { OmissionsDoNotDecide(s, t, cs[..|cs| - 1], e); }
  }

  /** An independent design does not depend on what it must not see: two requests that differ only
      in include patterns, in the git diff and in the bodies of candidate solutions get the same
      artifacts or the same error. */
  lemma DesignIsIndependent(a: Ask, b: Ask, files: map<Path, File>, limit: nat)
    requires a.design && b.design && a.rootOk == b.rootOk && a.requirements == b.requirements
    requires Budget(a) == Budget(b) && Hidden(a) == Hidden(b) && Shown(a, a.specs) == Shown(b, b.specs)
    ensures match (Build(a, files, limit), Build(b, files, limit))
            case (Success(arts, _, total, met), Success(arts', _, total', met')) => arts == arts' && total == total' && met == met'
            case (Failure(e), Failure(e')) => e == e'
            case _ => false
  {
    ShownDecides(a, a.specs);
    ShownDecides(b, b.specs);
    DesignAlike(a, b, Shown(a, a.specs));
    assert SourcesOf(a) == SourcesOf(b) && Started(a).arts == Started(b).arts;
    OmissionsDoNotDecide(Started(a), Started(b), FilesOf(a), Env(files, Budget(a), limit));
  }

  lemma {:induction false} SatisfiedAre(rs: seq<Requirement>, arts: seq<Artifact>, id: Id)
    ensures id in Satisfied(rs, arts) <==> exists r :: r in rs && r.id == id && Met(r, arts)
  {
    if rs != [] {
      var n := |rs| - 1;
      SatisfiedAre(rs[..n], arts, id);
      assert rs == rs[..n] + [rs[n]];
    }
  }

  /** A pack meets every required requirement and lists exactly those it meets. */
  lemma BuildMeetsRequirements(a: Ask, files: map<Path, File>, limit: nat)
    requires Build(a, files, limit).Success?
    ensures var r := Build(a, files, limit);
            && (forall q | q in a.requirements && q.required :: Met(q, r.arts) && q.id in r.satisfied)
            && (forall id :: id in r.satisfied <==> exists q :: q in a.requirements && q.id == id && Met(q, r.arts))
  {
    var r := Build(a, files, limit);
    forall id ensures id in r.satisfied <==> exists q :: q in a.requirements && q.id == id && Met(q, r.arts) {
      SatisfiedAre(a.requirements, r.arts, id);
    }
  }
}
