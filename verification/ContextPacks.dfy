/** What a context pack holds, said of the request and the manifest alone: which files are asked for and how
    urgently, which names a design must not follow, what the budget lets through and why, and what meets a
    requirement. */
module ContextPacks {
  import opened Records
  import Sorting
  import opened Context
  import opened ContextProofs

  // ------------------------------------------------------- what is asked for

  /** The order of priorities. */
  predicate Sooner(p: Priority, q: Priority) {
    || (p.P0? && !q.P0?)
    || (p.P1? && (q.P2? || q.P3? || q.P4?))
    || (p.P2? && (q.P3? || q.P4?))
    || (p.P3? && q.P4?)
  }

  /** The request or the manifest asks for what a selector reaches, with a priority: include patterns with P1
      unless the request is a design, the selectors of a requirement with its priority, attached paths with
      theirs unless they are the candidate solutions of a design. */
  ghost predicate Wanted(a: Ask, s: Source) {
    || (!a.design && s.priority.P1? && s.selector in a.includes)
    || (exists q :: q in a.requirements && s.priority == q.priority
                    && (s.selector in q.exact || s.selector in q.patterns || q.search == Some(s.selector)))
    || (exists x :: x in a.specs && x.WithPath? && !(a.design && x.role.CandidateSolution?)
                    && s.selector == x.selector && s.priority == x.priority)
  }

  /** The path of an attached candidate solution. */
  ghost predicate CandidateName(specs: seq<Spec>, name: Id) {
    exists x :: x in specs && x.role.CandidateSolution? && x.name == Some(name)
  }

  /** A design does not follow the names of candidate solutions. */
  ghost predicate Follows(a: Ask, name: Id) { a.design ==> !CandidateName(a.specs, name) }

  /** The selector reaches the file under a name that may be followed. */
  ghost predicate LeadsTo(a: Ask, s: Source, path: Path) {
    s.selector.Reaches? && exists h :: h in s.selector.hits && h.target == Inside(path) && Follows(a, h.name)
  }

  ghost predicate AskedFor(a: Ask, path: Path) { exists s :: Wanted(a, s) && LeadsTo(a, s, path) }

  /** The file is asked for with this priority, and with no sooner one. */
  ghost predicate AskedWith(a: Ask, path: Path, p: Priority) {
    && (exists s :: Wanted(a, s) && LeadsTo(a, s, path) && s.priority == p)
    && (forall s | Wanted(a, s) && LeadsTo(a, s, path) :: !Sooner(s.priority, p))
  }

  /** Some selector is malformed or leads out of the root under a name that may be followed. */
  ghost predicate Strays(a: Ask) {
    exists s :: Wanted(a, s)
      && (s.selector.Unsafe? || exists h :: h in s.selector.hits && h.target.Outside? && Follows(a, h.name))
  }

  lemma RankIs(p: Priority, q: Priority)
    ensures Sooner(p, q) <==> Rank(p) < Rank(q)
  {
  }

  lemma TaggedAre(ss: seq<Selector>, p: Priority, s: Source)
    ensures s in Tagged(ss, p) <==> s.selector in ss && s.priority == p
  {
    if s.selector in ss && s.priority == p {
      var i :| 0 <= i < |ss| && ss[i] == s.selector;
      assert Tagged(ss, p)[i] == s;
    }
  }

  lemma OfRequirementIs(q: Requirement, s: Source)
    ensures s in OfRequirement(q)
       <==> (s.priority == q.priority && (s.selector in q.exact || s.selector in q.patterns || q.search == Some(s.selector)))
  {
    TaggedAre(q.exact, q.priority, s);
    TaggedAre(q.patterns, q.priority, s);
  }

  lemma {:induction false} OfRequirementsAre(rs: seq<Requirement>, s: Source)
    ensures s in OfRequirements(rs) <==> exists q :: q in rs && s in OfRequirement(q)
  {
    if rs != [] {
      var n := |rs| - 1;
      OfRequirementsAre(rs[..n], s);
      assert forall q :: q in rs <==> q in rs[..n] || q == rs[n] by { assert rs == rs[..n] + [rs[n]]; }
    }
  }

  lemma {:induction false} OfSpecsAre(a: Ask, specs: seq<Spec>, s: Source)
    ensures s in OfSpecs(a, specs) <==> exists x :: x in specs && s in SpecSource(a, x)
  {
    if specs != [] {
      var n := |specs| - 1;
      OfSpecsAre(a, specs[..n], s);
      assert forall x :: x in specs <==> x in specs[..n] || x == specs[n] by { assert specs == specs[..n] + [specs[n]]; }
    }
  }

  lemma RequirementsWant(rs: seq<Requirement>, s: Source)
    ensures s in OfRequirements(rs)
       <==> exists q :: q in rs && s.priority == q.priority
                        && (s.selector in q.exact || s.selector in q.patterns || q.search == Some(s.selector))
  {
    OfRequirementsAre(rs, s);
    forall q ensures s in OfRequirement(q)
                <==> (s.priority == q.priority && (s.selector in q.exact || s.selector in q.patterns || q.search == Some(s.selector)))
    {
      OfRequirementIs(q, s);
    }
  }

  /** The builder looks at exactly the selectors that are wanted. */
  lemma SourcesAreWanted(a: Ask, s: Source)
    ensures s in SourcesOf(a) <==> Wanted(a, s)
  {
    TaggedAre(a.includes, P1, s);
    RequirementsWant(a.requirements, s);
    OfSpecsAre(a, a.specs, s);
  }

  /** The builder hides exactly the names of candidate solutions, and those only in a design. */
  lemma HiddenAre(a: Ask, name: Id)
    ensures name !in Hidden(a) <==> Follows(a, name)
  {
    if name in Hidden(a) {
      var x :| x in a.specs && Suppressed(a, x) && x.name.Some? && x.name.value == name;
      assert CandidateName(a.specs, name);
    }
    if !Follows(a, name) {
      var x :| x in a.specs && x.role.CandidateSolution? && x.name == Some(name);
      assert Suppressed(a, x);
    }
  }

  lemma ReachingLeads(a: Ask, s: Source, path: Path)
    ensures Reaching(s, Hidden(a), path) <==> LeadsTo(a, s, path)
  {
    if Reaching(s, Hidden(a), path) {
      var i :| 0 <= i < |s.selector.hits| && ReachedAt(s.selector.hits[i], Hidden(a), path);
      HiddenAre(a, s.selector.hits[i].name);
      assert s.selector.hits[i] in s.selector.hits;
    }
    if LeadsTo(a, s, path) {
      var h :| h in s.selector.hits && h.target == Inside(path) && Follows(a, h.name);
      HiddenAre(a, h.name);
      var i :| 0 <= i < |s.selector.hits| && s.selector.hits[i] == h;
      assert ReachedAt(s.selector.hits[i], Hidden(a), path);
    }
  }

  lemma LeastIsAsked(a: Ask, path: Path, p: Priority)
    ensures IsLeast(SourcesOf(a), Hidden(a), path, p) <==> AskedWith(a, path, p)
    ensures (exists s :: s in SourcesOf(a) && Reaching(s, Hidden(a), path)) <==> AskedFor(a, path)
  {
    forall s: Source ensures s in SourcesOf(a) <==> Wanted(a, s) { SourcesAreWanted(a, s); }
    forall s: Source ensures Reaching(s, Hidden(a), path) <==> LeadsTo(a, s, path) { ReachingLeads(a, s, path); }
    forall q: Priority ensures Sooner(q, p) <==> Rank(q) < Rank(p) { RankIs(q, p); }
  }

  lemma RefusedStrays(a: Ask)
    ensures AnyRefused(SourcesOf(a), Hidden(a)) <==> Strays(a)
  {
    if AnyRefused(SourcesOf(a), Hidden(a)) {
      var i :| 0 <= i < |SourcesOf(a)| && Refused(SourcesOf(a)[i].selector, Hidden(a));
      var s := SourcesOf(a)[i];
      SourcesAreWanted(a, s);
      if s.selector.Reaches? {
        var j :| 0 <= j < |s.selector.hits| && s.selector.hits[j].name !in Hidden(a) && s.selector.hits[j].target.Outside?;
        HiddenAre(a, s.selector.hits[j].name);
        assert s.selector.hits[j] in s.selector.hits;
      }
    }
    if Strays(a) {
      var s :| Wanted(a, s)
        && (s.selector.Unsafe? || exists h :: h in s.selector.hits && h.target.Outside? && Follows(a, h.name));
      SourcesAreWanted(a, s);
      var i :| 0 <= i < |SourcesOf(a)| && SourcesOf(a)[i] == s;
      if s.selector.Reaches? {
        var h :| h in s.selector.hits && h.target.Outside? && Follows(a, h.name);
        HiddenAre(a, h.name);
        var j :| 0 <= j < |s.selector.hits| && s.selector.hits[j] == h;
      }
      assert Refused(SourcesOf(a)[i].selector, Hidden(a));
    }
  }

  // --------------------------------------------------------------- whole packs

  /** A build ends in the security error exactly if the root is unusable or a selector strays. */
  lemma StraysExactly(a: Ask, files: map<Path, File>, limit: nat)
    ensures Build(a, files, limit) == Failure(SecurityError) <==> !a.rootOk || Strays(a)
  {
    RefusedStrays(a);
  }

  /** A pack is within the budget of the request and that of the manifest, its total is the sum of its sizes,
      and it accounts once for each file that is asked for, as an artifact or as an omission, and for no other. */
  lemma PackConserves(a: Ask, files: map<Path, File>, limit: nat, path: Path)
    requires Build(a, files, limit).Success?
    ensures var r := Build(a, files, limit);
            && r.total == Sizes(r.arts) && r.total <= a.requestBytes && r.total <= a.manifestBytes
            && (FilePaths(r.arts) + OmittedPaths(r.omitted))[path] == if AskedFor(a, path) then 1 else 0
  {
    BuildConserves(a, files, limit);
    LeastIsAsked(a, path, P0);
  }

  /** Sizes add up. */
  lemma {:induction false} SizesAdd(x: seq<Artifact>, y: seq<Artifact>)
    ensures Sizes(x + y) == Sizes(x) + Sizes(y)
    ensures |x| == 1 ==> Sizes(x) == |x[0].content|
  {
    if |x| == 1 { assert x[..0] == []; }
    if y == [] {
      assert x + y == x;
    } else {
      SizesAdd(x, y[..|y| - 1]);
      assert (x + y)[..|x + y| - 1] == x + y[..|y| - 1];
    }
  }

  /** Every file that is asked for is left out as unreadable, too large, binary or undecodable, the first of
      these that is so; or it is whole in the context pack with its soonest priority; or it is not required and would
      still not fit in the space that is left. */
  lemma PackIsMaximal(a: Ask, files: map<Path, File>, limit: nat, path: Path, p: Priority)
    requires Build(a, files, limit).Success? && AskedWith(a, path, p)
    ensures var r := Build(a, files, limit);
            var f := if path in files then files[path] else Unreadable;
            if f.Unreadable? then Omitted(NotReadable, path) in r.omitted
            else if |f.raw| > limit then Omitted(Oversize, path) in r.omitted && p != P0
            else if LooksBinary(f.raw) then Omitted(Binary, path) in r.omitted
            else if !f.utf8 then Omitted(NotUtf8, path) in r.omitted
            else
              || FromFile(path, p, f.raw) in r.arts
              || (Omitted(OverBudget, path) in r.omitted && p != P0
                  && (r.total + |f.raw| > a.requestBytes || r.total + |f.raw| > a.manifestBytes))
  {
    LeastIsAsked(a, path, p);
    BuildIsMaximal(a, files, limit, path, p);
  }

  lemma {:induction false} FileIsCounted(arts: seq<Artifact>, x: Artifact)
    requires x in arts && x.FromFile?
    ensures FilePaths(arts)[x.path] > 0
  {
    if arts[|arts| - 1] != x { FileIsCounted(arts[..|arts| - 1], x); }
  }

  /** Whatever file of the root is in the context pack of a design is reached by a selector under a name that no
      candidate solution has. */
  lemma DesignSeesNoCandidate(a: Ask, files: map<Path, File>, limit: nat, x: Artifact)
    requires a.design && Build(a, files, limit).Success? && x in Build(a, files, limit).arts && x.FromFile?
    ensures exists s, h :: Wanted(a, s) && s.selector.Reaches? && h in s.selector.hits && h.target == Inside(x.path)
                           && !CandidateName(a.specs, h.name)
  {
    FileIsCounted(Build(a, files, limit).arts, x);
    PackConserves(a, files, limit, x.path);
    assert AskedFor(a, x.path);
    var s :| Wanted(a, s) && LeadsTo(a, s, x.path);
    var h :| h in s.selector.hits && h.target == Inside(x.path) && Follows(a, h.name);
  }

  // ---------------------------------------------------------- requirements

  /** The name an artifact is listed under. */
  function ListedAs(x: Artifact): Option<Path> {
    match x case FromFile(path, _, _) => Some(path) case Inline(title, _, _, _) => Some(title) case GitDiff(_) => None
  }

  /** The artifact meets the requirement: by its name, as one of the exact ones or matching a pattern, as the
      git diff, or by its content. */
  predicate Serves(q: Requirement, x: Artifact) {
    || (ListedAs(x).Some? && ListedAs(x).value in q.names + q.globs)
    || (q.diff && x.GitDiff?)
    || x.content in q.contents
  }

  /** A pack meets every required requirement and lists exactly those it meets. */
  lemma PackMeetsRequirements(a: Ask, files: map<Path, File>, limit: nat)
    requires Build(a, files, limit).Success?
    ensures var r := Build(a, files, limit);
            && (forall q | q in a.requirements && q.required :: exists x :: x in r.arts && Serves(q, x))
            && (forall id :: id in r.satisfied
                  <==> exists q, x :: q in a.requirements && q.id == id && x in r.arts && Serves(q, x))
  {
    var r := Build(a, files, limit);
    BuildMeetsRequirements(a, files, limit);
    forall q ensures Met(q, r.arts) <==> exists x :: x in r.arts && Serves(q, x) { MetIsServed(q, r.arts); }
  }

  lemma MetIsServed(q: Requirement, arts: seq<Artifact>)
    ensures Met(q, arts) <==> exists x :: x in arts && Serves(q, x)
  {
    forall x ensures Meets(q, x) <==> Serves(q, x) {}
    if Met(q, arts) {
      var i :| 0 <= i < |arts| && Meets(q, arts[i]);
      assert arts[i] in arts;
    }
  }

  /** The same request with no requirement required. */
  function Relaxed(a: Ask): Ask { a.(requirements := Optional(a.requirements)) }

  function Optional(rs: seq<Requirement>): seq<Requirement> {
    if rs == [] then [] else Optional(rs[..|rs| - 1]) + [rs[|rs| - 1].(required := false)]
  }

  lemma {:induction false} OptionalAsksTheSame(rs: seq<Requirement>)
    ensures OfRequirements(Optional(rs)) == OfRequirements(rs)
    ensures |Optional(rs)| == |rs| && forall i | 0 <= i < |rs| :: Optional(rs)[i] == rs[i].(required := false)
  {
    if rs != [] {
      var n := |rs| - 1;
      OptionalAsksTheSame(rs[..n]);
      assert Optional(rs)[..n] == Optional(rs[..n]);
      assert OfRequirement(rs[n].(required := false)) == OfRequirement(rs[n]);
    }
  }

  /** A build ends in the requirement error exactly if it would succeed with no requirement required, and what
      it would then pack does not meet a required one. */
  lemma UnmetExactly(a: Ask, files: map<Path, File>, limit: nat)
    ensures Build(a, files, limit) == Failure(RequirementError)
       <==> (&& Build(Relaxed(a), files, limit).Success?
             && exists q :: q in a.requirements && q.required
                            && forall x | x in Build(Relaxed(a), files, limit).arts :: !Serves(q, x))
  {
    RelaxedBuild(a, files, limit);
    if Build(Relaxed(a), files, limit).Success? { UnmetIs(a.requirements, Build(Relaxed(a), files, limit).arts); }
  }

  lemma RelaxedBuild(a: Ask, files: map<Path, File>, limit: nat)
    ensures var r, s := Build(a, files, limit), Build(Relaxed(a), files, limit);
            r == Failure(RequirementError) <==> s.Success? && Unmet(a.requirements, s.arts)
  {
    var b := Relaxed(a);
    RelaxedIsSame(a);
    BuildEnds(a, files, limit);
    BuildEnds(b, files, limit);
    assert Gathering(a) == Gathering(b) && Packing(a, files, limit) == Packing(b, files, limit);
    if Packing(a, files, limit).Selection? { NothingRequired(a.requirements, Packing(a, files, limit).arts); }
  }

  predicate Gathering(a: Ask) { a.rootOk && !AnyRefused(SourcesOf(a), Hidden(a)) && Started(a).total <= Budget(a) }

  function Packing(a: Ask, files: map<Path, File>, limit: nat): Selection {
    Selected(Started(a), Ordered(Gathered([], SourcesOf(a), Hidden(a))), Env(files, Budget(a), limit))
  }

  /** What a build comes to once it has gathered, and once it has packed. */
  lemma BuildEnds(a: Ask, files: map<Path, File>, limit: nat)
    ensures var r, s := Build(a, files, limit), Packing(a, files, limit);
            if Gathering(a) && s.Selection? then
              if Unmet(a.requirements, s.arts) then r == Failure(RequirementError) else r.Success? && r.arts == s.arts
            else r.Failure? && r.error != RequirementError
  {
  }

  lemma RelaxedIsSame(a: Ask)
    ensures var b := Relaxed(a);
            SourcesOf(a) == SourcesOf(b) && Hidden(a) == Hidden(b) && Started(a) == Started(b) && Budget(a) == Budget(b)
  {
    OptionalAsksTheSame(a.requirements);
    SameSpecs(a, Relaxed(a), a.specs);
  }

  lemma NothingRequired(rs: seq<Requirement>, arts: seq<Artifact>)
    ensures !Unmet(Optional(rs), arts)
  {
    OptionalAsksTheSame(rs);
  }

  lemma {:induction false} SameSpecs(a: Ask, b: Ask, specs: seq<Spec>)
    requires a.design == b.design
    ensures OfSpecs(a, specs) == OfSpecs(b, specs) && InlineArts(a, specs) == InlineArts(b, specs)
    ensures SuppressedSpecs(a, specs) == SuppressedSpecs(b, specs)
  {
    if specs != [] { SameSpecs(a, b, specs[..|specs| - 1]); }
  }

  lemma UnmetIs(rs: seq<Requirement>, arts: seq<Artifact>)
    ensures Unmet(rs, arts) <==> exists q :: q in rs && q.required && forall x | x in arts :: !Serves(q, x)
  {
    forall q ensures Met(q, arts) <==> exists x :: x in arts && Serves(q, x) { MetIsServed(q, arts); }
    if Unmet(rs, arts) {
      var i :| 0 <= i < |rs| && rs[i].required && !Met(rs[i], arts);
      assert rs[i] in rs;
    }
  }

  /** The requirements met are listed in the order of the manifest. */
  lemma {:induction false} SatisfiedInOrder(rs: seq<Requirement>, arts: seq<Artifact>)
    ensures rs != [] ==>
              Satisfied(rs, arts)
              == Satisfied(rs[..|rs| - 1], arts)
                 + if exists x :: x in arts && Serves(rs[|rs| - 1], x) then [rs[|rs| - 1].id] else []
  {
    if rs != [] { MetIsServed(rs[|rs| - 1], arts); }
  }

  // ------------------------------------------------------------ independence

  /** The attachments that are no candidate solutions, in order. */
  function Uncontested(specs: seq<Spec>): seq<Spec> {
    if specs == [] then []
    else Uncontested(specs[..|specs| - 1]) + if specs[|specs| - 1].role.CandidateSolution? then [] else [specs[|specs| - 1]]
  }

  lemma {:induction false} ShownAre(a: Ask, specs: seq<Spec>)
    requires a.design
    ensures Shown(a, specs) == Uncontested(specs)
  {
    if specs != [] { ShownAre(a, specs[..|specs| - 1]); }
  }

  /** An independent design does not depend on what it must not see: two requests that differ only in include
      patterns, in the git diff, and in the candidate solutions but for their names get the same artifacts or
      the same error. */
  lemma DesignsAreIndependent(a: Ask, b: Ask, files: map<Path, File>, limit: nat)
    requires a.design && b.design && a.rootOk == b.rootOk && a.requirements == b.requirements
    requires a.requestBytes == b.requestBytes && a.manifestBytes == b.manifestBytes
    requires forall name :: CandidateName(a.specs, name) <==> CandidateName(b.specs, name)
    requires Uncontested(a.specs) == Uncontested(b.specs)
    ensures match (Build(a, files, limit), Build(b, files, limit))
            case (Success(arts, _, total, met), Success(arts', _, total', met')) => arts == arts' && total == total' && met == met'
            case (Failure(e), Failure(e')) => e == e'
            case _ => false
  {
    forall name: Id ensures name in Hidden(a) <==> name in Hidden(b) {
      HiddenAre(a, name);
      HiddenAre(b, name);
    }
    assert Hidden(a) == Hidden(b);
    ShownAre(a, a.specs);
    ShownAre(b, b.specs);
    DesignIsIndependent(a, b, files, limit);
  }

  // ------------------------------------------------------ the order of the files

  /** The file of this priority and path is looked at before the other. */
  predicate Earlier(p: Priority, path: Path, q: Priority, other: Path) { Sooner(p, q) || (p == q && path < other) }

  lemma EarlierIsLess(c: Candidate, d: Candidate)
    ensures Sorting.Less(VisitKey(c), VisitKey(d)) <==> Earlier(c.priority, c.path, d.priority, d.path)
  {
    RankIs(c.priority, d.priority);
    RankIs(d.priority, c.priority);
  }

  /** The bytes in the context pack when a file of this priority and path is looked at. */
  function SpaceTaken(arts: seq<Artifact>, p: Priority, path: Path): nat {
    if arts == [] then 0
    else
      var x := arts[|arts| - 1];
      SpaceTaken(arts[..|arts| - 1], p, path) + if x.FromFile? && !Earlier(x.priority, x.path, p, path) then 0 else |x.content|
  }

  predicate AllEarlier(arts: seq<Artifact>, p: Priority, path: Path) {
    forall i | 0 <= i < |arts| && arts[i].FromFile? :: Earlier(arts[i].priority, arts[i].path, p, path)
  }

  lemma {:induction false} AllTaken(arts: seq<Artifact>, p: Priority, path: Path)
    requires AllEarlier(arts, p, path)
    ensures SpaceTaken(arts, p, path) == Sizes(arts)
  {
    if arts != [] {
      var n := |arts| - 1;
      assert forall i | 0 <= i < n :: arts[..n][i] == arts[i];
      AllTaken(arts[..n], p, path);
    }
  }

  /** What the loop has taken so far comes from the files it has seen. */
  lemma {:induction false} TakenSoFar(s: Selection, cs: seq<Candidate>, e: Env, x: Artifact)
    requires s.Selection? && Selected(s, cs, e).Selection? && x in Selected(s, cs, e).arts && x !in s.arts
    ensures x.FromFile? && Candidate(x.path, x.priority) in cs
  {
    if cs != [] {
      var before := Selected(s, cs[..|cs| - 1], e);
      if x in before.arts { TakenSoFar(s, cs[..|cs| - 1], e, x); }
    }
  }

  predicate NoFiles(s: Selection) { s.Selection? && forall i | 0 <= i < |s.arts| :: !s.arts[i].FromFile? }

  lemma TakenBefore(s: Selection, cs: seq<Candidate>, e: Env, n: nat)
    requires NoFiles(s) && n < |cs| && Ascending(cs) && Selected(s, cs[..n], e).Selection?
    ensures AllEarlier(Selected(s, cs[..n], e).arts, cs[n].priority, cs[n].path)
  {
    var before := Selected(s, cs[..n], e);
    forall i | 0 <= i < |before.arts| && before.arts[i].FromFile?
      ensures Earlier(before.arts[i].priority, before.arts[i].path, cs[n].priority, cs[n].path)
    {
      var x := before.arts[i];
      TakenSoFar(s, cs[..n], e, x);
      var j :| 0 <= j < n && cs[..n][j] == Candidate(x.path, x.priority);
      assert Sorting.Less(VisitKey(cs[j]), VisitKey(cs[n]));
      EarlierIsLess(cs[j], cs[n]);
    }
  }

  /** How the loop decided about a file, by the space taken when it was looked at. */
  predicate DecidedByOrder(r: Selection, c: Candidate, e: Env)
    requires r.Selection?
  {
    Eligible(c, e) ==>
      if SpaceTaken(r.arts, c.priority, c.path) + SizeOf(c, e) <= e.budget
      then FromFile(c.path, c.priority, FileAt(e, c.path).raw) in r.arts
      else Omitted(OverBudget, c.path) in r.omitted
  }

  lemma {:induction false} GreedyDecides(s: Selection, cs: seq<Candidate>, e: Env)
    requires NoFiles(s) && s.total == Sizes(s.arts) && Ascending(cs) && Selected(s, cs, e).Selection?
    ensures forall i | 0 <= i < |cs| :: DecidedByOrder(Selected(s, cs, e), cs[i], e)
  {
    if cs != [] {
      var n := |cs| - 1;
      var before, r := Selected(s, cs[..n], e), Selected(s, cs, e);
      GreedyDecides(s, cs[..n], e);
      forall i | 0 <= i < n ensures DecidedByOrder(r, cs[i], e) {
        assert cs[..n][i] == cs[i] && DecidedByOrder(before, cs[i], e);
        LaterTakesNothing(before, r, cs[i], cs[n], e);
      }
      TakenBefore(s, cs, e, n);
      AllTaken(before.arts, cs[n].priority, cs[n].path);
      Conserves(s, cs[..n], e);
      LastDecided(before, cs[n], e);
    }
  }

  lemma LaterTakesNothing(before: Selection, r: Selection, c: Candidate, last: Candidate, e: Env)
    requires before.Selection? && r == Visited(before, last, e) && r.Selection?
    requires Sorting.Less(VisitKey(c), VisitKey(last))
    ensures SpaceTaken(r.arts, c.priority, c.path) == SpaceTaken(before.arts, c.priority, c.path)
    ensures before.arts <= r.arts && before.omitted <= r.omitted
  {
    EarlierIsLess(last, c);
    EarlierIsLess(c, last);
    if r.arts != before.arts { assert r.arts[..|r.arts| - 1] == before.arts; }
  }

  lemma LastDecided(before: Selection, last: Candidate, e: Env)
    requires before.Selection? && Visited(before, last, e).Selection?
    requires SpaceTaken(before.arts, last.priority, last.path) == before.total
    ensures DecidedByOrder(Visited(before, last, e), last, e)
  {
    AddingItself(before.arts, last.priority, last.path, FileAt(e, last.path));
  }

  lemma AddingItself(arts: seq<Artifact>, p: Priority, path: Path, f: File)
    ensures f.Readable? ==> SpaceTaken(arts + [FromFile(path, p, f.raw)], p, path) == SpaceTaken(arts, p, path)
  {
    if f.Readable? {
      var more := arts + [FromFile(path, p, f.raw)];
      assert more[..|more| - 1] == arts;
    }
  }

  lemma StartedTakesNoFiles(a: Ask)
    ensures NoFiles(Started(a)) && Started(a).total == Sizes(Started(a).arts)
  {
    var arts := Started(a).arts;
    forall i | 0 <= i < |arts| ensures !arts[i].FromFile? {
      if i < |InlineArts(a, a.specs)| { InlineAre(a, a.specs, arts[i]); }
    }
  }

  /** What the budget lets through, exactly: a sound file that is asked for is in the context pack if and only if it fits
      beside the attachments and the packed files that come before it, by priority and then by path. */
  lemma PackIsGreedy(a: Ask, files: map<Path, File>, limit: nat, path: Path, p: Priority)
    requires Build(a, files, limit).Success? && AskedWith(a, path, p)
    requires path in files && files[path].Readable? && |files[path].raw| <= limit && files[path].utf8 && !LooksBinary(files[path].raw)
    ensures var r, size := Build(a, files, limit), |files[path].raw|;
            if SpaceTaken(r.arts, p, path) + size <= a.requestBytes && SpaceTaken(r.arts, p, path) + size <= a.manifestBytes
            then FromFile(path, p, files[path].raw) in r.arts
            else Omitted(OverBudget, path) in r.omitted
  {
    var e, cs := Env(files, Budget(a), limit), FilesOf(a);
    StartedTakesNoFiles(a);
    FilesAre(SourcesOf(a), Hidden(a));
    LeastIsAsked(a, path, p);
    GreedyDecides(Started(a), cs, e);
    var c := Candidate(path, p);
    assert c in cs;
    var i :| 0 <= i < |cs| && cs[i] == c;
    assert DecidedByOrder(Selected(Started(a), cs, e), cs[i], e);
    DefectIs(FileAt(e, path), limit);
  }

  /** The files of a pack stand in that order, after all attachments. */
  lemma {:induction false} FilesInOrder(s: Selection, cs: seq<Candidate>, e: Env, i: nat, j: nat)
    requires NoFiles(s) && Ascending(cs) && Selected(s, cs, e).Selection? && i < j < |Selected(s, cs, e).arts|
    requires Selected(s, cs, e).arts[i].FromFile?
    ensures var x, y := Selected(s, cs, e).arts[i], Selected(s, cs, e).arts[j];
            y.FromFile? && Earlier(x.priority, x.path, y.priority, y.path)
    decreases |cs|
  {
    if cs != [] {
      var n := |cs| - 1;
      var before := Selected(s, cs[..n], e);
      if j < |before.arts| {
        FilesInOrder(s, cs[..n], e, i, j);
      } else {
        TakenBefore(s, cs, e, n);
      }
    }
  }

  lemma PackIsOrdered(a: Ask, files: map<Path, File>, limit: nat, i: nat, j: nat)
    requires Build(a, files, limit).Success? && i < j < |Build(a, files, limit).arts|
    requires Build(a, files, limit).arts[i].FromFile?
    ensures var x, y := Build(a, files, limit).arts[i], Build(a, files, limit).arts[j];
            y.FromFile? && Earlier(x.priority, x.path, y.priority, y.path)
  {
    StartedTakesNoFiles(a);
    FilesAre(SourcesOf(a), Hidden(a));
    FilesInOrder(Started(a), FilesOf(a), Env(files, Budget(a), limit), i, j);
  }

  // ------------------------------------------------------------------- marks

  function CandidatesAmong(specs: seq<Spec>): nat {
    if specs == [] then 0 else CandidatesAmong(specs[..|specs| - 1]) + if specs[|specs| - 1].role.CandidateSolution? then 1 else 0
  }

  lemma {:induction false} SuppressedAreMarked(a: Ask, specs: seq<Spec>)
    ensures |SuppressedSpecs(a, specs)| == if a.design then CandidatesAmong(specs) else 0
    ensures forall o | o in SuppressedSpecs(a, specs) :: o.CandidateSuppressed?
  {
    if specs != [] { SuppressedAreMarked(a, specs[..|specs| - 1]); }
  }

  lemma {:induction false} LoopMarksPaths(s: Selection, cs: seq<Candidate>, e: Env)
    requires s.Selection? && Selected(s, cs, e).Selection?
    ensures var r := Selected(s, cs, e);
            s.omitted <= r.omitted && forall i | |s.omitted| <= i < |r.omitted| :: r.omitted[i].Omitted?
  {
    if cs != [] { LoopMarksPaths(s, cs[..|cs| - 1], e); }
  }

  /** A pack says what independence left out: first that there were include patterns, exactly if a design has
      some, then one mark for each candidate solution of a design; all that follow are files. */
  lemma PackMarksSuppressed(a: Ask, files: map<Path, File>, limit: nat)
    requires Build(a, files, limit).Success?
    ensures var os := Build(a, files, limit).omitted;
            var first := if a.design && a.includes != [] then 1 else 0;
            var marks := first + if a.design then CandidatesAmong(a.specs) else 0;
            && marks <= |os| && (first == 1 ==> os[0].IncludesSuppressed?)
            && (forall i | first <= i < marks :: os[i].CandidateSuppressed?)
            && (forall i | marks <= i < |os| :: os[i].Omitted?)
  {
    SuppressedAreMarked(a, a.specs);
    LoopMarksPaths(Started(a), FilesOf(a), Env(files, Budget(a), limit));
    var first := if a.design && a.includes != [] then [IncludesSuppressed] else [];
    assert Started(a).omitted == first + SuppressedSpecs(a, a.specs);
    MarksStand(first, SuppressedSpecs(a, a.specs), Build(a, files, limit).omitted);
  }

  lemma MarksStand(first: seq<Omission>, marks: seq<Omission>, os: seq<Omission>)
    requires first + marks <= os && (forall o | o in marks :: o.CandidateSuppressed?)
    requires first == [] || first == [IncludesSuppressed]
    ensures |first| + |marks| <= |os| && (|first| == 1 ==> os[0].IncludesSuppressed?)
    ensures forall i | |first| <= i < |first| + |marks| :: os[i].CandidateSuppressed?
  {
    assert forall i | 0 <= i < |first + marks| :: os[i] == (first + marks)[i];
    forall i | |first| <= i < |first| + |marks| ensures os[i].CandidateSuppressed? { assert os[i] == marks[i - |first|]; }
  }

  // -------------------------------------------------------------- attachments

  /** The attached contents a request may show, as they came. */
  function Attached(specs: seq<Spec>, design: bool): seq<Artifact> {
    if specs == [] then []
    else
      var x := specs[0];
      (if x.WithPath? || (design && x.role.CandidateSolution?) then [] else [Inline(x.title, x.priority, x.role, x.content)])
      + Attached(specs[1..], design)
  }

  lemma {:induction false} AttachedMore(specs: seq<Spec>, x: Spec, design: bool)
    ensures Attached(specs + [x], design) == Attached(specs, design) + Attached([x], design)
  {
    if specs == [] {
      assert specs + [x] == [x];
    } else {
      assert (specs + [x])[1..] == specs[1..] + [x];
      AttachedMore(specs[1..], x, design);
    }
  }

  lemma {:induction false} InlineIsAttached(a: Ask, specs: seq<Spec>)
    ensures InlineArts(a, specs) == Attached(specs, a.design)
  {
    if specs != [] {
      var n := |specs| - 1;
      InlineIsAttached(a, specs[..n]);
      AttachedMore(specs[..n], specs[n], a.design);
      assert specs == specs[..n] + [specs[n]];
      assert [specs[n]][1..] == [];
    }
  }

  /** A pack begins with the attached contents in their order, then the git diff if one is wanted, there is one
      and the request is no design; all that follow are files of the root. */
  lemma PackBeginsWithAttachments(a: Ask, files: map<Path, File>, limit: nat)
    requires Build(a, files, limit).Success?
    ensures var arts := Build(a, files, limit).arts;
            var first := Attached(a.specs, a.design) + if a.wantDiff && a.diff != [] && !a.design then [GitDiff(a.diff)] else [];
            first <= arts && forall i | |first| <= i < |arts| :: arts[i].FromFile?
  {
    InlineIsAttached(a, a.specs);
    SelectedKeeps(Started(a), FilesOf(a), Env(files, Budget(a), limit));
  }
}
