/** context_builder.py on values: which files a request and a manifest ask for, in what order they
    are visited, and what the byte budget lets through. */
module Context {
  import opened Records
  import Sorting

  /** Canonical paths, numbered in the order of their strings. */
  type Path = int

  datatype Priority = P0 | P1 | P2 | P3 | P4

  function Rank(p: Priority): int {
    match p case P0 => 0 case P1 => 1 case P2 => 2 case P3 => 3 case P4 => 4
  }

  // ------------------------------------------------------------- collection

  /** Where a selector led: a file under the root, or outside it. */
  datatype Target = Outside | Inside(path: Path)

  /** A file reached under a name; names are compared after normalisation. */
  datatype Hit = Hit(name: Id, target: Target)

  /** An exact path, a pattern or a search: malformed, or with the files it reaches. */
  datatype Selector = Unsafe | Reaches(hits: seq<Hit>)

  datatype Source = Source(selector: Selector, priority: Priority)

  datatype Candidate = Candidate(path: Path, priority: Priority)

  /** The dictionary from paths to priorities, in insertion order. */
  type Table = seq<Candidate>

  /** The place of a path, or the length of the table. */
  function Find(t: Table, path: Path): (i: nat)
    ensures i <= |t|
    ensures i < |t| ==> t[i].path == path
    ensures forall j | 0 <= j < i :: t[j].path != path
  {
    FirstWhere(t, (c: Candidate) => c.path == path)
  }

  /** `_add_candidate`. */
  function Added(t: Table, path: Path, priority: Priority): Table {
    var i := Find(t, path);
    if i == |t| then t + [Candidate(path, priority)]
    else if Rank(priority) < Rank(t[i].priority) then t[i := Candidate(path, priority)]
    else t
  }

  predicate Counts(h: Hit, hidden: set<Id>) { h.name !in hidden && h.target.Inside? }

  /** A selector stops the build if it is malformed or leads outside the root under a name that is
      not hidden. */
  predicate Refused(s: Selector, hidden: set<Id>) {
    s.Unsafe? || exists i :: 0 <= i < |s.hits| && s.hits[i].name !in hidden && s.hits[i].target.Outside?
  }

  function AddedHits(t: Table, hits: seq<Hit>, priority: Priority, hidden: set<Id>): Table {
    if hits == [] then t
    else
      var before := AddedHits(t, hits[..|hits| - 1], priority, hidden);
      var h := hits[|hits| - 1];
      if Counts(h, hidden) then Added(before, h.target.path, priority) else before
  }

  function Gathered(t: Table, sources: seq<Source>, hidden: set<Id>): Table {
    if sources == [] then t
    else
      var before := Gathered(t, sources[..|sources| - 1], hidden);
      var s := sources[|sources| - 1];
      if s.selector.Unsafe? then before else AddedHits(before, s.selector.hits, s.priority, hidden)
  }

  // ------------------------------------------------------------------- sort

  function VisitKey(c: Candidate): Sorting.Key { (Rank(c.priority), c.path) }

  /** By priority, then by path. */
  function Ordered(t: Table): seq<Candidate> { Sorting.Sorted(t, VisitKey) }

  // ----------------------------------------------------------------- budget

  datatype File = Unreadable | Readable(raw: seq<Byte>, utf8: bool)

  datatype Role = ContextRole | RequirementRole | CandidateSolution | EvidenceRole

  datatype Artifact =
    | FromFile(path: Path, priority: Priority, content: seq<Byte>)
    | Inline(title: Path, priority: Priority, role: Role, content: seq<Byte>)
    | GitDiff(content: seq<Byte>)

  datatype Reason = NotReadable | Oversize | Binary | NotUtf8 | OverBudget

  datatype Omission = IncludesSuppressed | CandidateSuppressed | Omitted(reason: Reason, path: Path)

  /** What the loop knows: the files, the byte budget and the limit for one file. */
  datatype Env = Env(files: map<Path, File>, budget: nat, limit: nat)

  function FileAt(e: Env, path: Path): File { if path in e.files then e.files[path] else Unreadable }

  /** Why a file is left out whatever the budget, in the order the checks are made. */
  function Defect(f: File, limit: nat): Option<Reason> {
    if f.Unreadable? then Some(NotReadable)
    else if |f.raw| > limit then Some(Oversize)
    else if 0 in f.raw[..if |f.raw| < 4096 then |f.raw| else 4096] then Some(Binary)
    else if !f.utf8 then Some(NotUtf8)
    else None
  }

  datatype Selection = TooLarge | Selection(arts: seq<Artifact>, omitted: seq<Omission>, total: nat)

  /** One turn of the loop. */
  function Visited(s: Selection, c: Candidate, e: Env): Selection {
    if s.TooLarge? then s
    else
      var f := FileAt(e, c.path);
      match Defect(f, e.limit)
      case Some(reason) =>
        if reason.Oversize? && c.priority.P0? then TooLarge
        else s.(omitted := s.omitted + [Omitted(reason, c.path)])
      case None =>
        if s.total + |f.raw| > e.budget then
          if c.priority.P0? then TooLarge else s.(omitted := s.omitted + [Omitted(OverBudget, c.path)])
        else
          s.(arts := s.arts + [FromFile(c.path, c.priority, f.raw)], total := s.total + |f.raw|)
  }

  function Selected(s: Selection, cs: seq<Candidate>, e: Env): Selection {
    if cs == [] then s else Visited(Selected(s, cs[..|cs| - 1], e), cs[|cs| - 1], e)
  }

  // ------------------------------------------------------------ whole build

  /** `names`, `globs`, `diff` and `contents` say which artifact paths, whether the diff's, and which
      contents meet the requirement. */
  datatype Requirement = Requirement(
    id: Id,
    priority: Priority,
    required: bool,
    exact: seq<Selector>,
    patterns: seq<Selector>,
    search: Option<Selector>,
    names: set<Path>,
    globs: set<Path>,
    diff: bool,
    contents: set<seq<Byte>>)

  /** An attachment: with its content, or a path with what the path leads to. */
  datatype Spec =
    | WithContent(title: Path, priority: Priority, role: Role, content: seq<Byte>, name: Option<Id>)
    | WithPath(selector: Selector, priority: Priority, role: Role, name: Option<Id>)

  /** `diff` is what git prints, empty if it fails. */
  datatype Ask = Ask(
    rootOk: bool,
    design: bool,
    includes: seq<Selector>,
    requirements: seq<Requirement>,
    specs: seq<Spec>,
    wantDiff: bool,
    diff: seq<Byte>,
    requestBytes: nat,
    manifestBytes: nat)

  datatype BuildError = SecurityError | TooLargeError | RequirementError

  datatype Built = Failure(error: BuildError) | Success(arts: seq<Artifact>, omitted: seq<Omission>, total: nat, satisfied: seq<Id>)

  function Tagged(ss: seq<Selector>, p: Priority): (r: seq<Source>)
    ensures |r| == |ss| && forall i | 0 <= i < |ss| :: r[i] == Source(ss[i], p)
  {
    seq(|ss|, i requires 0 <= i < |ss| => Source(ss[i], p))
  }

  function OfRequirement(r: Requirement): seq<Source> {
    Tagged(r.exact, r.priority) + Tagged(r.patterns, r.priority)
    + (if r.search.Some? then [Source(r.search.value, r.priority)] else [])
  }

  function OfRequirements(rs: seq<Requirement>): seq<Source> {
    if rs == [] then [] else OfRequirements(rs[..|rs| - 1]) + OfRequirement(rs[|rs| - 1])
  }

  predicate Suppressed(a: Ask, s: Spec) { a.design && s.role.CandidateSolution? }

  /** The names an independent design must not reach. */
  function Hidden(a: Ask): set<Id> {
    set s | s in a.specs && Suppressed(a, s) && s.name.Some? :: s.name.value
  }

  function SpecSource(a: Ask, s: Spec): seq<Source> {
    if s.WithPath? && !Suppressed(a, s) then [Source(s.selector, s.priority)] else []
  }

  function SpecArtifact(a: Ask, s: Spec): seq<Artifact> {
    if s.WithContent? && !Suppressed(a, s) then [Inline(s.title, s.priority, s.role, s.content)] else []
  }

  function SpecOmission(a: Ask, s: Spec): seq<Omission> {
    if Suppressed(a, s) then [CandidateSuppressed] else []
  }

  function OfSpecs(a: Ask, specs: seq<Spec>): seq<Source> {
    if specs == [] then [] else OfSpecs(a, specs[..|specs| - 1]) + SpecSource(a, specs[|specs| - 1])
  }

  /** Everything that asks for files, in the order it is looked at. */
  function SourcesOf(a: Ask): seq<Source> {
    (if a.design then [] else Tagged(a.includes, P1)) + OfRequirements(a.requirements) + OfSpecs(a, a.specs)
  }

  function InlineArts(a: Ask, specs: seq<Spec>): seq<Artifact> {
    if specs == [] then [] else InlineArts(a, specs[..|specs| - 1]) + SpecArtifact(a, specs[|specs| - 1])
  }

  function SuppressedSpecs(a: Ask, specs: seq<Spec>): seq<Omission> {
    if specs == [] then [] else SuppressedSpecs(a, specs[..|specs| - 1]) + SpecOmission(a, specs[|specs| - 1])
  }

  function Sizes(arts: seq<Artifact>): nat {
    if arts == [] then 0 else Sizes(arts[..|arts| - 1]) + |arts[|arts| - 1].content|
  }

  /** The context pack before any file is read. */
  function Started(a: Ask): (s: Selection)
    ensures s.Selection?
  {
    var arts := InlineArts(a, a.specs) + if a.wantDiff && !a.design && a.diff != [] then [GitDiff(a.diff)] else [];
    var omitted := (if a.design && a.includes != [] then [IncludesSuppressed] else []) + SuppressedSpecs(a, a.specs);
    Selection(arts, omitted, Sizes(arts))
  }

  function Budget(a: Ask): nat { if a.requestBytes < a.manifestBytes then a.requestBytes else a.manifestBytes }

  predicate Meets(r: Requirement, art: Artifact) {
    || (art.FromFile? && (art.path in r.names || art.path in r.globs))
    || (art.Inline? && (art.title in r.names || art.title in r.globs))
    || (art.GitDiff? && r.diff)
    || art.content in r.contents
  }

  predicate Met(r: Requirement, arts: seq<Artifact>) {
    exists i :: 0 <= i < |arts| && Meets(r, arts[i])
  }

  predicate Unmet(rs: seq<Requirement>, arts: seq<Artifact>) {
    exists i :: 0 <= i < |rs| && rs[i].required && !Met(rs[i], arts)
  }

  function Satisfied(rs: seq<Requirement>, arts: seq<Artifact>): seq<Id> {
    if rs == [] then []
    else Satisfied(rs[..|rs| - 1], arts) + if Met(rs[|rs| - 1], arts) then [rs[|rs| - 1].id] else []
  }

  predicate AnyRefused(sources: seq<Source>, hidden: set<Id>) {
    exists i :: 0 <= i < |sources| && Refused(sources[i].selector, hidden)
  }

  /** `ContextBuilder.build`. */
  function Build(a: Ask, files: map<Path, File>, limit: nat): Built {
    if !a.rootOk || AnyRefused(SourcesOf(a), Hidden(a)) then Failure(SecurityError)
    else if Started(a).total > Budget(a) then Failure(TooLargeError)
    else
      var cs := Ordered(Gathered([], SourcesOf(a), Hidden(a)));
      var s := Selected(Started(a), cs, Env(files, Budget(a), limit));
      if s.TooLarge? then Failure(TooLargeError)
      else if Unmet(a.requirements, s.arts) then Failure(RequirementError)
      else Success(s.arts, s.omitted, s.total, Satisfied(a.requirements, s.arts))
  }
}
