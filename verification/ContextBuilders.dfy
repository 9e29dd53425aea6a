/** context_builder.py as it runs: a dictionary of candidates filled in place, loops over the
    collectors, and the loop over the ordered files. */
module ContextBuilders {
  import opened Records
  import opened Context

  lemma {:induction false} GatheredThen(t: Table, xs: seq<Source>, ys: seq<Source>, hidden: set<Id>)
    ensures Gathered(t, xs + ys, hidden) == Gathered(Gathered(t, xs, hidden), ys, hidden)
  {
    if ys == [] {
      assert xs + ys == xs;
    } else {
      GatheredThen(t, xs, ys[..|ys| - 1], hidden);
      assert (xs + ys)[..|xs + ys| - 1] == xs + ys[..|ys| - 1];
    }
  }

  lemma RefusedThen(xs: seq<Source>, ys: seq<Source>, hidden: set<Id>)
    ensures AnyRefused(xs + ys, hidden) <==> AnyRefused(xs, hidden) || AnyRefused(ys, hidden)
  {
    forall i | 0 <= i < |xs| ensures (xs + ys)[i] == xs[i] {}
    forall i | 0 <= i < |ys| ensures (xs + ys)[|xs| + i] == ys[i] {}
  }

  /** The `candidates` dictionary. */
  class Candidates {
    var items: Table

    constructor ()
      ensures items == []
    {
      items := [];
    }

    method Add(path: Path, priority: Priority)
      modifies this
      ensures items == Added(old(items), path, priority)
    {
      var i := Find(items, path);
      if i == |items| {
        items := items + [Candidate(path, priority)];
      } else if Rank(priority) < Rank(items[i].priority) {
        items := items[i := Candidate(path, priority)];
      }
    }
  }

  class ContextBuilder {
    const maxFileBytes: nat

    constructor (limit: nat)
      ensures maxFileBytes == limit
    {
      maxFileBytes := limit;
    }

    /** One exact path, pattern or search; false stands for the security error. */
    method Collect(s: Selector, priority: Priority, hidden: set<Id>, candidates: Candidates) returns (ok: bool)
      modifies candidates
      ensures ok <==> !Refused(s, hidden)
      ensures ok ==> candidates.items == Gathered(old(candidates.items), [Source(s, priority)], hidden)
    {
      if s.Unsafe? { return false; }
      var i := 0;
      assert s.hits[..0] == [];
      while i < |s.hits|
        invariant 0 <= i <= |s.hits|
        invariant forall j | 0 <= j < i :: s.hits[j].name in hidden || s.hits[j].target.Inside?
        invariant candidates.items == AddedHits(old(candidates.items), s.hits[..i], priority, hidden)
      {
        var h := s.hits[i];
        assert s.hits[..i + 1][..i] == s.hits[..i];
        if h.name !in hidden {
          if h.target.Outside? { return false; }
          candidates.Add(h.target.path, priority);
        }
        i := i + 1;
      }
      assert s.hits[..i] == s.hits;
      ok := true;
      assert [Source(s, priority)][..0] == [];
    }

    method CollectAll(sources: seq<Source>, hidden: set<Id>, candidates: Candidates) returns (ok: bool)
      modifies candidates
      ensures ok <==> !AnyRefused(sources, hidden)
      ensures ok ==> candidates.items == Gathered(old(candidates.items), sources, hidden)
    {
      var i := 0;
      assert sources[..0] == [];
      while i < |sources|
        invariant 0 <= i <= |sources| && !AnyRefused(sources[..i], hidden)
        invariant candidates.items == Gathered(old(candidates.items), sources[..i], hidden)
      {
        ghost var was := candidates.items;
        ok := Collect(sources[i].selector, sources[i].priority, hidden, candidates);
        if !ok { return; }
        assert sources[..i + 1] == sources[..i] + [sources[i]];
        GatheredThen(old(candidates.items), sources[..i], [sources[i]], hidden);
        RefusedThen(sources[..i], [sources[i]], hidden);
        i := i + 1;
      }
      assert sources[..i] == sources;
      ok := true;
    }

    /** The loop over the manifest's local context requirements. */
    method CollectRequirements(rs: seq<Requirement>, hidden: set<Id>, candidates: Candidates) returns (ok: bool)
      modifies candidates
      ensures ok <==> !AnyRefused(OfRequirements(rs), hidden)
      ensures ok ==> candidates.items == Gathered(old(candidates.items), OfRequirements(rs), hidden)
    {
      var i := 0;
      assert rs[..0] == [];
      while i < |rs|
        invariant 0 <= i <= |rs| && !AnyRefused(OfRequirements(rs[..i]), hidden)
        invariant candidates.items == Gathered(old(candidates.items), OfRequirements(rs[..i]), hidden)
      {
        var r := rs[i];
        ghost var done := OfRequirements(rs[..i]);
        assert rs[..i + 1][..i] == rs[..i];
        GatheredThen(old(candidates.items), done, OfRequirement(r), hidden);
        RefusedThen(done, OfRequirement(r), hidden);
        ok := CollectAll(OfRequirement(r), hidden, candidates);
        if !ok {
          RefusedPrefix(rs, i + 1, hidden);
          return;
        }
        i := i + 1;
      }
      assert rs[..i] == rs;
      ok := true;
    }

    static lemma {:induction false} RefusedPrefix(rs: seq<Requirement>, i: nat, hidden: set<Id>)
      requires i <= |rs| && AnyRefused(OfRequirements(rs[..i]), hidden)
      ensures AnyRefused(OfRequirements(rs), hidden)
      decreases |rs| - i
    {
      if i == |rs| {
        assert rs[..i] == rs;
      } else {
        assert rs[..i + 1][..i] == rs[..i];
        RefusedThen(OfRequirements(rs[..i]), OfRequirement(rs[i]), hidden);
        RefusedPrefix(rs, i + 1, hidden);
      }
    }

    /** One attachment; the artifacts and omissions so far come in and go out. */
    method TakeAttachment(a: Ask, s: Spec, hidden: set<Id>, candidates: Candidates, arts: seq<Artifact>, omitted: seq<Omission>)
      returns (ok: bool, arts': seq<Artifact>, omitted': seq<Omission>)
      modifies candidates
      ensures ok <==> !AnyRefused(SpecSource(a, s), hidden)
      ensures ok ==> candidates.items == Gathered(old(candidates.items), SpecSource(a, s), hidden)
      ensures ok ==> arts' == arts + SpecArtifact(a, s) && omitted' == omitted + SpecOmission(a, s)
    {
      ok, arts', omitted' := true, arts, omitted;
      assert arts + [] == arts && omitted + [] == omitted;
      if a.design && s.role.CandidateSolution? {
        omitted' := omitted + [CandidateSuppressed];
      } else if s.WithContent? {
        arts' := arts + [Inline(s.title, s.priority, s.role, s.content)];
      } else {
        ok := Collect(s.selector, s.priority, hidden, candidates);
        assert SpecSource(a, s)[0].selector == s.selector;
      }
    }

    /** The attachments up to the i-th, and the i-th. */
    static lemma NextSpec(t: Table, a: Ask, i: nat, hidden: set<Id>)
      requires i < |a.specs|
      ensures var before, after := a.specs[..i], a.specs[..i + 1];
              && Gathered(t, OfSpecs(a, after), hidden)
                 == Gathered(Gathered(t, OfSpecs(a, before), hidden), SpecSource(a, a.specs[i]), hidden)
              && (AnyRefused(OfSpecs(a, after), hidden)
                  <==> (AnyRefused(OfSpecs(a, before), hidden) || AnyRefused(SpecSource(a, a.specs[i]), hidden)))
              && InlineArts(a, after) == InlineArts(a, before) + SpecArtifact(a, a.specs[i])
              && SuppressedSpecs(a, after) == SuppressedSpecs(a, before) + SpecOmission(a, a.specs[i])
    {
      assert a.specs[..i + 1][..i] == a.specs[..i];
      GatheredThen(t, OfSpecs(a, a.specs[..i]), SpecSource(a, a.specs[i]), hidden);
      RefusedThen(OfSpecs(a, a.specs[..i]), SpecSource(a, a.specs[i]), hidden);
    }

    /** The loop over the request's attachments. */
    method TakeAttachments(a: Ask, hidden: set<Id>, candidates: Candidates)
      returns (ok: bool, arts: seq<Artifact>, omitted: seq<Omission>)
      modifies candidates
      ensures ok <==> !AnyRefused(OfSpecs(a, a.specs), hidden)
      ensures ok ==> candidates.items == Gathered(old(candidates.items), OfSpecs(a, a.specs), hidden)
      ensures ok ==> arts == InlineArts(a, a.specs) && omitted == SuppressedSpecs(a, a.specs)
    {
      var i := 0;
      arts, omitted := [], [];
      assert a.specs[..0] == [];
      while i < |a.specs|
        invariant 0 <= i <= |a.specs| && !AnyRefused(OfSpecs(a, a.specs[..i]), hidden)
        invariant candidates.items == Gathered(old(candidates.items), OfSpecs(a, a.specs[..i]), hidden)
        invariant arts == InlineArts(a, a.specs[..i]) && omitted == SuppressedSpecs(a, a.specs[..i])
      {
        NextSpec(old(candidates.items), a, i, hidden);
        ok, arts, omitted := TakeAttachment(a, a.specs[i], hidden, candidates, arts, omitted);
        i := i + 1;
        if !ok {
          RefusedSpecs(a, i, hidden);
          return;
        }
      }
      assert a.specs[..i] == a.specs;
      ok := true;
    }

    static lemma {:induction false} RefusedSpecs(a: Ask, i: nat, hidden: set<Id>)
      requires i <= |a.specs| && AnyRefused(OfSpecs(a, a.specs[..i]), hidden)
      ensures AnyRefused(OfSpecs(a, a.specs), hidden)
      decreases |a.specs| - i
    {
      if i == |a.specs| {
        assert a.specs[..i] == a.specs;
      } else {
        NextSpec([], a, i, hidden);
        RefusedSpecs(a, i + 1, hidden);
      }
    }

    /** The budget loop. */
    method Choose(ordered: seq<Candidate>, files: map<Path, File>, budget: nat, s: Selection) returns (r: Selection)
      requires s.Selection?
      ensures r == Selected(s, ordered, Env(files, budget, maxFileBytes))
    {
      var arts, omitted := s.arts, s.omitted;
      var total: nat := s.total;
      var i := 0;
      ghost var e := Env(files, budget, maxFileBytes);
      assert ordered[..0] == [];
      while i < |ordered|
        invariant 0 <= i <= |ordered|
        invariant Selection(arts, omitted, total) == Selected(s, ordered[..i], e)
      {
        var c := ordered[i];
        assert ordered[..i + 1][..i] == ordered[..i];
        var f := if c.path in files then files[c.path] else Unreadable;
        i := i + 1;
        if f.Unreadable? {
          omitted := omitted + [Omitted(NotReadable, c.path)];
          continue;
        }
        if |f.raw| > maxFileBytes {
          if c.priority.P0? {
            StaysTooLarge(s, ordered, e, i);
            return TooLarge;
          }
          omitted := omitted + [Omitted(Oversize, c.path)];
          continue;
        }
        if 0 in f.raw[..if |f.raw| < 4096 then |f.raw| else 4096] {
          omitted := omitted + [Omitted(Binary, c.path)];
          continue;
        }
        if !f.utf8 {
          omitted := omitted + [Omitted(NotUtf8, c.path)];
          continue;
        }
        if total + |f.raw| > budget {
          if c.priority.P0? {
            StaysTooLarge(s, ordered, e, i);
            return TooLarge;
          }
          omitted := omitted + [Omitted(OverBudget, c.path)];
          continue;
        }
        arts := arts + [FromFile(c.path, c.priority, f.raw)];
        total := total + |f.raw|;
      }
      assert ordered[..i] == ordered;
      r := Selection(arts, omitted, total);
    }

    static lemma {:induction false} StaysTooLarge(s: Selection, cs: seq<Candidate>, e: Env, i: nat)
      requires i <= |cs| && Selected(s, cs[..i], e).TooLarge?
      ensures Selected(s, cs, e).TooLarge?
      decreases |cs| - i
    {
      if i == |cs| {
        assert cs[..i] == cs;
      } else {
        assert cs[..i + 1][..i] == cs[..i];
        StaysTooLarge(s, cs, e, i + 1);
      }
    }

    /** `_validate_required_context`; none stands for the requirement error. */
    method ValidateRequired(rs: seq<Requirement>, arts: seq<Artifact>) returns (r: Option<seq<Id>>)
      ensures r == if Unmet(rs, arts) then None else Some(Satisfied(rs, arts))
    {
      var satisfied := [];
      var i := 0;
      assert rs[..0] == [];
      while i < |rs|
        invariant 0 <= i <= |rs| && forall j | 0 <= j < i :: rs[j].required ==> Met(rs[j], arts)
        invariant satisfied == Satisfied(rs[..i], arts)
      {
        assert rs[..i + 1][..i] == rs[..i];
        var matched := false;
        var k := 0;
        while k < |arts| && !matched
          invariant 0 <= k <= |arts| && (matched ==> Met(rs[i], arts))
          invariant !matched ==> forall j | 0 <= j < k :: !Meets(rs[i], arts[j])
        {
          matched := Meets(rs[i], arts[k]);
          k := k + 1;
        }
        if matched {
          satisfied := satisfied + [rs[i].id];
        } else if rs[i].required {
          return None;
        }
        i := i + 1;
      }
      assert rs[..i] == rs;
      r := Some(satisfied);
    }

    static method Total(arts: seq<Artifact>) returns (total: nat)
      ensures total == Sizes(arts)
    {
      total := 0;
      var i := 0;
      assert arts[..0] == [];
      while i < |arts|
        invariant 0 <= i <= |arts| && total == Sizes(arts[..i])
      {
        assert arts[..i + 1][..i] == arts[..i];
        total := total + |arts[i].content|;
        i := i + 1;
      }
      assert arts[..i] == arts;
    }

    /** Everything before the first file is read; false stands for the security error. */
    method Gather(a: Ask, hidden: set<Id>)
      returns (ok: bool, found: Table, arts: seq<Artifact>, omitted: seq<Omission>)
      ensures ok <==> !AnyRefused(SourcesOf(a), hidden)
      ensures ok ==> found == Gathered([], SourcesOf(a), hidden)
      ensures ok ==> arts == Started(a).arts && omitted == Started(a).omitted
    {
      var candidates := new Candidates();
      ghost var first := if a.design then [] else Tagged(a.includes, P1);
      SplitSources(first, OfRequirements(a.requirements), OfSpecs(a, a.specs), hidden);
      ok, found, arts, omitted := true, [], [], [];
      if !a.design {
        ok := CollectAll(Tagged(a.includes, P1), hidden, candidates);
        if !ok { return; }
      } else if a.includes != [] {
        omitted := [IncludesSuppressed];
      }
      ok := CollectRequirements(a.requirements, hidden, candidates);
      if !ok { return; }
      var more;
      ok, arts, more := TakeAttachments(a, hidden, candidates);
      if !ok { return; }
      omitted := omitted + more;
      if a.wantDiff && !a.design && a.diff != [] {
        arts := arts + [GitDiff(a.diff)];
      }
      found := candidates.items;
    }

    static lemma SplitSources(x: seq<Source>, y: seq<Source>, z: seq<Source>, hidden: set<Id>)
      ensures AnyRefused(x + y + z, hidden) <==> AnyRefused(x, hidden) || AnyRefused(y, hidden) || AnyRefused(z, hidden)
      ensures Gathered([], x + y + z, hidden) == Gathered(Gathered(Gathered([], x, hidden), y, hidden), z, hidden)
    {
      RefusedThen(x, y, hidden);
      RefusedThen(x + y, z, hidden);
      GatheredThen([], x, y, hidden);
      GatheredThen([], x + y, z, hidden);
    }

    method Build(a: Ask, files: map<Path, File>) returns (r: Built)
      ensures r == Context.Build(a, files, maxFileBytes)
    {
      if !a.rootOk { return Failure(SecurityError); }
      var ok, found, arts, omitted := Gather(a, Hidden(a));
      if !ok { return Failure(SecurityError); }
      var budget := if a.requestBytes < a.manifestBytes then a.requestBytes else a.manifestBytes;
      var total := Total(arts);
      if total > budget { return Failure(TooLargeError); }
      var s := Choose(Ordered(found), files, budget, Selection(arts, omitted, total));
      if s.TooLarge? { return Failure(TooLargeError); }
      var satisfied := ValidateRequired(a.requirements, s.arts);
      if satisfied.None? { return Failure(RequirementError); }
      r := Success(s.arts, s.omitted, s.total, satisfied.value);
    }
  }
}
