/** tunnels/resolver.py and the ordering rules of tunnels/registry.py. */
module Tunnels {
  import opened Records
  import Sorting

  datatype Runtime = Extension | Playwright | Cdp | Interactive | Fake
  datatype Transport = NativeMessaging | WebSocket | LocalProcess | CdpTransport | Human | InMemory
  datatype Scope = Local | Remote | AnyScope

  datatype Tunnel = Tunnel(
    id: Id,
    runtime: Runtime,
    transport: Transport,
    scope: Scope,
    priority: int,
    enabled: bool,
    automatic: bool)

  datatype Policy = Auto | PreferExtension | PreferNative | PreferRemote | PreferPlaywright | PreferCdp

  datatype Health = Healthy | Degraded | Unavailable | Unknown

  function PolicyBonus(t: Tunnel, policy: Policy): int {
    if policy.PreferExtension? && t.runtime.Extension? then -100
    else if policy.PreferNative? && t.transport.NativeMessaging? then -100
    else if policy.PreferRemote? && t.scope.Remote? then -100
    else if policy.PreferPlaywright? && t.runtime.Playwright? then -100
    else if policy.PreferCdp? && t.runtime.Cdp? then -100
    else 0
  }

  function Penalty(h: Health): int {
    match h case Healthy => 0 case Degraded => 200 case Unknown => 400 case Unavailable => 10000
  }

  function Score(t: Tunnel, policy: Policy, h: Health): int { t.priority + PolicyBonus(t, policy) + Penalty(h) }

  function RegistryKey(t: Tunnel): Sorting.Key { (t.priority, t.id) }

  predicate DistinctIds(ts: seq<Tunnel>) {
    forall i, j | 0 <= i < j < |ts| :: ts[i].id != ts[j].id
  }

  function Effective(ts: seq<Tunnel>, disabled: set<Id>): seq<Tunnel> {
    if ts == [] then []
    else
      var t := ts[|ts| - 1];
      Effective(ts[..|ts| - 1], disabled) + if t.enabled && t.id !in disabled then [t] else []
  }

  datatype Scored = Scored(score: int, tunnel: Tunnel)

  function ScoredKey(s: Scored): Sorting.Key { (s.score, s.tunnel.id) }

  /** What the caller asks for and what the probe answers. */
  datatype Question = Question(policy: Policy, requireAutomatic: bool, probe: Tunnel -> Health)

  predicate Usable(t: Tunnel, q: Question) {
    (q.requireAutomatic ==> t.automatic) && !q.probe(t).Unavailable?
  }

  function Candidates(ts: seq<Tunnel>, q: Question): seq<Scored> {
    if ts == [] then []
    else
      var t := ts[|ts| - 1];
      Candidates(ts[..|ts| - 1], q) + if Usable(t, q) then [Scored(Score(t, q.policy, q.probe(t)), t)] else []
  }

  function Ids(cs: seq<Scored>): (r: seq<Id>)
    ensures |r| == |cs| && forall i | 0 <= i < |cs| :: r[i] == cs[i].tunnel.id
  {
    seq(|cs|, i requires 0 <= i < |cs| => cs[i].tunnel.id)
  }

  datatype Selection =
    | NoTunnel | UnknownTunnel | DisabledTunnel | NotAutomatic | TunnelUnavailable
    | Selected(id: Id, explicitly: bool, health: Health, alternatives: seq<Id>)

  /** The registry's tunnels that are switched on, by priority and id. */
  function Listed(ts: seq<Tunnel>, disabled: set<Id>): seq<Tunnel> {
    Effective(Sorting.Sorted(ts, RegistryKey), disabled)
  }

  function Ranked(ts: seq<Tunnel>, disabled: set<Id>, q: Question): seq<Scored> {
    Sorting.Sorted(Candidates(Listed(ts, disabled), q), ScoredKey)
  }

  class TunnelResolver {
    const tunnels: seq<Tunnel>

    constructor (ts: seq<Tunnel>)
      requires DistinctIds(ts)
      ensures tunnels == ts
    {
      tunnels := ts;
    }

    /** The selection when no tunnel is named. */
    method Select(q: Question, disabled: set<Id>) returns (r: Selection)
      ensures r == Choice(Ranked(tunnels, disabled, q), q)
    {
      var effective := Listed(tunnels, disabled);
      var candidates: seq<Scored> := [];
      assert effective[..0] == [];
      for i := 0 to |effective|
        invariant candidates == Candidates(effective[..i], q)
      {
        var spec := effective[i];
        assert effective[..i + 1][..i] == effective[..i];
        if q.requireAutomatic && !spec.automatic { continue; }
        var health := q.probe(spec);
        if health.Unavailable? { continue; }
        candidates := candidates + [Scored(spec.priority + PolicyBonus(spec, q.policy) + Penalty(health), spec)];
      }
      assert effective[..|effective|] == effective;
      if candidates == [] { SortingNone(); return NoTunnel; }
      candidates := Sorting.Sorted(candidates, ScoredKey);
      SortingSome(Candidates(effective, q));
      var chosen := candidates[0].tunnel;
      r := Selected(chosen.id, false, q.probe(chosen), Ids(candidates[1..]));
    }

    /** The selection when a tunnel is named. */
    method SelectNamed(id: Id, q: Question, disabled: set<Id>) returns (r: Selection)
      ensures r == Named(tunnels, id, disabled, q)
    {
      var i := 0;
      while i < |tunnels| && tunnels[i].id != id
        invariant 0 <= i <= |tunnels| && forall j | 0 <= j < i :: tunnels[j].id != id
      {
        i := i + 1;
      }
      if i == |tunnels| { return UnknownTunnel; }
      var spec := tunnels[i];
      if !IsEffective(tunnels, id, disabled) { return DisabledTunnel; }
      if q.requireAutomatic && !spec.automatic { return NotAutomatic; }
      var health := q.probe(spec);
      if health.Unavailable? { return TunnelUnavailable; }
      r := Selected(spec.id, true, health, []);
    }
  }

  predicate IsEffective(ts: seq<Tunnel>, id: Id, disabled: set<Id>) {
    exists i :: 0 <= i < |Listed(ts, disabled)| && Listed(ts, disabled)[i].id == id
  }

  function Lookup(ts: seq<Tunnel>, id: Id): (i: nat)
    ensures i <= |ts| && (i < |ts| ==> ts[i].id == id) && forall j | 0 <= j < i :: ts[j].id != id
  {
    FirstWhere(ts, (t: Tunnel) => t.id == id)
  }

  function Named(ts: seq<Tunnel>, id: Id, disabled: set<Id>, q: Question): Selection {
    var i := Lookup(ts, id);
    if i == |ts| then UnknownTunnel
    else if !IsEffective(ts, id, disabled) then DisabledTunnel
    else if q.requireAutomatic && !ts[i].automatic then NotAutomatic
    else if q.probe(ts[i]).Unavailable? then TunnelUnavailable
    else Selected(id, true, q.probe(ts[i]), [])
  }

  function Choice(cs: seq<Scored>, q: Question): Selection {
    if cs == [] then NoTunnel
    else Selected(cs[0].tunnel.id, false, q.probe(cs[0].tunnel), Ids(cs[1..]))
  }

  lemma SortingNone()
    ensures Sorting.Sorted<Scored>([], ScoredKey) == []
  {
  }

  lemma SortingSome(cs: seq<Scored>)
    requires cs != []
    ensures Sorting.Sorted(cs, ScoredKey) != []
  {
  }

  // --------------------------------------------------------------- theorems

  /** A tunnel that may be chosen. */
  predicate Eligible(ts: seq<Tunnel>, disabled: set<Id>, q: Question, t: Tunnel) {
    t in ts && t.enabled && t.id !in disabled && Usable(t, q)
  }

  lemma {:induction false} EffectiveIs(ts: seq<Tunnel>, disabled: set<Id>, t: Tunnel)
    ensures t in Effective(ts, disabled) <==> t in ts && t.enabled && t.id !in disabled
  {
    if ts != [] {
      var n := |ts| - 1;
      EffectiveIs(ts[..n], disabled, t);
      assert ts == ts[..n] + [ts[n]];
    }
  }

  lemma {:induction false} EffectiveDistinct(ts: seq<Tunnel>, disabled: set<Id>)
    requires DistinctIds(ts)
    ensures DistinctIds(Effective(ts, disabled))
  {
    if ts != [] {
      var n := |ts| - 1;
      EffectiveDistinct(ts[..n], disabled);
      var before := Effective(ts[..n], disabled);
      forall i | 0 <= i < |before| ensures before[i].id != ts[n].id {
        EffectiveIs(ts[..n], disabled, before[i]);
        assert before[i] in before;
        var j :| 0 <= j < n && ts[..n][j] == before[i];
      }
    }
  }

  lemma SortedDistinct(ts: seq<Tunnel>)
    requires DistinctIds(ts)
    ensures DistinctIds(Sorting.Sorted(ts, RegistryKey)) && forall t :: t in Sorting.Sorted(ts, RegistryKey) <==> t in ts
  {
    forall i, j | 0 <= i < j < |ts| ensures RegistryKey(ts[i]) != RegistryKey(ts[j]) { assert ts[i].id != ts[j].id; }
    Sorting.SortedIs(ts, RegistryKey);
    var s := Sorting.Sorted(ts, RegistryKey);
    forall i, j | 0 <= i < j < |s| ensures s[i].id != s[j].id {
      assert Sorting.Less(RegistryKey(s[i]), RegistryKey(s[j]));
      assert s[i] in s && s[j] in s;
      var a :| 0 <= a < |ts| && ts[a] == s[i];
      var b :| 0 <= b < |ts| && ts[b] == s[j];
      assert a != b;
      assert a < b ==> ts[a].id != ts[b].id;
      assert b < a ==> ts[b].id != ts[a].id;
    }
  }

  function ScoredOf(t: Tunnel, q: Question): Scored { Scored(Score(t, q.policy, q.probe(t)), t) }

  lemma {:induction false} CandidatesAre(ts: seq<Tunnel>, q: Question)
    requires DistinctIds(ts)
    ensures forall c :: c in Candidates(ts, q) <==> c.tunnel in ts && Usable(c.tunnel, q) && c == ScoredOf(c.tunnel, q)
    ensures Sorting.KeysDiffer(Candidates(ts, q), ScoredKey)
  {
    if ts != [] {
      var n := |ts| - 1;
      CandidatesAre(ts[..n], q);
      var before := Candidates(ts[..n], q);
      assert ts == ts[..n] + [ts[n]];
      forall i | 0 <= i < |before| ensures before[i].tunnel.id != ts[n].id {
        assert before[i] in before;
        var j :| 0 <= j < n && ts[..n][j] == before[i].tunnel;
      }
    }
  }

  /** The ranking is the eligible tunnels in ascending order of score and id. */
  lemma RankedIs(ts: seq<Tunnel>, disabled: set<Id>, q: Question)
    requires DistinctIds(ts)
    ensures var r := Ranked(ts, disabled, q);
            && Sorting.Ascending(r, ScoredKey)
            && forall c :: c in r <==> c == ScoredOf(c.tunnel, q) && Eligible(ts, disabled, q, c.tunnel)
  {
    SortedDistinct(ts);
    EffectiveDistinct(Sorting.Sorted(ts, RegistryKey), disabled);
    var l := Listed(ts, disabled);
    CandidatesAre(l, q);
    Sorting.SortedIs(Candidates(l, q), ScoredKey);
    forall c ensures c in Ranked(ts, disabled, q) <==> c == ScoredOf(c.tunnel, q) && Eligible(ts, disabled, q, c.tunnel) {
      EffectiveIs(Sorting.Sorted(ts, RegistryKey), disabled, c.tunnel);
    }
  }

  /** The first of the ranking is eligible and no other eligible tunnel comes before it. */
  lemma FirstIsLeast(ts: seq<Tunnel>, disabled: set<Id>, q: Question, t: Tunnel) returns (c: Tunnel)
    requires DistinctIds(ts) && Eligible(ts, disabled, q, t)
    ensures Ranked(ts, disabled, q) != [] && c == Ranked(ts, disabled, q)[0].tunnel && Eligible(ts, disabled, q, c)
    ensures c == t || Sorting.Less(ScoredKey(ScoredOf(c, q)), ScoredKey(ScoredOf(t, q)))
    ensures c != t ==> exists i :: 0 < i < |Ranked(ts, disabled, q)| && Ranked(ts, disabled, q)[i].tunnel == t
  {
    RankedIs(ts, disabled, q);
    var r := Ranked(ts, disabled, q);
    var s := ScoredOf(t, q);
    assert s in r && r[0] in r;
    c := r[0].tunnel;
    var i :| 0 <= i < |r| && r[i] == s;
    assert i > 0 ==> Sorting.Less(ScoredKey(r[0]), ScoredKey(r[i]));
    assert r[i].tunnel == t;
  }

  /** What each policy prefers. */
  predicate Preferred(t: Tunnel, policy: Policy) {
    match policy
    case Auto => false
    case PreferExtension => t.runtime.Extension?
    case PreferNative => t.transport.NativeMessaging?
    case PreferRemote => t.scope.Remote?
    case PreferPlaywright => t.runtime.Playwright?
    case PreferCdp => t.runtime.Cdp?
  }

  function Grade(h: Health): int { match h case Healthy => 0 case Degraded => 1 case Unknown => 2 case Unavailable => 3 }

  /** The weight of a tunnel: its priority number, 100 less if the policy prefers it, 200 more for each grade
      of health below healthy. */
  function Weight(t: Tunnel, q: Question): int {
    t.priority - (if Preferred(t, q.policy) then 100 else 0) + 200 * Grade(q.probe(t))
  }

  /** The tunnel comes before the other: by weight, and then by id. */
  predicate Precedes(t: Tunnel, o: Tunnel, q: Question) {
    Weight(t, q) < Weight(o, q) || (Weight(t, q) == Weight(o, q) && t.id < o.id)
  }

  lemma LessPrecedes(t: Tunnel, o: Tunnel, q: Question)
    requires !q.probe(t).Unavailable? && !q.probe(o).Unavailable?
    ensures Sorting.Less(ScoredKey(ScoredOf(t, q)), ScoredKey(ScoredOf(o, q))) <==> Precedes(t, o, q)
  {
  }

  /** The alternatives stand in the same order. */
  lemma AlternativesInOrder(ts: seq<Tunnel>, disabled: set<Id>, q: Question, i: nat, j: nat)
    requires DistinctIds(ts) && Choice(Ranked(ts, disabled, q), q).Selected?
    requires i < j < |Choice(Ranked(ts, disabled, q), q).alternatives|
    ensures var others := Choice(Ranked(ts, disabled, q), q).alternatives;
            exists t, o :: && Eligible(ts, disabled, q, t) && Eligible(ts, disabled, q, o) && Precedes(t, o, q)
                           && t.id == others[i] && o.id == others[j]
  {
    RankedIs(ts, disabled, q);
    var r := Ranked(ts, disabled, q);
    assert r[i + 1] in r && r[j + 1] in r;
    assert Sorting.Less(ScoredKey(r[i + 1]), ScoredKey(r[j + 1]));
    LessPrecedes(r[i + 1].tunnel, r[j + 1].tunnel, q);
  }

  /** The choice is the eligible tunnel of least weight, the id breaking ties, whatever the order the
      registry lists them in; every other eligible tunnel is an alternative. */
  lemma ChoosesLeast(ts: seq<Tunnel>, disabled: set<Id>, q: Question, t: Tunnel)
    requires DistinctIds(ts) && Eligible(ts, disabled, q, t)
    ensures var r := Choice(Ranked(ts, disabled, q), q);
            && r.Selected? && !r.explicitly
            && exists c: Tunnel :: c.id == r.id && Eligible(ts, disabled, q, c) && r.health == q.probe(c)
                 && (c == t || Precedes(c, t, q))
                 && (c != t <==> t.id in r.alternatives)
  {
    var c := FirstIsLeast(ts, disabled, q, t);
    var r := Ranked(ts, disabled, q);
    if c != t {
      LessPrecedes(c, t, q);
      var i :| 0 < i < |r| && r[i].tunnel == t;
      assert Ids(r[1..])[i - 1] == t.id;
    } else {
      forall j | 0 <= j < |r[1..]| ensures Ids(r[1..])[j] != c.id { FirstIsAlone(ts, disabled, q, j + 1); }
    }
  }

  lemma SameTunnel(ts: seq<Tunnel>, a: Tunnel, b: Tunnel)
    requires DistinctIds(ts) && a in ts && b in ts && a.id == b.id
    ensures a == b
  {
    var i :| 0 <= i < |ts| && ts[i] == a;
    var j :| 0 <= j < |ts| && ts[j] == b;
    assert forall x, y | 0 <= x < |ts| && 0 <= y < |ts| && ts[x].id == ts[y].id :: x == y;
  }

  lemma NothingChosenExactly(ts: seq<Tunnel>, disabled: set<Id>, q: Question)
    requires DistinctIds(ts)
    ensures Choice(Ranked(ts, disabled, q), q) == NoTunnel <==> forall t | t in ts :: !Eligible(ts, disabled, q, t)
  {
    RankedIs(ts, disabled, q);
    var r := Ranked(ts, disabled, q);
    if r != [] {
      assert r[0] in r;
    } else {
      forall t | t in ts ensures !Eligible(ts, disabled, q, t) { assert ScoredOf(t, q) !in r; }
    }
  }

  // ---------------------------------------------------------- named tunnels

  lemma ListedIs(ts: seq<Tunnel>, disabled: set<Id>, t: Tunnel)
    requires DistinctIds(ts)
    ensures t in Listed(ts, disabled) <==> t in ts && t.enabled && t.id !in disabled
  {
    SortedDistinct(ts);
    EffectiveIs(Sorting.Sorted(ts, RegistryKey), disabled, t);
  }

  lemma EffectiveExactly(ts: seq<Tunnel>, disabled: set<Id>, t: Tunnel)
    requires DistinctIds(ts) && t in ts
    ensures IsEffective(ts, t.id, disabled) <==> t.enabled && t.id !in disabled
  {
    var l := Listed(ts, disabled);
    ListedIs(ts, disabled, t);
    if i :| 0 <= i < |l| && l[i].id == t.id {
      assert l[i] in l;
      ListedIs(ts, disabled, l[i]);
      SameTunnel(ts, l[i], t);
    }
    if t in l {
      var i :| 0 <= i < |l| && l[i] == t;
      assert l[i].id == t.id;
    }
  }

  /** What naming a tunnel comes to: the first of the four reasons against it that holds, or the
      tunnel itself with its health; a degraded or unknown health is no reason against it. */
  lemma NamedExactly(ts: seq<Tunnel>, disabled: set<Id>, q: Question, id: Id)
    requires DistinctIds(ts)
    ensures Named(ts, id, disabled, q).UnknownTunnel? <==> forall t | t in ts :: t.id != id
    ensures forall t | t in ts && t.id == id ::
              var r := Named(ts, id, disabled, q);
              && (r.DisabledTunnel? <==> !t.enabled || id in disabled)
              && (r.NotAutomatic? <==> t.enabled && id !in disabled && q.requireAutomatic && !t.automatic)
              && (r.TunnelUnavailable? <==> t.enabled && id !in disabled && (q.requireAutomatic ==> t.automatic) && q.probe(t).Unavailable?)
              && (r.Selected? <==> Eligible(ts, disabled, q, t))
              && (r.Selected? ==> r == Selected(id, true, q.probe(t), []))
  {
    var i := Lookup(ts, id);
    if i < |ts| {
      assert ts[i] in ts;
      EffectiveExactly(ts, disabled, ts[i]);
      forall t | t in ts && t.id == id ensures t == ts[i] { SameTunnel(ts, t, ts[i]); }
    }
  }

  /** The tunnels that can be selected by name are those the automatic choice ranks, as its choice or
      as an alternative, and the choice has the same health either way. */
  lemma NamedAreRanked(ts: seq<Tunnel>, disabled: set<Id>, q: Question, id: Id)
    requires DistinctIds(ts)
    ensures var r := Choice(Ranked(ts, disabled, q), q); var named := Named(ts, id, disabled, q);
            && (named.Selected? <==> r.Selected? && (id == r.id || id in r.alternatives))
            && (r.Selected? && id == r.id ==> named.Selected? && named.health == r.health)
  {
    var r := Ranked(ts, disabled, q);
    RankedIs(ts, disabled, q);
    NamedExactly(ts, disabled, q, id);
    if Named(ts, id, disabled, q).Selected? {
      NamedIsRanked(ts, disabled, q, id);
    }
    if k :| 0 <= k < |r| && r[k].tunnel.id == id {
      assert r[k] in r && Eligible(ts, disabled, q, r[k].tunnel);
    }
    if r != [] && id in Ids(r[1..]) {
      var k :| 0 <= k < |r[1..]| && Ids(r[1..])[k] == id;
      assert r[k + 1].tunnel.id == id;
    }
  }

  lemma NamedIsRanked(ts: seq<Tunnel>, disabled: set<Id>, q: Question, id: Id)
    requires DistinctIds(ts) && Named(ts, id, disabled, q).Selected?
    ensures var r := Ranked(ts, disabled, q); r != [] && (r[0].tunnel.id == id || id in Ids(r[1..]))
  {
    var t := ts[Lookup(ts, id)];
    assert t in ts;
    NamedExactly(ts, disabled, q, id);
    var c := FirstIsLeast(ts, disabled, q, t);
    var r := Ranked(ts, disabled, q);
    if c != t {
      var i :| 0 < i < |r| && r[i].tunnel == t;
      assert Ids(r[1..])[i - 1] == id;
    }
  }

  /** What the numbers decide. A tunnel is chosen if every other eligible one is of a worse grade of
      health and its priority number is not lower by 100 or more; or if, under a policy that prefers
      the tunnel and none of the others, no other is healthier and its priority number is lower by
      less than 100. */
  lemma HealthThenPolicy(ts: seq<Tunnel>, disabled: set<Id>, q: Question, t: Tunnel)
    requires DistinctIds(ts) && Eligible(ts, disabled, q, t)
    requires || (forall o | o != t && Eligible(ts, disabled, q, o) ::
                   Grade(q.probe(t)) < Grade(q.probe(o)) && t.priority < o.priority + 100)
             || (Preferred(t, q.policy)
                 && forall o | o != t && Eligible(ts, disabled, q, o) ::
                      !Preferred(o, q.policy) && Grade(q.probe(t)) <= Grade(q.probe(o)) && t.priority < o.priority + 100)
    ensures var r := Choice(Ranked(ts, disabled, q), q); r.Selected? && r.id == t.id && r.health == q.probe(t)
  {
    var o := FirstIsLeast(ts, disabled, q, t);
    if o != t { Outscores(t, o, q.policy, q.probe(t), q.probe(o)); }
  }

  lemma Outscores(t: Tunnel, o: Tunnel, policy: Policy, h: Health, g: Health)
    requires t.priority < o.priority + 100 && !h.Unavailable? && !g.Unavailable?
    requires Grade(h) < Grade(g) || (Preferred(t, policy) && !Preferred(o, policy) && Grade(h) <= Grade(g))
    ensures Score(t, policy, h) < Score(o, policy, g)
  {
  }

  function WithoutId(cs: seq<Scored>, id: Id): (r: seq<Scored>)
    ensures forall c :: c in r <==> c in cs && c.tunnel.id != id
  {
    if cs == [] then []
    else
      assert cs == [cs[0]] + cs[1..];
      (if cs[0].tunnel.id == id then [] else [cs[0]]) + WithoutId(cs[1..], id)
  }

  lemma {:induction false} WithoutAscends(cs: seq<Scored>, id: Id)
    requires Sorting.Ascending(cs, ScoredKey)
    ensures Sorting.Ascending(WithoutId(cs, id), ScoredKey)
  {
    if cs != [] {
      WithoutAscends(cs[1..], id);
      var rest := WithoutId(cs[1..], id);
      forall j | 0 <= j < |rest| ensures Sorting.Less(ScoredKey(cs[0]), ScoredKey(rest[j])) {
        assert rest[j] in rest;
        var k :| 0 <= k < |cs[1..]| && cs[1..][k] == rest[j];
        assert Sorting.Less(ScoredKey(cs[0]), ScoredKey(cs[k + 1]));
      }
    }
  }

  /** Disabling a tunnel takes it out of the ranking and moves nothing else. */
  lemma DisablingRemoves(ts: seq<Tunnel>, disabled: set<Id>, q: Question, id: Id)
    requires DistinctIds(ts)
    ensures Ranked(ts, disabled + {id}, q) == WithoutId(Ranked(ts, disabled, q), id)
  {
    RankedIs(ts, disabled, q);
    RankedIs(ts, disabled + {id}, q);
    WithoutAscends(Ranked(ts, disabled, q), id);
    Sorting.AscendingUnique(Ranked(ts, disabled + {id}, q), WithoutId(Ranked(ts, disabled, q), id), ScoredKey);
  }

  lemma {:induction false} WithoutAbsent(cs: seq<Scored>, id: Id)
    requires forall c | c in cs :: c.tunnel.id != id
    ensures WithoutId(cs, id) == cs
  {
    if cs != [] {
      assert cs[0] in cs;
      WithoutAbsent(cs[1..], id);
    }
  }

  /** No later entry of the ranking is the first one's tunnel. */
  lemma FirstIsAlone(ts: seq<Tunnel>, disabled: set<Id>, q: Question, k: nat)
    requires DistinctIds(ts) && 0 < k < |Ranked(ts, disabled, q)|
    ensures Ranked(ts, disabled, q)[k].tunnel.id != Ranked(ts, disabled, q)[0].tunnel.id
  {
    RankedIs(ts, disabled, q);
    var r := Ranked(ts, disabled, q);
    assert r[0] in r && r[k] in r;
    assert Sorting.Less(ScoredKey(r[0]), ScoredKey(r[k]));
    if r[k].tunnel.id == r[0].tunnel.id { SameTunnel(ts, r[k].tunnel, r[0].tunnel); }
  }

  lemma DropFirst(r: seq<Scored>)
    requires r != [] && forall k | 0 < k < |r| :: r[k].tunnel.id != r[0].tunnel.id
    ensures WithoutId(r, r[0].tunnel.id) == r[1..]
  {
    WithoutAbsent(r[1..], r[0].tunnel.id);
  }

  lemma NextChoice(r: seq<Scored>, q: Question)
    requires r != []
    ensures Choice(r[1..], q) == if |r| == 1 then NoTunnel
                                 else Selected(r[1].tunnel.id, false, q.probe(r[1].tunnel), Ids(r[1..])[1..])
  {
    if |r| > 1 { assert Ids(r[1..])[1..] == Ids(r[1..][1..]); }
  }

  /** Failover: disabling the chosen tunnel makes the first alternative the choice and leaves the
      others as its alternatives; with no alternative nothing is left to choose. */
  lemma FailoverIsNext(ts: seq<Tunnel>, disabled: set<Id>, q: Question)
    requires DistinctIds(ts) && Choice(Ranked(ts, disabled, q), q).Selected?
    ensures var r := Choice(Ranked(ts, disabled, q), q);
            var next := Choice(Ranked(ts, disabled + {r.id}, q), q);
            if r.alternatives == [] then next == NoTunnel
            else next.Selected? && next.id == r.alternatives[0] && next.alternatives == r.alternatives[1..]
  {
    var r := Ranked(ts, disabled, q);
    DisablingRemoves(ts, disabled, q, r[0].tunnel.id);
    forall k | 0 < k < |r| ensures r[k].tunnel.id != r[0].tunnel.id { FirstIsAlone(ts, disabled, q, k); }
    DropFirst(r);
    NextChoice(r, q);
  }

  /** Disabling any other tunnel leaves the choice. */
  lemma DisablingOthersKeeps(ts: seq<Tunnel>, disabled: set<Id>, q: Question, id: Id)
    requires DistinctIds(ts)
    ensures var r := Choice(Ranked(ts, disabled, q), q);
            var s := Choice(Ranked(ts, disabled + {id}, q), q);
            r.Selected? && r.id != id ==> s.Selected? && s.id == r.id && s.health == r.health
  {
    DisablingRemoves(ts, disabled, q, id);
  }
}
