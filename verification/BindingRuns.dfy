/** The detectors as they run: the tracker object and its poll loop, and the loop of `executeTurn`;
    and what the JSON completeness test sees of a document that is still arriving. */
module BindingRuns {
  import opened Records
  import opened Binding
  import opened BindingProofs
  import opened BindingReads

  class ResponseBindingTracker {
    const baselineIds: set<Id>
    const stablePolls: int
    var boundId: Option<Id>
    var lastText: Option<string>
    var stableCount: nat
    var observedIds: set<Id>

    ghost function View(): Tracker
      reads this
    {
      Tracker(boundId, lastText, stableCount, observedIds)
    }

    constructor (baseline: set<Id>, polls: int)
      ensures View() == FRESH_TRACKER && baselineIds == baseline && stablePolls == polls
    {
      baselineIds, stablePolls := baseline, polls;
      boundId, lastText, stableCount, observedIds := None, None, 0, {};
    }

    method Observe(p: Poll) returns (r: Sight)
      modifies this
      ensures (View(), r) == Observed(old(View()), baselineIds, stablePolls, p)
    {
      var candidates := NewTurns(p.turns, baselineIds);
      observedIds := observedIds + set x | x in candidates :: x.id;
      if boundId.None? {
        if candidates != [] && Other(candidates, candidates[0].id) { return MultipleTurns; }
        if candidates == [] { return Waiting; }
        boundId := Some(candidates[0].id);
      } else if Other(candidates, boundId.value) {
        return IdentityChanged;
      }
      var current := TextsOf(candidates, boundId.value);
      if |current| > 1 { return DuplicateNodes; }
      if current == [] { return Waiting; }
      var text := current[0];
      if lastText == Some(text) && !p.stop {
        stableCount := stableCount + 1;
      } else {
        stableCount := 0;
      }
      lastText := Some(text);
      r := if stableCount >= stablePolls then Completed(boundId.value, text) else Waiting;
    }
  }

  ghost predicate TrackerWaits(polls: seq<Poll>, baseline: set<Id>, need: int, k: int) {
    forall n | 0 <= n <= k && n <= |polls| :: Tracked(polls[..n], baseline, need).1.Waiting?
  }

  ghost predicate LoopGoes(polls: seq<Poll>, baseline: set<Id>, k: int) {
    forall n | 0 <= n <= k && n <= |polls| :: Looped(polls[..n], baseline).1.Going?
  }

  /** The tracker is done at poll k, and not before. */
  ghost predicate TrackerEndsAt(polls: seq<Poll>, baseline: set<Id>, need: int, k: nat) {
    k < |polls| && !Tracked(polls[..k + 1], baseline, need).1.Waiting? && TrackerWaits(polls, baseline, need, k)
  }

  ghost predicate LoopEndsAt(polls: seq<Poll>, baseline: set<Id>, k: nat) {
    k < |polls| && !Looped(polls[..k + 1], baseline).1.Going? && LoopGoes(polls, baseline, k)
  }

  lemma TrackedNext(polls: seq<Poll>, baseline: set<Id>, need: int, k: nat)
    requires k < |polls| && TrackerWaits(polls, baseline, need, k)
    ensures Tracked(polls[..k + 1], baseline, need)
            == Observed(Tracked(polls[..k], baseline, need).0, baseline, need, polls[k])
  {
    assert polls[..k + 1][..k] == polls[..k];
    assert Tracked(polls[..k], baseline, need).1.Waiting?;
  }

  lemma LoopedNext(polls: seq<Poll>, baseline: set<Id>, k: nat)
    requires k < |polls| && LoopGoes(polls, baseline, k)
    ensures Looped(polls[..k + 1], baseline) == Polled(Looped(polls[..k], baseline).0, baseline, polls[k])
  {
    assert polls[..k + 1][..k] == polls[..k];
    assert Looped(polls[..k], baseline).1.Going?;
  }

  lemma WaitsOn(polls: seq<Poll>, baseline: set<Id>, need: int, k: nat)
    requires k < |polls| && TrackerWaits(polls, baseline, need, k) && Tracked(polls[..k + 1], baseline, need).1.Waiting?
    ensures TrackerWaits(polls, baseline, need, k + 1)
  {
  }

  lemma GoesOn(polls: seq<Poll>, baseline: set<Id>, k: nat)
    requires k < |polls| && LoopGoes(polls, baseline, k) && Looped(polls[..k + 1], baseline).1.Going?
    ensures LoopGoes(polls, baseline, k + 1)
  {
  }

  /** The loop over the turn ids of a page: the turns that have a text. */
  method ReadCandidates(turns: seq<Turn>) returns (candidates: seq<Turn>)
    ensures candidates == OnlyLegible(turns, turns)
  {
    candidates := [];
    assert turns[..0] == [];
    for i := 0 to |turns|
      invariant candidates == OnlyLegible(turns[..i], turns)
    {
      assert turns[..i + 1][..i] == turns[..i];
      var text := TextAt(turns, turns[i].id);
      if text.Some? { candidates := candidates + [turns[i]]; }
    }
    assert turns[..|turns|] == turns;
  }

  /** The loop of `wait_for_response` over the polls made before the deadline; `Waiting` stands for
      the timeout. */
  method WaitForResponse(polls: seq<Poll>, baseline: set<Id>, need: int) returns (r: Sight, k: nat)
    ensures r.Waiting? ==> TrackerWaits(ReadPolls(polls), baseline, need, |polls|)
    ensures !r.Waiting? ==> TrackerEndsAt(ReadPolls(polls), baseline, need, k) && r == Tracked(ReadPolls(polls)[..k + 1], baseline, need).1
    ensures !r.DuplicateNodes?
  {
    var tracker := new ResponseBindingTracker(baseline, need);
    k := 0;
    ghost var seen := ReadPolls(polls);
    assert seen[..0] == [];
    while k < |polls|
      invariant 0 <= k <= |polls| && tracker.baselineIds == baseline && tracker.stablePolls == need
      invariant tracker.View() == Tracked(seen[..k], baseline, need).0
      invariant TrackerWaits(seen, baseline, need, k)
    {
      TrackedNext(seen, baseline, need, k);
      var candidates := ReadCandidates(polls[k].turns);
      r := tracker.Observe(polls[k].(turns := candidates));
      if !r.Waiting? {
        ReadPrefix(polls, k + 1);
        DriverShowsNoDuplicates(polls[..k + 1], baseline, need);
        return;
      }
      WaitsOn(seen, baseline, need, k);
      k := k + 1;
    }
    r := Waiting;
  }

  /** One turn of the loop of `executeTurn`, from the reading of the page to the wait. */
  method PollOnce(l: Loop, baseline: set<Id>, p: Poll) returns (next: Loop, r: Turned)
    ensures (next, r) == Polled(l, baseline, p)
  {
    var boundId, stableText, stableCount, reported := l.bound, l.stable, l.count, l.reported;
    r := Going;
    var candidates := Legible(p.turns, baseline);
    if boundId.None? {
      if |candidates| > 1 { return l, Ambiguous; }
      if |candidates| == 1 { boundId := Some(candidates[0].id); }
    }
    if boundId.Some? {
      if p.more { return Loop(boundId, stableText, 0, reported), Going; }
      var text := TextAt(p.turns, boundId.value);
      if text.Some? && (reported == [] || reported[|reported| - 1] != text.value) {
        reported := reported + [text.value];
      }
      var complete := text.Some? && LooksLikeCompleteJson(text.value);
      if text.Some? && text == stableText && !p.stop && complete {
        stableCount := stableCount + 1;
      } else {
        stableCount := 0;
      }
      stableText := text;
      if text.Some? && stableCount >= 3 { r := Returned(boundId.value, text.value); }
    }
    next := Loop(boundId, stableText, stableCount, reported);
  }

  /** The loop of `executeTurn` over the polls made before the deadline; `Going` stands for the timeout. */
  method ExecuteTurn(polls: seq<Poll>, baseline: set<Id>) returns (r: Turned, k: nat, reported: seq<string>)
    ensures r.Going? ==> k == |polls| && LoopGoes(polls, baseline, |polls|)
    ensures !r.Going? ==> LoopEndsAt(polls, baseline, k) && r == Looped(polls[..k + 1], baseline).1
    ensures reported == Looped(polls[..if k < |polls| then k + 1 else |polls|], baseline).0.reported
  {
    var l := FRESH_LOOP;
    k := 0;
    assert polls[..0] == [];
    while k < |polls|
      invariant 0 <= k <= |polls| && l == Looped(polls[..k], baseline).0
      invariant LoopGoes(polls, baseline, k)
    {
      LoopedNext(polls, baseline, k);
      l, r := PollOnce(l, baseline, polls[k]);
      if !r.Going? { return r, k, l.reported; }
      GoesOn(polls, baseline, k);
      k := k + 1;
    }
    return Going, k, l.reported;
  }

  /** A tracker that is done after k polls was first done at one of them. */
  lemma {:induction false} EndsSomewhere(polls: seq<Poll>, baseline: set<Id>, need: int, k: nat) returns (j: nat)
    requires k <= |polls| && !Tracked(polls[..k], baseline, need).1.Waiting?
    ensures j < k && TrackerEndsAt(polls, baseline, need, j)
  {
    assert polls[..0] == [];
    if TrackerWaits(polls, baseline, need, k - 1) {
      j := k - 1;
    } else {
      var n :| 0 <= n <= k - 1 && n <= |polls| && !Tracked(polls[..n], baseline, need).1.Waiting?;
      j := EndsSomewhere(polls, baseline, need, n);
    }
  }

  lemma PlainMeansNoError(polls: seq<Poll>, baseline: set<Id>, id: Id, n: nat)
    requires Plain(polls, baseline, id) && n <= |polls|
    ensures !Looped(polls[..n], baseline).1.Ambiguous? && !Raises(Tracked(polls[..n], baseline, 3).1)
    ensures Looped(polls[..n], baseline).1.Returned? ==>
              Tracked(polls[..n], baseline, 3).1
              == Completed(Looped(polls[..n], baseline).1.id, Looped(polls[..n], baseline).1.text)
  {
    PlainPrefix(polls, baseline, id, n);
    LoopTrails(polls[..n], baseline, id);
  }

  lemma LoopEndsReading(polls: seq<Poll>, baseline: set<Id>, k: nat)
    ensures LoopEndsAt(ReadPolls(polls), baseline, k) <==> LoopEndsAt(polls, baseline, k)
  {
    forall n | 0 <= n <= |polls| ensures Looped(ReadPolls(polls)[..n], baseline) == Looped(polls[..n], baseline) {
      ReadPrefix(polls, n);
      LoopReads(polls[..n], baseline);
    }
  }

  /** On a trace that reads as plain the driver with three stable polls has its answer no later than
      the extension. */
  lemma ExtensionIsNeverFirst(polls: seq<Poll>, baseline: set<Id>, id: Id, k: nat)
    requires Plain(ReadPolls(polls), baseline, id) && LoopEndsAt(polls, baseline, k)
    ensures var seen := ReadPolls(polls);
            exists j: nat :: j <= k && TrackerEndsAt(seen, baseline, 3, j) && Tracked(seen[..j + 1], baseline, 3).1.Completed?
  {
    LoopEndsReading(polls, baseline, k);
    var seen := ReadPolls(polls);
    PlainMeansNoError(seen, baseline, id, k + 1);
    var j := EndsSomewhere(seen, baseline, 3, k + 1);
    PlainMeansNoError(seen, baseline, id, j + 1);
  }

  lemma PlainPrefix(polls: seq<Poll>, baseline: set<Id>, id: Id, n: nat)
    requires Plain(polls, baseline, id) && n <= |polls|
    ensures Plain(polls[..n], baseline, id)
  {
    assert forall i | 0 <= i < n :: polls[..n][i] == polls[i];
  }

  lemma CompletePrefix(polls: seq<Poll>, baseline: set<Id>, first: nat, n: nat)
    requires StaysComplete(polls, baseline, first) && n <= |polls|
    ensures StaysComplete(polls[..n], baseline, first)
  {
    assert forall i | 0 <= i < n :: polls[..n][i] == polls[i];
  }

  lemma AgreeAt(polls: seq<Poll>, baseline: set<Id>, id: Id, first: nat, n: nat)
    requires Plain(polls, baseline, id) && StaysComplete(polls, baseline, first) && n <= |polls|
    ensures Looped(polls[..n], baseline).1.Going? <==> Tracked(polls[..n], baseline, 3).1.Waiting?
  {
    PlainMeansNoError(polls, baseline, id, n);
    PlainPrefix(polls, baseline, id, n);
    CompletePrefix(polls, baseline, first, n);
    LoopKeepsUp(polls[..n], baseline, id, first);
  }

  lemma AgreeFirst(polls: seq<Poll>, baseline: set<Id>, id: Id, first: nat, k: nat)
    requires Plain(polls, baseline, id) && StaysComplete(polls, baseline, first) && k < |polls|
    ensures LoopEndsAt(polls, baseline, k) <==> TrackerEndsAt(polls, baseline, 3, k)
    ensures LoopEndsAt(polls, baseline, k) ==>
              var j := Looped(polls[..k + 1], baseline).1;
              j.Returned? && Tracked(polls[..k + 1], baseline, 3).1 == Completed(j.id, j.text)
  {
    forall n | 0 <= n <= |polls|
      ensures Looped(polls[..n], baseline).1.Going? <==> Tracked(polls[..n], baseline, 3).1.Waiting?
    {
      AgreeAt(polls, baseline, id, first, n);
    }
    PlainMeansNoError(polls, baseline, id, k + 1);
  }

  /** If the turn stays and always looks complete, both answer first at the same poll, with the same answer. */
  lemma BothAnswerTogether(polls: seq<Poll>, baseline: set<Id>, id: Id, first: nat, k: nat)
    requires Plain(ReadPolls(polls), baseline, id) && StaysComplete(ReadPolls(polls), baseline, first) && k < |polls|
    ensures LoopEndsAt(polls, baseline, k) <==> TrackerEndsAt(ReadPolls(polls), baseline, 3, k)
    ensures LoopEndsAt(polls, baseline, k) ==>
              var j := Looped(polls[..k + 1], baseline).1;
              j.Returned? && Tracked(ReadPolls(polls)[..k + 1], baseline, 3).1 == Completed(j.id, j.text)
  {
    LoopEndsReading(polls, baseline, k);
    AgreeFirst(ReadPolls(polls), baseline, id, first, k);
    ReadPrefix(polls, k + 1);
    LoopReads(polls[..k + 1], baseline);
  }

  // ------------------------------------------- what the loop demands of a text

  /** A poll in which the loop can count the text as settled. */
  predicate Settled(p: Poll, id: Id, text: string) {
    TextAt(p.turns, id) == Some(text) && !p.stop && !p.more && LooksLikeCompleteJson(text)
  }

  predicate WellBound(l: Loop) { (l.bound.None? ==> l.stable.None?) && (l.count > 0 ==> l.stable.Some?) }

  predicate Answers(l: Loop, j: Turned) {
    j.Returned? ==>
      && l.bound == Some(j.id) && l.stable == Some(j.text) && l.count >= 3
      && l.reported != [] && l.reported[|l.reported| - 1] == j.text
  }

  /** A poll counts only if it is settled on the text the loop already has; otherwise it starts again. */
  lemma PollCounts(l: Loop, baseline: set<Id>, p: Poll)
    requires WellBound(l)
    ensures var (l', j) := Polled(l, baseline, p);
            && Answers(l', j) && WellBound(l')
            && (!j.Ambiguous? && l'.count > 0 ==>
                  && l'.count == l.count + 1 && l.stable.Some? && l'.stable == l.stable && l'.bound == l.bound
                  && Settled(p, l.bound.value, l.stable.value))
  {
  }

  ghost predicate LastSettled(polls: seq<Poll>, l: Loop) {
    l.count > 0 ==>
      && l.bound.Some? && l.stable.Some? && l.count <= |polls|
      && forall i | |polls| - l.count <= i < |polls| :: Settled(polls[i], l.bound.value, l.stable.value)
  }

  lemma {:induction false} CountsSettled(polls: seq<Poll>, baseline: set<Id>)
    ensures var (l, j) := Looped(polls, baseline);
            Answers(l, j) && WellBound(l) && (j.Ambiguous? || LastSettled(polls, l))
  {
    if polls != [] {
      var n := |polls| - 1;
      CountsSettled(polls[..n], baseline);
      var before := Looped(polls[..n], baseline);
      if !before.1.Ambiguous? {
        PollCounts(before.0, baseline, polls[n]);
        LastGrows(polls, before.0, Looped(polls, baseline).0);
      }
    }
  }

  lemma LastGrows(polls: seq<Poll>, l: Loop, l': Loop)
    requires polls != [] && LastSettled(polls[..|polls| - 1], l)
    requires l'.count > 0 ==>
               && l'.count == l.count + 1 && l.bound.Some? && l.stable.Some? && l'.stable == l.stable && l'.bound == l.bound
               && Settled(polls[|polls| - 1], l.bound.value, l.stable.value)
    ensures LastSettled(polls, l')
  {
    assert forall i | 0 <= i < |polls| - 1 :: polls[..|polls| - 1][i] == polls[i];
  }

  /** The loop only returns a text that looks complete, that its last three polls in a row show with
      the stop button hidden and no continue button, and that it has reported last. */
  lemma ReturnsOnlySettled(polls: seq<Poll>, baseline: set<Id>, id: Id, text: string)
    requires Looped(polls, baseline).1 == Returned(id, text)
    ensures |polls| >= 3 && forall i | |polls| - 3 <= i < |polls| :: Settled(polls[i], id, text)
    ensures var reported := Looped(polls, baseline).0.reported; reported != [] && reported[|reported| - 1] == text
  {
    CountsSettled(polls, baseline);
  }

  // --------------------------------------------------- documents still arriving

  /** A document as the bracket test sees it: a text, or a bracketed list of parts with a text
      (a comma, a key) before each. */
  datatype Document = Plainly(text: string) | Nested(curly: bool, parts: seq<Part>)
  datatype Part = Part(lead: string, body: Document)

  predicate NoBrackets(s: string) { forall i | 0 <= i < |s| :: !Opens(s[i]) && !Closes(s[i]) }

  /** No string or key in the document holds a bracket. */
  predicate Bare(d: Document)
    decreases d
  {
    match d
    case Plainly(text) => NoBrackets(text)
    case Nested(_, parts) => forall i | 0 <= i < |parts| :: NoBrackets(parts[i].lead) && Bare(parts[i].body)
  }

  function Print(d: Document): string
    decreases d, 0
  {
    match d
    case Plainly(text) => text
    case Nested(curly, parts) =>
      (if curly then "{" else "[") + PrintParts(parts) + (if curly then "}" else "]")
  }

  function PrintParts(parts: seq<Part>): string
    decreases parts, 1
  {
    if parts == [] then "" else parts[0].lead + Print(parts[0].body) + PrintParts(parts[1..])
  }

  /** How many brackets are open after a text. */
  function Depth(s: string): int { OpenCount(s) - CloseCount(s) }

  lemma {:induction false} DepthAdds(a: string, b: string)
    ensures Depth(a + b) == Depth(a) + Depth(b)
  {
    if b == "" {
      assert a + b == a;
    } else {
      DepthAdds(a, b[..|b| - 1]);
      assert (a + b)[..|a + b| - 1] == a + b[..|b| - 1];
    }
  }

  lemma {:induction false} NoBracketsFlat(s: string)
    requires NoBrackets(s)
    ensures Depth(s) == 0
  {
    if s != "" { NoBracketsFlat(s[..|s| - 1]); }
  }

  /** A text that ends as deep as it began and is never shallower on the way. */
  ghost predicate Level(s: string) {
    Depth(s) == 0 && forall n | 0 <= n <= |s| :: Depth(s[..n]) >= 0
  }

  lemma LevelJoins(a: string, b: string)
    requires Level(a) && Level(b)
    ensures Level(a + b)
  {
    DepthAdds(a, b);
    forall n | 0 <= n <= |a + b| ensures Depth((a + b)[..n]) >= 0 {
      if n <= |a| {
        assert (a + b)[..n] == a[..n];
      } else {
        assert (a + b)[..n] == a + b[..n - |a|];
        DepthAdds(a, b[..n - |a|]);
      }
    }
  }

  lemma NoBracketsLevel(s: string)
    requires NoBrackets(s)
    ensures Level(s)
  {
    NoBracketsFlat(s);
    forall n | 0 <= n <= |s| ensures Depth(s[..n]) >= 0 { NoBracketsFlat(s[..n]); }
  }

  lemma OneBracket(s: string)
    requires |s| == 1
    ensures Depth(s) == (if Opens(s[0]) then 1 else 0) - if Closes(s[0]) then 1 else 0
  {
    assert s[..0] == "" && OpenCount("") == 0 && CloseCount("") == 0;
  }

  /** A pair of brackets around a level text is open until its last character. */
  lemma BracketsOpen(open: string, s: string, close: string)
    requires Level(s) && |open| == 1 && |close| == 1 && Opens(open[0]) && Closes(close[0])
    ensures Depth(open + s + close) == 0
    ensures forall n | 0 < n < |open + s + close| :: Depth((open + s + close)[..n]) > 0
  {
    var all := open + s + close;
    OneBracket(open);
    OneBracket(close);
    DepthAdds(open, s);
    DepthAdds(open + s, close);
    forall n | 0 < n < |all| ensures Depth(all[..n]) > 0 {
      assert all[..n] == open + s[..n - 1];
      DepthAdds(open, s[..n - 1]);
    }
  }

  lemma {:induction false} PrintsLevel(d: Document)
    requires Bare(d)
    ensures Level(Print(d))
    ensures d.Nested? ==> forall n | 0 < n < |Print(d)| :: Depth(Print(d)[..n]) > 0
    decreases d, 0
  {
    match d
    case Plainly(text) => NoBracketsLevel(text);
    case Nested(curly, parts) =>
      PartsLevel(parts);
      BracketsOpen(if curly then "{" else "[", PrintParts(parts), if curly then "}" else "]");
      assert Print(d)[..0] == "" && Print(d)[..|Print(d)|] == Print(d);
  }

  lemma {:induction false} PartsLevel(parts: seq<Part>)
    requires forall i | 0 <= i < |parts| :: NoBrackets(parts[i].lead) && Bare(parts[i].body)
    ensures Level(PrintParts(parts))
    decreases parts, 1
  {
    if parts == [] {
      assert PrintParts(parts)[..0] == "";
    } else {
      NoBracketsLevel(parts[0].lead);
      PrintsLevel(parts[0].body);
      PartsLevel(parts[1..]);
      LevelJoins(parts[0].lead, Print(parts[0].body));
      LevelJoins(parts[0].lead + Print(parts[0].body), PrintParts(parts[1..]));
    }
  }

  /** Trimming the end of a text that starts with a bracket leaves a prefix that still does. */
  lemma {:induction false} TrimKeepsBracket(s: string)
    requires s != "" && !IsSpace(s[0])
    ensures TrimRight(s) != "" && TrimRight(s) <= s && TrimLeft(s) == s
  {
    if IsSpace(s[|s| - 1]) { TrimKeepsBracket(s[..|s| - 1]); }
  }

  lemma {:induction false} TrimKeepsDepth(s: string)
    ensures Depth(TrimRight(s)) == Depth(s)
  {
    if s != [] && IsSpace(s[|s| - 1]) { TrimKeepsDepth(s[..|s| - 1]); }
  }

  /** A text that starts with an opening bracket looks complete exactly if no bracket is left open. */
  lemma SeenByDepth(s: string)
    requires s != "" && Opens(s[0])
    ensures LooksLikeCompleteJson(s) <==> Depth(s) == 0
  {
    TrimKeepsBracket(s);
    TrimKeepsDepth(s);
  }

  function Opening(d: Document): string
    requires d.Nested?
  {
    if d.curly then "{" else "["
  }

  function Closing(d: Document): string
    requires d.Nested?
  {
    if d.curly then "}" else "]"
  }

  lemma PrefixDepth(d: Document, n: nat)
    requires d.Nested? && 0 < n < |Print(d)|
    ensures n - 1 <= |PrintParts(d.parts)|
    ensures Depth(Print(d)[..n]) == 1 + Depth(PrintParts(d.parts)[..n - 1])
  {
    var s := PrintParts(d.parts);
    assert Print(d) == Opening(d) + s + Closing(d);
    assert Print(d)[..n] == Opening(d) + s[..n - 1];
    OneBracket(Opening(d));
    DepthAdds(Opening(d), s[..n - 1]);
  }

  lemma WholeDepth(d: Document)
    requires d.Nested?
    ensures Depth(Print(d)) == Depth(PrintParts(d.parts))
  {
    var s := PrintParts(d.parts);
    assert Print(d) == Opening(d) + s + Closing(d);
    OneBracket(Opening(d));
    OneBracket(Closing(d));
    DepthAdds(Opening(d), s);
    DepthAdds(Opening(d) + s, Closing(d));
  }

  /** The depth falls by one at most from one character to the next, so it cannot get below zero
      without being -1 somewhere. */
  lemma {:induction false} PassesMinusOne(s: string, k: nat)
    requires k <= |s| && forall j | 0 <= j <= k :: Depth(s[..j]) != -1
    ensures Depth(s[..k]) >= 0
  {
    if k == 0 {
      assert s[..0] == "";
    } else {
      PassesMinusOne(s, k - 1);
      assert s[..k] == s[..k - 1] + [s[k - 1]];
      DepthAdds(s[..k - 1], [s[k - 1]]);
      OneBracket([s[k - 1]]);
    }
  }

  /** While a document arrives, what has arrived looks complete exactly if its brackets, those in
      strings counted too, are all closed. */
  lemma ArrivedIsSeen(d: Document, n: nat)
    requires d.Nested? && 0 < n <= |Print(d)|
    ensures LooksLikeCompleteJson(Print(d)[..n])
            <==> if n == |Print(d)| then Depth(PrintParts(d.parts)) == 0 else Depth(PrintParts(d.parts)[..n - 1]) == -1
  {
    assert Print(d)[..n][0] == Print(d)[0];
    SeenByDepth(Print(d)[..n]);
    if n == |Print(d)| {
      assert Print(d)[..n] == Print(d);
      WholeDepth(d);
    } else {
      PrefixDepth(d, n);
    }
  }

  /** The whole document is refused exactly if the brackets between its outer ones do not balance. */
  lemma WholeRefusedExactly(d: Document)
    requires d.Nested?
    ensures !LooksLikeCompleteJson(Print(d)) <==> OpenCount(PrintParts(d.parts)) != CloseCount(PrintParts(d.parts))
  {
    assert Print(d)[..|Print(d)|] == Print(d);
    ArrivedIsSeen(d, |Print(d)|);
  }

  /** While a document arrives the loop's test tells exactly when it is all there, if and only if
      the brackets between its outer ones, those in strings counted too, balance and never close
      more than they have opened. */
  lemma TruncationSeenExactly(d: Document)
    requires d.Nested?
    ensures (forall n | 0 < n <= |Print(d)| :: LooksLikeCompleteJson(Print(d)[..n]) <==> n == |Print(d)|)
            <==> Level(PrintParts(d.parts))
  {
    var s := PrintParts(d.parts);
    assert |Print(d)| == |s| + 2 && s[..|s|] == s;
    forall n | 0 < n <= |Print(d)|
      ensures LooksLikeCompleteJson(Print(d)[..n]) <==> if n == |Print(d)| then Depth(s) == 0 else Depth(s[..n - 1]) == -1
    {
      ArrivedIsSeen(d, n);
    }
    if forall n | 0 < n <= |Print(d)| :: LooksLikeCompleteJson(Print(d)[..n]) <==> n == |Print(d)| {
      forall j | 0 <= j <= |s| ensures Depth(s[..j]) >= 0 {
        forall i | 0 <= i <= j ensures Depth(s[..i]) != -1 {
          assert !LooksLikeCompleteJson(Print(d)[..i + 1]);
        }
        PassesMinusOne(s, j);
      }
      assert LooksLikeCompleteJson(Print(d)[..|Print(d)|]);
    }
  }

  /** In particular the test is exact for documents without brackets in their strings. */
  lemma TruncationIsSeen(d: Document, n: nat)
    requires d.Nested? && Bare(d) && 0 < n <= |Print(d)|
    ensures LooksLikeCompleteJson(Print(d)[..n]) <==> n == |Print(d)|
  {
    PartsLevel(d.parts);
    TruncationSeenExactly(d);
  }

  /** The document `{"a":"}"}`. */
  const QUOTED := Nested(true, [Part("\"a\":", Plainly("\"}\""))])

  /** With a bracket inside a string the test is wrong both ways: a part of a document can pass and
      the whole of it be refused, so the loop never returns that answer. */
  lemma QuotedBracketFools()
    ensures Print(QUOTED) == "{\"a\":\"}\"}"
    ensures LooksLikeCompleteJson(Print(QUOTED)[..7]) && !LooksLikeCompleteJson(Print(QUOTED))
  {
    var s := "\"a\":\"}\"";
    assert QUOTED.parts[1..] == [];
    assert PrintParts(QUOTED.parts) == s;
    assert s[..6] == "\"a\":\"" + "}" && s == s[..6] + "\"";
    DepthAdds("\"a\":\"", "}");
    NoBracketsFlat("\"a\":\"");
    OneBracket("}");
    DepthAdds(s[..6], "\"");
    OneBracket("\"");
    assert Depth(s[..6]) == -1 && Depth(s) == -1;
    ArrivedIsSeen(QUOTED, 7);
    WholeRefusedExactly(QUOTED);
  }
}
