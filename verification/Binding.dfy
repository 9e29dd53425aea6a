/** The two detectors that decide when a model's answer has settled, over a trace of page polls:
    browser/binding.py and the loop of extension/common/site_chatgpt.js. */
module Binding {
  import opened Records

  /** An assistant turn with its text, as one poll shows it. */
  datatype Turn = Turn(id: Id, text: string)

  /** `stop`: the stop button is visible; `more`: the bound turn offers to continue generating. */
  datatype Poll = Poll(turns: seq<Turn>, stop: bool, more: bool)

  /** The turns that were not there before the prompt was sent. */
  function NewTurns(turns: seq<Turn>, baseline: set<Id>): (r: seq<Turn>)
    ensures forall t :: t in r <==> t in turns && t.id !in baseline
  {
    if turns == [] then []
    else NewTurns(turns[..|turns| - 1], baseline) + if turns[|turns| - 1].id in baseline then [] else [turns[|turns| - 1]]
  }

  function TextsOf(turns: seq<Turn>, id: Id): seq<string> {
    if turns == [] then []
    else TextsOf(turns[..|turns| - 1], id) + if turns[|turns| - 1].id == id then [turns[|turns| - 1].text] else []
  }

  // ---------------------------------------------------- the Python tracker

  datatype Tracker = Tracker(bound: Option<Id>, last: Option<string>, count: nat, observed: set<Id>)

  datatype Sight = Waiting | Completed(id: Id, text: string) | MultipleTurns | IdentityChanged | DuplicateNodes

  predicate Raises(v: Sight) { v.MultipleTurns? || v.IdentityChanged? || v.DuplicateNodes? }

  const FRESH_TRACKER := Tracker(None, None, 0, {})

  predicate Other(turns: seq<Turn>, id: Id) { exists i :: 0 <= i < |turns| && turns[i].id != id }

  /** `observe`. */
  function Observed(t: Tracker, baseline: set<Id>, stablePolls: int, p: Poll): (Tracker, Sight) {
    var novel := NewTurns(p.turns, baseline);
    var noted := t.(observed := t.observed + set x | x in novel :: x.id);
    if t.bound.None? && novel != [] && Other(novel, novel[0].id) then (noted, MultipleTurns)
    else if t.bound.None? && novel == [] then (noted, Waiting)
    else if t.bound.Some? && Other(novel, t.bound.value) then (noted, IdentityChanged)
    else
      var id := if t.bound.Some? then t.bound.value else novel[0].id;
      var bound := noted.(bound := Some(id));
      var current := TextsOf(novel, id);
      if |current| > 1 then (bound, DuplicateNodes)
      else if current == [] then (bound, Waiting)
      else
        var text := current[0];
        var count := if t.last == Some(text) && !p.stop then t.count + 1 else 0;
        (bound.(last := Some(text), count := count), if count >= stablePolls then Completed(id, text) else Waiting)
  }

  /** The tracker after a list of polls; once it has raised it is not asked again. */
  function Tracked(polls: seq<Poll>, baseline: set<Id>, stablePolls: int): (Tracker, Sight) {
    if polls == [] then (FRESH_TRACKER, Waiting)
    else
      var before := Tracked(polls[..|polls| - 1], baseline, stablePolls);
      if Raises(before.1) then before else Observed(before.0, baseline, stablePolls, polls[|polls| - 1])
  }

  // --------------------------------------------------- the JavaScript loop

  predicate IsSpace(c: char) {
    || '\U{0009}' <= c <= '\U{000D}' || c == ' ' || c == '\U{00A0}' || c == '\U{1680}' || '\U{2000}' <= c <= '\U{200A}'
    || c == '\U{2028}' || c == '\U{2029}' || c == '\U{202F}' || c == '\U{205F}' || c == '\U{3000}' || c == '\U{FEFF}'
  }

  function TrimLeft(s: string): string {
    if s != [] && IsSpace(s[0]) then TrimLeft(s[1..]) else s
  }

  function TrimRight(s: string): string {
    if s != [] && IsSpace(s[|s| - 1]) then TrimRight(s[..|s| - 1]) else s
  }

  predicate Opens(c: char) { c == '{' || c == '[' }

  predicate Closes(c: char) { c == '}' || c == ']' }

  function OpenCount(s: string): nat {
    if s == [] then 0 else OpenCount(s[..|s| - 1]) + if Opens(s[|s| - 1]) then 1 else 0
  }

  function CloseCount(s: string): nat {
    if s == [] then 0 else CloseCount(s[..|s| - 1]) + if Closes(s[|s| - 1]) then 1 else 0
  }

  predicate LooksLikeCompleteJson(text: string) {
    var trimmed := TrimRight(TrimLeft(text));
    trimmed != [] && (!Opens(trimmed[0]) || OpenCount(trimmed) == CloseCount(trimmed))
  }

  /** `reported` is everything passed to `onProgress`. */
  datatype Loop = Loop(bound: Option<Id>, stable: Option<string>, count: nat, reported: seq<string>)

  datatype Turned = Going | Returned(id: Id, text: string) | Ambiguous

  const FRESH_LOOP := Loop(None, None, 0, [])

  /** `assistantText`: nothing unless there is exactly one such turn and it has text. */
  function TextAt(turns: seq<Turn>, id: Id): Option<string> {
    var texts := TextsOf(turns, id);
    if |texts| == 1 && texts[0] != "" then Some(texts[0]) else None
  }

  function Reporting(reported: seq<string>, text: string): seq<string> {
    if reported != [] && reported[|reported| - 1] == text then reported else reported + [text]
  }

  /** The new turns `assistantText` has a text for: several nodes of one id give none. */
  function Legible(turns: seq<Turn>, baseline: set<Id>): seq<Turn> {
    OnlyLegible(NewTurns(turns, baseline), turns)
  }

  function OnlyLegible(listed: seq<Turn>, turns: seq<Turn>): seq<Turn> {
    if listed == [] then []
    else
      var t := listed[|listed| - 1];
      OnlyLegible(listed[..|listed| - 1], turns) + if TextAt(turns, t.id).Some? then [t] else []
  }

  /** The bound turn shows a text. */
  function Sighted(l: Loop, id: Id, text: string, stop: bool): (Loop, Turned) {
    var count := if l.stable == Some(text) && !stop && LooksLikeCompleteJson(text) then l.count + 1 else 0;
    (Loop(Some(id), Some(text), count, Reporting(l.reported, text)), if count >= 3 then Returned(id, text) else Going)
  }

  /** One turn of the loop of `executeTurn`. */
  function Polled(l: Loop, baseline: set<Id>, p: Poll): (Loop, Turned) {
    var novel := Legible(p.turns, baseline);
    if l.bound.None? && |novel| > 1 then (l, Ambiguous)
    else if l.bound.None? && novel == [] then (l, Going)
    else
      var id := if l.bound.None? then novel[0].id else l.bound.value;
      if p.more then (l.(bound := Some(id), count := 0), Going)
      else
        var text := TextAt(p.turns, id);
        if text.None? then (l.(bound := Some(id), stable := None, count := 0), Going)
        else Sighted(l, id, text.value, p.stop)
  }

  function Looped(polls: seq<Poll>, baseline: set<Id>): (Loop, Turned) {
    if polls == [] then (FRESH_LOOP, Going)
    else
      var before := Looped(polls[..|polls| - 1], baseline);
      if before.1.Ambiguous? then before else Polled(before.0, baseline, polls[|polls| - 1])
  }
}

module BindingProofs {
  import opened Records
  import opened Binding

  // -------------------------------------- what the tracker does to a history

  /** Every new turn in the history has this id, and no poll shows it twice. */
  predicate Only(polls: seq<Poll>, baseline: set<Id>, id: Id) {
    forall i | 0 <= i < |polls| ::
      |NewTurns(polls[i].turns, baseline)| <= 1 && forall t | t in NewTurns(polls[i].turns, baseline) :: t.id == id
  }

  /** What the polls in which the turn is present show: its text and whether the stop button was visible. */
  function Shown(polls: seq<Poll>, baseline: set<Id>): seq<(string, bool)> {
    if polls == [] then []
    else
      var p := polls[|polls| - 1];
      var novel := NewTurns(p.turns, baseline);
      Shown(polls[..|polls| - 1], baseline) + if novel == [] then [] else [(novel[0].text, p.stop)]
  }

  /** The last k + 1 sights show one text, and the last k of them with the stop button hidden. */
  ghost predicate Steady(shown: seq<(string, bool)>, k: int) {
    && |shown| >= 1
    && (k > 0 ==>
          && |shown| > k
          && (forall j | |shown| - k - 1 <= j < |shown| :: shown[j].0 == shown[|shown| - 1].0)
          && (forall j | |shown| - k <= j < |shown| :: !shown[j].1))
  }

  function Streak(shown: seq<(string, bool)>): nat {
    if |shown| <= 1 then 0
    else
      var n := |shown| - 1;
      if shown[n].0 == shown[n - 1].0 && !shown[n].1 then Streak(shown[..n]) + 1 else 0
  }

  lemma {:induction false} StreakIsSteady(shown: seq<(string, bool)>, k: int)
    requires |shown| >= 1
    ensures Streak(shown) >= k <==> Steady(shown, k)
    decreases |shown|
  {
    var n := |shown| - 1;
    if k > 0 && n > 0 && shown[n].0 == shown[n - 1].0 && !shown[n].1 {
      StreakIsSteady(shown[..n], k - 1);
      var s := shown[..n];
      if Steady(s, k - 1) {
        forall j | n - k <= j < |shown| ensures shown[j].0 == shown[n].0 { assert j < n ==> s[j] == shown[j]; }
        forall j | n + 1 - k <= j < |shown| ensures !shown[j].1 { assert j < n ==> s[j] == shown[j]; }
      }
      if Steady(shown, k) {
        forall j | |s| - (k - 1) - 1 <= j < |s| ensures s[j].0 == s[|s| - 1].0 {
          assert shown[j].0 == shown[n].0 && shown[n - 1].0 == shown[n].0;
        }
      }
    }
  }

  lemma SingleText(turns: seq<Turn>, id: Id)
    requires |turns| == 1
    ensures TextsOf(turns, id) == if turns[0].id == id then [turns[0].text] else []
  {
    assert turns[..0] == [];
  }

  lemma {:induction false} TextsOfAll(turns: seq<Turn>, id: Id)
    requires forall t | t in turns :: t.id == id
    ensures |TextsOf(turns, id)| == |turns|
    ensures turns != [] ==> TextsOf(turns, id)[0] == turns[0].text
  {
    if turns != [] {
      var n := |turns| - 1;
      TextsOfAll(turns[..n], id);
    }
  }

  /** The state of a tracker that has not raised. */
  ghost predicate Follows(t: Tracker, polls: seq<Poll>, baseline: set<Id>) {
    var shown := Shown(polls, baseline);
    && (t.bound.None? ==> shown == [] && t.last.None? && t.count == 0 && t.observed == {} && Only(polls, baseline, 0))
    && (t.bound.Some? ==>
          && Only(polls, baseline, t.bound.value) && |shown| > 0 && t.observed == {t.bound.value}
          && t.last == Some(shown[|shown| - 1].0) && t.count == Streak(shown))
  }

  lemma OnlyExtends(polls: seq<Poll>, baseline: set<Id>, id: Id)
    requires polls != []
    ensures Only(polls, baseline, id) <==>
              (&& Only(polls[..|polls| - 1], baseline, id)
               && |NewTurns(polls[|polls| - 1].turns, baseline)| <= 1
               && forall t | t in NewTurns(polls[|polls| - 1].turns, baseline) :: t.id == id)
  {
    var n := |polls| - 1;
    forall i | 0 <= i < n ensures polls[..n][i] == polls[i] {}
    if Only(polls, baseline, id) {
      forall i | 0 <= i < n
        ensures |NewTurns(polls[..n][i].turns, baseline)| <= 1 && forall t | t in NewTurns(polls[..n][i].turns, baseline) :: t.id == id
      {
        assert polls[..n][i] == polls[i];
      }
    }
  }

  lemma {:induction false} QuietHistory(polls: seq<Poll>, baseline: set<Id>, a: Id, b: Id)
    requires Only(polls, baseline, a) && Shown(polls, baseline) == []
    ensures Only(polls, baseline, b)
    decreases |polls|
  {
    if polls != [] {
      OnlyExtends(polls, baseline, a);
      assert NewTurns(polls[|polls| - 1].turns, baseline) != [] ==> |Shown(polls, baseline)| > 0;
      QuietHistory(polls[..|polls| - 1], baseline, a, b);
      OnlyExtends(polls, baseline, b);
    }
  }

  /** A poll that shows nothing new leaves the tracker as it was. */
  lemma ObservedAbsent(t: Tracker, baseline: set<Id>, k: int, p: Poll)
    requires NewTurns(p.turns, baseline) == []
    ensures Observed(t, baseline, k, p) == (t, Waiting)
  {
    var novel := NewTurns(p.turns, baseline);
    assert t.observed + (set x | x in novel :: x.id) == t.observed;
  }

  lemma ObservedPresent(t: Tracker, baseline: set<Id>, k: int, p: Poll, id: Id, text: string)
    requires NewTurns(p.turns, baseline) == [Turn(id, text)] && (t.bound.Some? ==> t.bound.value == id)
    ensures var count := if t.last == Some(text) && !p.stop then t.count + 1 else 0;
            Observed(t, baseline, k, p)
            == (Tracker(Some(id), Some(text), count, t.observed + {id}), if count >= k then Completed(id, text) else Waiting)
  {
    OneIdOneText(NewTurns(p.turns, baseline), id, text);
  }

  lemma OneIdOneText(novel: seq<Turn>, id: Id, text: string)
    requires novel == [Turn(id, text)]
    ensures TextsOf(novel, id) == [text] && (set x | x in novel :: x.id) == {id} && !Other(novel, id)
  {
    SingleText(novel, id);
  }

  lemma AbsentStep(polls: seq<Poll>, baseline: set<Id>, t: Tracker, id: Id)
    requires polls != [] && Follows(t, polls[..|polls| - 1], baseline) && Only(polls, baseline, id)
    requires NewTurns(polls[|polls| - 1].turns, baseline) == []
    ensures Follows(t, polls, baseline)
  {
    var n := |polls| - 1;
    OnlyExtends(polls, baseline, id);
    assert Shown(polls, baseline) == Shown(polls[..n], baseline);
    if t.bound.None? {
      QuietHistory(polls, baseline, id, 0);
    } else {
      SameId(polls[..n], baseline, t.bound.value, id);
    }
  }

  lemma PresentStep(polls: seq<Poll>, baseline: set<Id>, t: Tracker, id: Id, text: string, count: nat)
    requires polls != [] && Follows(t, polls[..|polls| - 1], baseline) && Only(polls, baseline, id)
    requires NewTurns(polls[|polls| - 1].turns, baseline) == [Turn(id, text)]
    requires count == if t.last == Some(text) && !polls[|polls| - 1].stop then t.count + 1 else 0
    ensures t.bound.Some? ==> t.bound.value == id
    ensures Follows(Tracker(Some(id), Some(text), count, t.observed + {id}), polls, baseline)
  {
    var n := |polls| - 1;
    OnlyExtends(polls, baseline, id);
    var before, shown := Shown(polls[..n], baseline), Shown(polls, baseline);
    assert shown == before + [(text, polls[n].stop)];
    assert shown[..|before|] == before;
    if t.bound.Some? { SameId(polls[..n], baseline, t.bound.value, id); }
  }

  /** One poll that shows nothing new, or one turn of the bound identity. */
  lemma CalmStep(polls: seq<Poll>, baseline: set<Id>, k: int, t: Tracker, id: Id)
    requires polls != [] && Follows(t, polls[..|polls| - 1], baseline) && Only(polls, baseline, id)
    ensures var (t', v) := Observed(t, baseline, k, polls[|polls| - 1]);
            var novel := NewTurns(polls[|polls| - 1].turns, baseline);
            && Follows(t', polls, baseline) && |novel| <= 1
            && v == if novel != [] && Streak(Shown(polls, baseline)) >= k then Completed(id, novel[0].text) else Waiting
  {
    var p := polls[|polls| - 1];
    var novel := NewTurns(p.turns, baseline);
    OnlyExtends(polls, baseline, id);
    if novel == [] {
      ObservedAbsent(t, baseline, k, p);
      AbsentStep(polls, baseline, t, id);
    } else {
      assert novel[0] in novel && novel == [Turn(id, novel[0].text)];
      var count := if t.last == Some(novel[0].text) && !p.stop then t.count + 1 else 0;
      PresentStep(polls, baseline, t, id, novel[0].text, count);
      ObservedPresent(t, baseline, k, p, id, novel[0].text);
    }
  }

  /** Two identities cannot both be the only one once a turn has shown. */
  lemma {:induction false} SameId(polls: seq<Poll>, baseline: set<Id>, a: Id, b: Id)
    requires Only(polls, baseline, a) && Only(polls, baseline, b) && Shown(polls, baseline) != []
    ensures a == b
  {
    var n := |polls| - 1;
    OnlyExtends(polls, baseline, a);
    OnlyExtends(polls, baseline, b);
    var novel := NewTurns(polls[n].turns, baseline);
    if novel == [] {
      SameId(polls[..n], baseline, a, b);
    } else {
      assert novel[0] in novel;
    }
  }

  /** One poll that shows a second identity or a turn twice. */
  lemma WildStep(polls: seq<Poll>, baseline: set<Id>, k: int, t: Tracker)
    requires polls != [] && Follows(t, polls[..|polls| - 1], baseline)
    requires forall id :: !Only(polls, baseline, id)
    ensures Raises(Observed(t, baseline, k, polls[|polls| - 1]).1)
  {
    var n := |polls| - 1;
    var novel := NewTurns(polls[n].turns, baseline);
    var id := if t.bound.Some? then t.bound.value else if novel == [] then 0 else novel[0].id;
    OnlyExtends(polls, baseline, id);
    if t.bound.None? { QuietHistory(polls[..n], baseline, 0, id); }
    if forall x | x in novel :: x.id == id { TextsOfAll(novel, id); }
  }

  ghost predicate Clean(polls: seq<Poll>, baseline: set<Id>) {
    exists id :: Only(polls, baseline, id)
  }

  lemma {:induction false} TrackedFollows(polls: seq<Poll>, baseline: set<Id>, k: int)
    ensures Raises(Tracked(polls, baseline, k).1) <==> !Clean(polls, baseline)
    ensures Clean(polls, baseline) ==> Follows(Tracked(polls, baseline, k).0, polls, baseline)
  {
    if polls == [] {
      assert Only(polls, baseline, 0);
    } else {
      var n := |polls| - 1;
      TrackedFollows(polls[..n], baseline, k);
      var before := Tracked(polls[..n], baseline, k);
      if id :| Only(polls, baseline, id) {
        OnlyExtends(polls, baseline, id);
        CalmStep(polls, baseline, k, before.0, id);
      } else if Clean(polls[..n], baseline) {
        WildStep(polls, baseline, k, before.0);
      }
    }
  }

  /** The tracker raises exactly if the history shows two new identities or one turn twice in a poll. */
  lemma RaisesExactly(polls: seq<Poll>, baseline: set<Id>, k: int)
    ensures Raises(Tracked(polls, baseline, k).1) <==> forall id :: !Only(polls, baseline, id)
  {
    TrackedFollows(polls, baseline, k);
  }

  lemma LastVerdict(polls: seq<Poll>, baseline: set<Id>, k: int, id: Id)
    requires polls != [] && Only(polls, baseline, id)
    ensures var novel := NewTurns(polls[|polls| - 1].turns, baseline);
            && |novel| <= 1 && (novel != [] ==> novel[0].id == id)
            && (novel != [] ==> Shown(polls, baseline) != [])
            && Tracked(polls, baseline, k).1
               == if novel != [] && Steady(Shown(polls, baseline), k) then Completed(id, novel[0].text) else Waiting
  {
    var n := |polls| - 1;
    OnlyExtends(polls, baseline, id);
    TrackedFollows(polls[..n], baseline, k);
    CalmStep(polls, baseline, k, Tracked(polls[..n], baseline, k).0, id);
    if NewTurns(polls[n].turns, baseline) != [] {
      assert Shown(polls, baseline) != [];
      StreakIsSteady(Shown(polls, baseline), k);
    }
  }

  /** The tracker returns an answer exactly if its identity is the only new one ever seen, the last
      poll shows it, and its last k + 1 sights show that text, the last k with the stop button
      hidden. Polls without it neither break nor lengthen the streak. */
  lemma CompletesExactly(polls: seq<Poll>, baseline: set<Id>, k: int, id: Id, text: string)
    requires polls != []
    ensures Tracked(polls, baseline, k).1 == Completed(id, text)
            <==> (&& Only(polls, baseline, id)
                  && NewTurns(polls[|polls| - 1].turns, baseline) == [Turn(id, text)]
                  && Steady(Shown(polls, baseline), k))
  {
    TrackedFollows(polls, baseline, k);
    var novel := NewTurns(polls[|polls| - 1].turns, baseline);
    if x :| Only(polls, baseline, x) {
      LastVerdict(polls, baseline, k, x);
      if novel != [] && Only(polls, baseline, id) { SameId(polls, baseline, x, id); }
    }
  }

  // ------------------------------------------------- the two detectors compared

  /** A trace both detectors are made for: one new turn at most, with text, and no continue button. */
  predicate Plain(polls: seq<Poll>, baseline: set<Id>, id: Id) {
    && Only(polls, baseline, id)
    && forall i | 0 <= i < |polls| ::
         && !polls[i].more
         && forall t | t in polls[i].turns :: t.text != ""
  }

  lemma {:induction false} TextsOfNew(turns: seq<Turn>, baseline: set<Id>, id: Id)
    requires id !in baseline
    ensures TextsOf(NewTurns(turns, baseline), id) == TextsOf(turns, id)
  {
    if turns != [] {
      var n := |turns| - 1;
      TextsOfNew(turns[..n], baseline, id);
      var novel := NewTurns(turns, baseline);
      if turns[n].id in baseline {
        assert novel == NewTurns(turns[..n], baseline);
      } else {
        assert novel[..|novel| - 1] == NewTurns(turns[..n], baseline);
      }
    }
  }

  /** What holds between the two after the same polls: the loop is never ahead. */
  ghost predicate Trails(l: Loop, t: Tracker, baseline: set<Id>) {
    && l.bound == t.bound && l.count <= t.count
    && (l.bound.Some? ==> l.bound.value !in baseline)
    && (l.stable.Some? ==> l.stable == t.last)
  }

  lemma TextPresent(turns: seq<Turn>, baseline: set<Id>, id: Id, text: string)
    requires (forall x | x in turns :: x.text != "") && NewTurns(turns, baseline) == [Turn(id, text)]
    ensures id !in baseline && TextAt(turns, id) == Some(text) && text != ""
  {
    var novel := NewTurns(turns, baseline);
    assert novel[0] in novel;
    SingleText(novel, id);
    TextsOfNew(turns, baseline, id);
  }

  lemma OneLegible(listed: seq<Turn>, turns: seq<Turn>, id: Id, text: string)
    requires listed == [Turn(id, text)] && TextAt(turns, id).Some?
    ensures OnlyLegible(listed, turns) == listed
  {
    assert listed[..0] == [] && OnlyLegible([], turns) == [];
  }

  lemma PolledPresent(l: Loop, baseline: set<Id>, p: Poll, id: Id, text: string)
    requires !p.more && (forall x | x in p.turns :: x.text != "")
    requires NewTurns(p.turns, baseline) == [Turn(id, text)] && (l.bound.Some? ==> l.bound.value == id)
    ensures id !in baseline
    ensures Polled(l, baseline, p) == Sighted(l, id, text, p.stop)
  {
    TextPresent(p.turns, baseline, id, text);
    OneLegible(NewTurns(p.turns, baseline), p.turns, id, text);
  }

  lemma PolledAbsent(l: Loop, baseline: set<Id>, p: Poll)
    requires !p.more && NewTurns(p.turns, baseline) == [] && (l.bound.Some? ==> l.bound.value !in baseline)
    ensures Polled(l, baseline, p) == (if l.bound.None? then l else l.(stable := None, count := 0), Going)
  {
    assert Legible(p.turns, baseline) == [];
    if l.bound.Some? { TextsOfNew(p.turns, baseline, l.bound.value); }
  }

  /** What one plain poll must keep. */
  ghost predicate StillTrails(after: (Loop, Turned), seen: (Tracker, Sight), baseline: set<Id>, id: Id) {
    && !after.1.Ambiguous? && !Raises(seen.1) && Trails(after.0, seen.0, baseline)
    && (seen.0.bound.Some? ==> seen.0.bound.value == id)
    && (after.1.Returned? ==> seen.1 == Completed(after.1.id, after.1.text))
  }

  /** Both detectors see the bound turn with a text. */
  lemma SameSight(l: Loop, t: Tracker, baseline: set<Id>, id: Id, text: string, stop: bool)
    requires Trails(l, t, baseline) && (t.bound.Some? ==> t.bound.value == id) && id !in baseline
    ensures var count := if t.last == Some(text) && !stop then t.count + 1 else 0;
            var seen := if count >= 3 then Completed(id, text) else Waiting;
            StillTrails(Sighted(l, id, text, stop), (Tracker(Some(id), Some(text), count, t.observed + {id}), seen), baseline, id)
  {
  }

  lemma SightTrails(l: Loop, t: Tracker, baseline: set<Id>, id: Id, text: string, p: Poll)
    requires Trails(l, t, baseline) && (t.bound.Some? ==> t.bound.value == id) && !p.more
    requires (forall x | x in p.turns :: x.text != "") && NewTurns(p.turns, baseline) == [Turn(id, text)]
    ensures StillTrails(Polled(l, baseline, p), Observed(t, baseline, 3, p), baseline, id)
  {
    PolledPresent(l, baseline, p, id, text);
    ObservedPresent(t, baseline, 3, p, id, text);
    SameSight(l, t, baseline, id, text, p.stop);
  }

  lemma PlainStep(p: Poll, baseline: set<Id>, id: Id, l: Loop, t: Tracker)
    requires Trails(l, t, baseline) && !p.more && (forall x | x in p.turns :: x.text != "")
    requires |NewTurns(p.turns, baseline)| <= 1 && (forall x | x in NewTurns(p.turns, baseline) :: x.id == id)
    requires t.bound.Some? ==> t.bound.value == id
    ensures StillTrails(Polled(l, baseline, p), Observed(t, baseline, 3, p), baseline, id)
  {
    var novel := NewTurns(p.turns, baseline);
    if novel == [] {
      PolledAbsent(l, baseline, p);
      ObservedAbsent(t, baseline, 3, p);
    } else {
      assert novel[0] in novel && novel == [Turn(id, novel[0].text)];
      SightTrails(l, t, baseline, id, novel[0].text, p);
    }
  }

  lemma {:induction false} LoopTrails(polls: seq<Poll>, baseline: set<Id>, id: Id)
    requires Plain(polls, baseline, id)
    ensures StillTrails(Looped(polls, baseline), Tracked(polls, baseline, 3), baseline, id)
  {
    if polls != [] {
      var n := |polls| - 1;
      assert forall i | 0 <= i < n :: polls[..n][i] == polls[i];
      OnlyExtends(polls, baseline, id);
      LoopTrails(polls[..n], baseline, id);
      PlainStep(polls[n], baseline, id, Looped(polls[..n], baseline).0, Tracked(polls[..n], baseline, 3).0);
    }
  }

  /** On a plain trace the JavaScript loop never answers before the Python tracker with three stable
      polls: whenever it returns, the tracker completes at that same poll with the same answer. */
  lemma LoopIsNeverEarlier(polls: seq<Poll>, baseline: set<Id>, id: Id, answer: Id, text: string)
    requires Plain(polls, baseline, id) && Looped(polls, baseline).1 == Returned(answer, text)
    ensures Tracked(polls, baseline, 3).1 == Completed(answer, text)
  {
    LoopTrails(polls, baseline, id);
  }

  /** From the poll in which the turn first shows, it stays and always looks complete. */
  predicate StaysComplete(polls: seq<Poll>, baseline: set<Id>, first: nat) {
    forall i | 0 <= i < |polls| ::
      var novel := NewTurns(polls[i].turns, baseline);
      if i < first then novel == [] else novel != [] && LooksLikeCompleteJson(novel[0].text)
  }

  lemma KeptUpStep(p: Poll, baseline: set<Id>, id: Id, l: Loop, t: Tracker)
    requires Trails(l, t, baseline) && !p.more && (forall x | x in p.turns :: x.text != "")
    requires |NewTurns(p.turns, baseline)| == 1 && (forall x | x in NewTurns(p.turns, baseline) :: x.id == id)
    requires (t.bound.Some? ==> t.bound.value == id) && l.stable == t.last && l.count == t.count
    requires LooksLikeCompleteJson(NewTurns(p.turns, baseline)[0].text)
    ensures var (l', j) := Polled(l, baseline, p);
            var (t', v) := Observed(t, baseline, 3, p);
            l'.stable == t'.last && l'.count == t'.count && (v.Completed? ==> j == Returned(v.id, v.text))
  {
    var novel := NewTurns(p.turns, baseline);
    assert novel[0] in novel && novel == [Turn(id, novel[0].text)];
    PolledPresent(l, baseline, p, id, novel[0].text);
    ObservedPresent(t, baseline, 3, p, id, novel[0].text);
  }

  lemma {:induction false} LoopKeepsUp(polls: seq<Poll>, baseline: set<Id>, id: Id, first: nat)
    requires Plain(polls, baseline, id) && StaysComplete(polls, baseline, first)
    ensures var (l, j) := Looped(polls, baseline);
            var (t, v) := Tracked(polls, baseline, 3);
            && l.stable == t.last && l.count == t.count
            && (|polls| <= first ==> t.bound.None?)
            && (v.Completed? ==> j == Returned(v.id, v.text))
  {
    if polls != [] {
      var n := |polls| - 1;
      assert forall i | 0 <= i < n :: polls[..n][i] == polls[i];
      OnlyExtends(polls, baseline, id);
      LoopTrails(polls[..n], baseline, id);
      LoopKeepsUp(polls[..n], baseline, id, first);
      var l, t := Looped(polls[..n], baseline).0, Tracked(polls[..n], baseline, 3).0;
      if NewTurns(polls[n].turns, baseline) == [] {
        PolledAbsent(l, baseline, polls[n]);
        ObservedAbsent(t, baseline, 3, polls[n]);
      } else {
        KeptUpStep(polls[n], baseline, id, l, t);
      }
    }
  }

  /** If the turn stays once it has shown and its text always looks complete, the two answer at the
      same polls with the same identity and text. */
  lemma SteadyTurnsAgree(polls: seq<Poll>, baseline: set<Id>, id: Id, first: nat, answer: Id, text: string)
    requires Plain(polls, baseline, id) && StaysComplete(polls, baseline, first)
    ensures Looped(polls, baseline).1 == Returned(answer, text) <==> Tracked(polls, baseline, 3).1 == Completed(answer, text)
  {
    LoopTrails(polls, baseline, id);
    LoopKeepsUp(polls, baseline, id, first);
  }
}
