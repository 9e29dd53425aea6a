/** What `executeTurn` answers, said of the history of polls alone: which turn it takes, when it refuses to
    guess, when it returns and what it reports. */
module BindingChoice {
  import opened Records
  import opened Binding
  import opened BindingRuns

  // ------------------------------------------------------- texts of one page

  /** A turn has a text exactly if one node shows it, and that node is not empty. */
  lemma TextAtIs(turns: seq<Turn>, id: Id, text: string)
    ensures TextAt(turns, id) == Some(text)
       <==> (text != "" && exists i :: 0 <= i < |turns| && turns[i] == Turn(id, text)
                                       && forall j | 0 <= j < |turns| && j != i :: turns[j].id != id)
  {
    TextsAre(turns, id);
    if i :| 0 <= i < |turns| && turns[i] == Turn(id, text) && forall j | 0 <= j < |turns| && j != i :: turns[j].id != id {
      OneText(turns, id, i);
    }
  }

  lemma {:induction false} OneText(turns: seq<Turn>, id: Id, i: nat)
    requires i < |turns| && turns[i].id == id && forall j | 0 <= j < |turns| && j != i :: turns[j].id != id
    ensures TextsOf(turns, id) == [turns[i].text]
  {
    var n := |turns| - 1;
    assert forall j | 0 <= j < n :: turns[..n][j] == turns[j];
    if i == n { NoText(turns[..n], id); } else { OneText(turns[..n], id, i); }
  }

  lemma {:induction false} NoText(turns: seq<Turn>, id: Id)
    requires forall j | 0 <= j < |turns| :: turns[j].id != id
    ensures TextsOf(turns, id) == []
  {
    if turns != [] { NoText(turns[..|turns| - 1], id); }
  }

  lemma {:induction false} TextsAre(turns: seq<Turn>, id: Id)
    ensures |TextsOf(turns, id)| == 0 ==> forall j | 0 <= j < |turns| :: turns[j].id != id
    ensures |TextsOf(turns, id)| == 1 ==>
              exists i :: 0 <= i < |turns| && turns[i] == Turn(id, TextsOf(turns, id)[0])
                          && forall j | 0 <= j < |turns| && j != i :: turns[j].id != id
  {
    if turns != [] {
      var n := |turns| - 1;
      TextsAre(turns[..n], id);
      assert forall j | 0 <= j < n :: turns[..n][j] == turns[j];
      if |TextsOf(turns, id)| == 1 {
        if turns[n].id == id {
          assert turns[n] == Turn(id, TextsOf(turns, id)[0]);
        } else {
          var i :| 0 <= i < n && turns[..n][i] == Turn(id, TextsOf(turns, id)[0])
                   && forall j | 0 <= j < n && j != i :: turns[..n][j].id != id;
          assert turns[i] == Turn(id, TextsOf(turns, id)[0]);
          forall j | 0 <= j < |turns| && j != i ensures turns[j].id != id { assert j < n ==> turns[..n][j] == turns[j]; }
        }
      }
    }
  }

  // ------------------------------------------------------- the turn it takes

  /** The poll shows a new turn of this id, with a text. */
  predicate Shows(p: Poll, baseline: set<Id>, id: Id) {
    (exists t :: t in NewTurns(p.turns, baseline) && t.id == id) && TextAt(p.turns, id).Some?
  }

  ghost predicate ShowsSome(p: Poll, baseline: set<Id>) { exists id :: Shows(p, baseline, id) }

  /** Poll k is the first that shows a new turn with a text. */
  ghost predicate FirstShown(polls: seq<Poll>, baseline: set<Id>, k: nat) {
    k < |polls| && ShowsSome(polls[k], baseline) && forall j | 0 <= j < k :: !ShowsSome(polls[j], baseline)
  }

  ghost predicate ShowsOnly(p: Poll, baseline: set<Id>, id: Id) {
    Shows(p, baseline, id) && forall other :: Shows(p, baseline, other) ==> other == id
  }

  ghost predicate ShowsTwo(p: Poll, baseline: set<Id>) {
    exists id, other :: id != other && Shows(p, baseline, id) && Shows(p, baseline, other)
  }

  lemma {:induction false} LegibleIn(listed: seq<Turn>, turns: seq<Turn>, t: Turn)
    ensures t in OnlyLegible(listed, turns) <==> t in listed && TextAt(turns, t.id).Some?
  {
    if listed != [] {
      LegibleIn(listed[..|listed| - 1], turns, t);
      assert listed == listed[..|listed| - 1] + [listed[|listed| - 1]];
    }
  }

  predicate Unlike(ts: seq<Turn>) { forall i, j | 0 <= i < j < |ts| :: ts[i].id != ts[j].id }

  lemma {:induction false} LegibleUnlike(turns: seq<Turn>, baseline: set<Id>, n: nat)
    requires n <= |turns|
    ensures Unlike(OnlyLegible(NewTurns(turns[..n], baseline), turns))
  {
    if n > 0 {
      LegibleUnlike(turns, baseline, n - 1);
      NextUnlike(turns, baseline, n - 1);
    }
  }

  lemma NextUnlike(turns: seq<Turn>, baseline: set<Id>, m: nat)
    requires m < |turns| && Unlike(OnlyLegible(NewTurns(turns[..m], baseline), turns))
    ensures Unlike(OnlyLegible(NewTurns(turns[..m + 1], baseline), turns))
  {
    NewTurnsNext(turns, baseline, m);
    if turns[m].id !in baseline && TextAt(turns, turns[m].id).Some? {
      EarlierUnlike(turns, baseline, m);
      StillUnlike(OnlyLegible(NewTurns(turns[..m], baseline), turns), turns[m]);
    }
  }

  lemma StillUnlike(ts: seq<Turn>, last: Turn)
    requires Unlike(ts) && forall t | t in ts :: t.id != last.id
    ensures Unlike(ts + [last])
  {
  }

  lemma EarlierUnlike(turns: seq<Turn>, baseline: set<Id>, m: nat)
    requires m < |turns| && TextAt(turns, turns[m].id).Some?
    ensures forall t | t in OnlyLegible(NewTurns(turns[..m], baseline), turns) :: t.id != turns[m].id
  {
    TextAtIs(turns, turns[m].id, TextAt(turns, turns[m].id).value);
    forall t | t in OnlyLegible(NewTurns(turns[..m], baseline), turns) ensures t.id != turns[m].id {
      LegibleIn(NewTurns(turns[..m], baseline), turns, t);
      var i :| 0 <= i < m && turns[..m][i] == t;
      assert turns[i] == t;
    }
  }

  lemma NewTurnsNext(turns: seq<Turn>, baseline: set<Id>, m: nat)
    requires m < |turns|
    ensures OnlyLegible(NewTurns(turns[..m + 1], baseline), turns)
            == OnlyLegible(NewTurns(turns[..m], baseline), turns)
               + if turns[m].id !in baseline && TextAt(turns, turns[m].id).Some? then [turns[m]] else []
  {
    assert turns[..m + 1][..m] == turns[..m];
    var novel := NewTurns(turns[..m + 1], baseline);
    if turns[m].id in baseline {
      assert novel == NewTurns(turns[..m], baseline);
    } else {
      assert novel[..|novel| - 1] == NewTurns(turns[..m], baseline);
    }
  }

  /** What the loop sees of a poll while it has taken no turn. */
  lemma LegibleIs(p: Poll, baseline: set<Id>)
    ensures var novel := Legible(p.turns, baseline);
            && (novel == [] <==> !ShowsSome(p, baseline))
            && (|novel| > 1 <==> ShowsTwo(p, baseline))
            && (|novel| == 1 ==> ShowsOnly(p, baseline, novel[0].id))
  {
    var novel := Legible(p.turns, baseline);
    assert p.turns[..|p.turns|] == p.turns;
    LegibleUnlike(p.turns, baseline, |p.turns|);
    forall t ensures t in novel <==> t in NewTurns(p.turns, baseline) && TextAt(p.turns, t.id).Some? {
      LegibleIn(NewTurns(p.turns, baseline), p.turns, t);
    }
    forall i | 0 <= i < |novel| ensures Shows(p, baseline, novel[i].id) { assert novel[i] in novel; }
    forall id | Shows(p, baseline, id) ensures exists i :: 0 <= i < |novel| && novel[i].id == id {
      var t :| t in NewTurns(p.turns, baseline) && t.id == id;
      assert t in novel;
    }
    if |novel| > 1 { assert novel[0].id != novel[1].id; }
  }

  /** Where the loop stands as to the turn it takes. */
  ghost predicate TookTurn(polls: seq<Poll>, baseline: set<Id>, l: Loop, j: Turned) {
    if j.Ambiguous? then exists k: nat :: FirstShown(polls, baseline, k) && ShowsTwo(polls[k], baseline)
    else if l.bound.Some? then exists k: nat :: FirstShown(polls, baseline, k) && ShowsOnly(polls[k], baseline, l.bound.value)
    else NoneShown(polls, baseline)
  }

  ghost predicate NoneShown(polls: seq<Poll>, baseline: set<Id>) {
    forall p | p in polls :: !ShowsSome(p, baseline)
  }

  lemma FirstShownLater(polls: seq<Poll>, baseline: set<Id>, n: nat, k: nat)
    requires n <= |polls| && FirstShown(polls[..n], baseline, k)
    ensures FirstShown(polls, baseline, k) && polls[..n][k] == polls[k]
  {
    assert forall j | 0 <= j < n :: polls[..n][j] == polls[j];
  }

  lemma FirstShownNow(polls: seq<Poll>, baseline: set<Id>)
    requires polls != [] && ShowsSome(polls[|polls| - 1], baseline)
    requires NoneShown(polls[..|polls| - 1], baseline)
    ensures FirstShown(polls, baseline, |polls| - 1)
  {
    forall j | 0 <= j < |polls| - 1 ensures !ShowsSome(polls[j], baseline) { assert polls[j] in polls[..|polls| - 1]; }
  }

  /** One poll, as to the turn the loop takes. */
  lemma PollTakes(l: Loop, baseline: set<Id>, p: Poll)
    ensures var (l', j) := Polled(l, baseline, p);
            && (l.bound.Some? ==> l'.bound == l.bound && !j.Ambiguous?)
            && (l.bound.None? ==> (j.Ambiguous? <==> ShowsTwo(p, baseline)))
            && (l.bound.None? && !j.Ambiguous? ==>
                  if l'.bound.Some? then ShowsOnly(p, baseline, l'.bound.value) else !ShowsSome(p, baseline))
  {
    LegibleIs(p, baseline);
  }

  lemma TwoAreSome(p: Poll, baseline: set<Id>)
    ensures ShowsTwo(p, baseline) ==> ShowsSome(p, baseline)
    ensures forall id :: ShowsOnly(p, baseline, id) ==> ShowsSome(p, baseline) && !ShowsTwo(p, baseline)
  {
  }

  lemma {:induction false} LoopTakes(polls: seq<Poll>, baseline: set<Id>)
    ensures TookTurn(polls, baseline, Looped(polls, baseline).0, Looped(polls, baseline).1)
  {
    if polls != [] {
      var n := |polls| - 1;
      LoopTakes(polls[..n], baseline);
      var (l, j) := Looped(polls[..n], baseline);
      if j.Ambiguous? {
        TookStays(polls, baseline, l, j);
      } else {
        PollTakes(l, baseline, polls[n]);
        if l.bound.Some? {
          TookStays(polls, baseline, l, Looped(polls, baseline).1);
        } else {
          TakesNow(polls, baseline, Looped(polls, baseline).0, Looped(polls, baseline).1);
        }
      }
    }
  }

  lemma TakesNow(polls: seq<Poll>, baseline: set<Id>, l: Loop, j: Turned)
    requires polls != [] && NoneShown(polls[..|polls| - 1], baseline)
    requires j.Ambiguous? <==> ShowsTwo(polls[|polls| - 1], baseline)
    requires !j.Ambiguous? ==>
               if l.bound.Some? then ShowsOnly(polls[|polls| - 1], baseline, l.bound.value) else !ShowsSome(polls[|polls| - 1], baseline)
    ensures TookTurn(polls, baseline, l, j)
  {
    TwoAreSome(polls[|polls| - 1], baseline);
    if ShowsSome(polls[|polls| - 1], baseline) {
      FirstShownNow(polls, baseline);
    } else {
      assert polls == polls[..|polls| - 1] + [polls[|polls| - 1]];
    }
  }

  lemma TookStays(polls: seq<Poll>, baseline: set<Id>, l: Loop, j: Turned)
    requires polls != [] && j.Ambiguous? == Looped(polls[..|polls| - 1], baseline).1.Ambiguous?
    requires TookTurn(polls[..|polls| - 1], baseline, l, j) && (j.Ambiguous? || l.bound.Some?)
    ensures TookTurn(polls, baseline, l, j)
    ensures !j.Ambiguous? ==> forall l': Loop, j': Turned | l'.bound == l.bound && !j'.Ambiguous? :: TookTurn(polls, baseline, l', j')
  {
    var n := |polls| - 1;
    if j.Ambiguous? {
      var k: nat :| FirstShown(polls[..n], baseline, k) && ShowsTwo(polls[..n][k], baseline);
      FirstShownLater(polls, baseline, n, k);
    } else {
      var k: nat :| FirstShown(polls[..n], baseline, k) && ShowsOnly(polls[..n][k], baseline, l.bound.value);
      FirstShownLater(polls, baseline, n, k);
    }
  }

  lemma FirstIsOne(polls: seq<Poll>, baseline: set<Id>, k: nat, m: nat)
    requires FirstShown(polls, baseline, k) && FirstShown(polls, baseline, m)
    ensures k == m
  {
  }

  /** The loop refuses to guess if and only if the first poll that shows a new turn with a text shows two. */
  lemma AmbiguousExactly(polls: seq<Poll>, baseline: set<Id>)
    ensures Looped(polls, baseline).1.Ambiguous?
       <==> exists k: nat :: FirstShown(polls, baseline, k) && ShowsTwo(polls[k], baseline)
  {
    LoopTakes(polls, baseline);
    forall k: nat, m: nat | FirstShown(polls, baseline, k) && FirstShown(polls, baseline, m) ensures k == m {
      FirstIsOne(polls, baseline, k, m);
    }
    forall k: nat | k < |polls| ensures forall id :: ShowsOnly(polls[k], baseline, id) ==> !ShowsTwo(polls[k], baseline) {
      TwoAreSome(polls[k], baseline);
    }
    forall k: nat | FirstShown(polls, baseline, k) ensures !NoneShown(polls, baseline) { assert polls[k] in polls; }
  }

  /** A loop that has not refused follows a turn if and only if that is the only new turn with a text in the
      first poll that shows any; so what it returns is never one of two. */
  lemma TakesExactly(polls: seq<Poll>, baseline: set<Id>, id: Id)
    requires !Looped(polls, baseline).1.Ambiguous?
    ensures Looped(polls, baseline).0.bound == Some(id)
       <==> exists k: nat :: FirstShown(polls, baseline, k) && ShowsOnly(polls[k], baseline, id)
  {
    LoopTakes(polls, baseline);
    forall k: nat, m: nat | FirstShown(polls, baseline, k) && FirstShown(polls, baseline, m) ensures k == m {
      FirstIsOne(polls, baseline, k, m);
    }
    forall k: nat | FirstShown(polls, baseline, k) ensures !NoneShown(polls, baseline) { assert polls[k] in polls; }
  }

  // ------------------------------------------------------------ when it returns

  /** What the last poll from the k-th on that had no continue button read of the turn. */
  function LastRead(polls: seq<Poll>, k: nat, id: Id): Option<string> {
    if |polls| <= k then None
    else
      var p := polls[|polls| - 1];
      if p.more then LastRead(polls[..|polls| - 1], k, id) else TextAt(p.turns, id)
  }

  /** How many polls at the end of the history have counted. */
  function Counted(polls: seq<Poll>, k: nat, id: Id): nat {
    if |polls| <= k then 0
    else
      var n := |polls| - 1;
      var before := LastRead(polls[..n], k, id);
      if before.Some? && Settled(polls[n], id, before.value) then Counted(polls[..n], k, id) + 1 else 0
  }

  lemma FirstShownBefore(polls: seq<Poll>, baseline: set<Id>, k: nat)
    requires FirstShown(polls, baseline, k) && k < |polls| - 1
    ensures FirstShown(polls[..|polls| - 1], baseline, k) && polls[..|polls| - 1][k] == polls[k]
  {
    assert forall j | 0 <= j < |polls| - 1 :: polls[..|polls| - 1][j] == polls[j];
  }

  /** One poll of the turn the loop follows. */
  lemma PollCounted(l: Loop, baseline: set<Id>, p: Poll, id: Id)
    requires l.bound == Some(id)
    ensures var (l', j) := Polled(l, baseline, p);
            && l'.bound == Some(id) && !j.Ambiguous?
            && l'.stable == (if p.more then l.stable else TextAt(p.turns, id))
            && l'.count == (if l.stable.Some? && Settled(p, id, l.stable.value) then l.count + 1 else 0)
            && j == if l'.count >= 3 && l'.stable.Some? then Returned(id, l'.stable.value) else Going
  {
  }

  predicate LoopCounted(polls: seq<Poll>, baseline: set<Id>, k: nat, id: Id) {
    var (l, j) := Looped(polls, baseline);
    && !j.Ambiguous? && l.bound == Some(id) && l.stable == LastRead(polls, k, id) && l.count == Counted(polls, k, id)
    && j == if l.count >= 3 && l.stable.Some? then Returned(id, l.stable.value) else Going
  }

  lemma {:induction false} LoopCounts(polls: seq<Poll>, baseline: set<Id>, k: nat, id: Id)
    requires FirstShown(polls, baseline, k) && ShowsOnly(polls[k], baseline, id)
    ensures LoopCounted(polls, baseline, k, id)
    decreases |polls|
  {
    if k < |polls| - 1 {
      FirstShownBefore(polls, baseline, k);
      LoopCounts(polls[..|polls| - 1], baseline, k, id);
      CountsOn(polls, baseline, k, id);
    } else {
      BeforeFirst(polls, baseline);
      CountsFrom(polls, baseline, k, id);
    }
  }

  lemma CountsOn(polls: seq<Poll>, baseline: set<Id>, k: nat, id: Id)
    requires k < |polls| - 1 && LoopCounted(polls[..|polls| - 1], baseline, k, id)
    ensures LoopCounted(polls, baseline, k, id)
  {
    PollCounted(Looped(polls[..|polls| - 1], baseline).0, baseline, polls[|polls| - 1], id);
  }

  lemma CountsFrom(polls: seq<Poll>, baseline: set<Id>, k: nat, id: Id)
    requires k == |polls| - 1 && ShowsOnly(polls[k], baseline, id) && Looped(polls[..k], baseline) == (FRESH_LOOP, Going)
    ensures LoopCounted(polls, baseline, k, id)
  {
    PollFirst(baseline, polls[k], id);
    assert LastRead(polls[..k], k, id).None?;
  }

  /** The poll in which the loop finds its turn. */
  lemma PollFirst(baseline: set<Id>, p: Poll, id: Id)
    requires ShowsOnly(p, baseline, id)
    ensures var (l, j) := Polled(FRESH_LOOP, baseline, p);
            && j.Going? && l.bound == Some(id) && l.count == 0 && l.stable == if p.more then None else TextAt(p.turns, id)
  {
    LegibleIs(p, baseline);
  }

  lemma BeforeFirst(polls: seq<Poll>, baseline: set<Id>)
    requires polls != [] && FirstShown(polls, baseline, |polls| - 1)
    ensures Looped(polls[..|polls| - 1], baseline) == (FRESH_LOOP, Going)
  {
    NothingShown(polls, baseline, |polls| - 1);
  }

  lemma {:induction false} NothingShown(polls: seq<Poll>, baseline: set<Id>, n: nat)
    requires n <= |polls| && forall j | 0 <= j < n :: !ShowsSome(polls[j], baseline)
    ensures Looped(polls[..n], baseline) == (FRESH_LOOP, Going)
  {
    if n > 0 {
      assert polls[..n][..n - 1] == polls[..n - 1];
      NothingShown(polls, baseline, n - 1);
      LegibleIs(polls[n - 1], baseline);
    }
  }

  /** The last c polls are settled on what was read before them. */
  predicate SettledFor(polls: seq<Poll>, k: nat, id: Id, c: nat) {
    && |polls| >= k + c
    && var n := |polls|;
       var before := LastRead(polls[..n - c], k, id);
       before.Some? && forall i | n - c <= i < n :: Settled(polls[i], id, before.value)
  }

  lemma {:induction false} CountedIs(polls: seq<Poll>, k: nat, id: Id, c: nat)
    requires c > 0
    ensures Counted(polls, k, id) >= c <==> SettledFor(polls, k, id, c)
    ensures SettledFor(polls, k, id, c) ==> LastRead(polls, k, id) == LastRead(polls[..|polls| - c], k, id)
    decreases c
  {
    if |polls| > k {
      var n := |polls| - 1;
      if c > 1 {
        CountedIs(polls[..n], k, id, c - 1);
        if |polls| >= k + c { SettledOneMore(polls, k, id, c); } else { CountedAtMost(polls, k, id); }
      }
    }
  }

  lemma SettledOneMore(polls: seq<Poll>, k: nat, id: Id, c: nat)
    requires c > 1 && |polls| >= k + c
    ensures var a := polls[..|polls| - 1];
            && a[..|a| - (c - 1)] == polls[..|polls| - c]
            && (SettledFor(polls, k, id, c)
                <==> SettledFor(a, k, id, c - 1) && Settled(polls[|polls| - 1], id, LastRead(polls[..|polls| - c], k, id).value))
  {
    var a := polls[..|polls| - 1];
    assert a[..|a| - (c - 1)] == polls[..|polls| - c];
    assert forall i | 0 <= i < |a| :: a[i] == polls[i];
  }

  lemma {:induction false} CountedAtMost(polls: seq<Poll>, k: nat, id: Id)
    ensures Counted(polls, k, id) <= if |polls| <= k then 0 else |polls| - k
  {
    if |polls| > k { CountedAtMost(polls[..|polls| - 1], k, id); }
  }

  /** The loop returns a text if and only if the first poll with a new turn showed this turn alone, the last
      three polls are settled on the text, and the last poll before them without a continue button, not
      before that first poll, read the same text. */
  lemma ReturnsExactly(polls: seq<Poll>, baseline: set<Id>, id: Id, text: string)
    ensures Looped(polls, baseline).1 == Returned(id, text)
       <==> exists k: nat :: && FirstShown(polls, baseline, k) && ShowsOnly(polls[k], baseline, id) && k + 3 <= |polls|
                             && LastRead(polls[..|polls| - 3], k, id) == Some(text)
                             && forall i | |polls| - 3 <= i < |polls| :: Settled(polls[i], id, text)
  {
    LoopTakes(polls, baseline);
    CountsSettled(polls, baseline);
    if Looped(polls, baseline).1 == Returned(id, text) {
      var k: nat :| FirstShown(polls, baseline, k) && ShowsOnly(polls[k], baseline, id);
      LoopCounts(polls, baseline, k, id);
      CountedIs(polls, k, id, 3);
    }
    if k: nat :| && FirstShown(polls, baseline, k) && ShowsOnly(polls[k], baseline, id) && k + 3 <= |polls|
                 && LastRead(polls[..|polls| - 3], k, id) == Some(text)
                 && forall i | |polls| - 3 <= i < |polls| :: Settled(polls[i], id, text) {
      LoopCounts(polls, baseline, k, id);
      CountedIs(polls, k, id, 3);
      assert Settled(polls[|polls| - 1], id, text);
    }
  }

  // ---------------------------------------------------- what looks complete

  /** White space is what `trim` takes off, by code point: the white space and the line terminators of ECMAScript. */
  lemma SpacesAre(c: char)
    ensures IsSpace(c) <==> c in {
         '\U{0009}', '\U{000A}', '\U{000B}', '\U{000C}', '\U{000D}', '\U{0020}', '\U{00A0}', '\U{1680}', '\U{2000}',
         '\U{2001}', '\U{2002}', '\U{2003}', '\U{2004}', '\U{2005}', '\U{2006}', '\U{2007}', '\U{2008}', '\U{2009}',
         '\U{200A}', '\U{2028}', '\U{2029}', '\U{202F}', '\U{205F}', '\U{3000}', '\U{FEFF}'}
  {
  }

  /** Between two runs of white space the text is what stands from a to b. */
  predicate Core(text: string, a: nat, b: nat) {
    && a < b <= |text| && !IsSpace(text[a]) && !IsSpace(text[b - 1])
    && (forall i | 0 <= i < a :: IsSpace(text[i])) && (forall i | b <= i < |text| :: IsSpace(text[i]))
  }

  /** How many of the first n characters open or close a bracket. */
  function Brackets(text: string, n: nat, opening: bool): nat
    requires n <= |text|
  {
    if n == 0 then 0
    else Brackets(text, n - 1, opening) + if (if opening then text[n - 1] in "{[" else text[n - 1] in "}]") then 1 else 0
  }

  lemma {:induction false} TrimsLeft(s: string) returns (a: nat)
    ensures a <= |s| && TrimLeft(s) == s[a..] && (forall i | 0 <= i < a :: IsSpace(s[i])) && (a < |s| ==> !IsSpace(s[a]))
  {
    if s != [] && IsSpace(s[0]) {
      a := TrimsLeft(s[1..]);
      a := a + 1;
      assert forall i | 1 <= i < a :: s[i] == s[1..][i - 1];
    } else {
      a := 0;
    }
  }

  lemma {:induction false} TrimsRight(s: string) returns (b: nat)
    ensures b <= |s| && TrimRight(s) == s[..b] && (forall i | b <= i < |s| :: IsSpace(s[i])) && (b > 0 ==> !IsSpace(s[b - 1]))
  {
    if s != [] && IsSpace(s[|s| - 1]) {
      b := TrimsRight(s[..|s| - 1]);
      assert forall i | b <= i < |s| - 1 :: s[i] == s[..|s| - 1][i];
    } else {
      b := |s|;
    }
  }

  lemma {:induction false} CountsBrackets(s: string, n: nat)
    requires n <= |s|
    ensures OpenCount(s[..n]) == Brackets(s, n, true) && CloseCount(s[..n]) == Brackets(s, n, false)
  {
    if n > 0 {
      assert s[..n][..n - 1] == s[..n - 1];
      CountsBrackets(s, n - 1);
    }
  }

  lemma CoreIsOne(text: string, a: nat, b: nat, c: nat, d: nat)
    requires Core(text, a, b) && Core(text, c, d)
    ensures a == c && b == d
  {
  }

  /** The completeness test holds exactly of a text that is more than white space and, if the first character
      that is none opens a bracket, has as many opening as closing brackets. */
  lemma LooksCompleteExactly(text: string)
    ensures LooksLikeCompleteJson(text)
       <==> exists a: nat, b: nat ::
              Core(text, a, b) && var core := text[a..b];
              text[a] in "{[" ==> Brackets(core, |core|, true) == Brackets(core, |core|, false)
  {
    var a := TrimsLeft(text);
    var l := TrimsRight(text[a..]);
    var trimmed := TrimRight(TrimLeft(text));
    var b := a + l;
    assert trimmed == text[a..b];
    assert forall i | b <= i < |text| :: text[i] == text[a..][i - a];
    if trimmed != [] {
      assert Core(text, a, b);
      assert trimmed[..|trimmed|] == trimmed;
      CountsBrackets(trimmed, |trimmed|);
      forall c: nat, d: nat | Core(text, c, d) ensures c == a && d == b { CoreIsOne(text, a, b, c, d); }
    }
  }

  // ---------------------------------------------------------------- reports

  predicate Changes(reported: seq<string>) {
    forall i | 0 <= i < |reported| - 1 :: reported[i] != reported[i + 1]
  }

  /** What one poll reports. */
  predicate Reports(before: seq<string>, after: seq<string>, read: Option<string>) {
    && before <= after && |after| <= |before| + 1
    && if read.Some? then after != [] && after[|after| - 1] == read.value else after == before
  }

  lemma PollReports(l: Loop, baseline: set<Id>, p: Poll)
    requires Changes(l.reported)
    ensures var (l', j) := Polled(l, baseline, p);
            && Changes(l'.reported)
            && Reports(l.reported, l'.reported,
                       if !j.Ambiguous? && l'.bound.Some? && !p.more then TextAt(p.turns, l'.bound.value) else None)
  {
  }

  lemma {:induction false} ReportsChange(polls: seq<Poll>, baseline: set<Id>)
    ensures Changes(Looped(polls, baseline).0.reported)
  {
    if polls != [] {
      var n := |polls| - 1;
      ReportsChange(polls[..n], baseline);
      PollReports(Looped(polls[..n], baseline).0, baseline, polls[n]);
    }
  }

  /** Every change of the text is reported once, in order: a poll that reads the turn leaves its text the last
      one reported, no other poll reports anything, nothing is taken back, and no two reports in a row agree. */
  lemma ReportsEachChange(polls: seq<Poll>, baseline: set<Id>)
    requires polls != [] && !Looped(polls, baseline).1.Ambiguous?
    ensures Changes(Looped(polls, baseline).0.reported)
    ensures var n := |polls| - 1;
            var l := Looped(polls, baseline).0;
            Reports(Looped(polls[..n], baseline).0.reported, l.reported,
                    if l.bound.Some? && !polls[n].more then TextAt(polls[n].turns, l.bound.value) else None)
  {
    var n := |polls| - 1;
    ReportsChange(polls, baseline);
    ReportsChange(polls[..n], baseline);
    PollReports(Looped(polls[..n], baseline).0, baseline, polls[n]);
  }
}
