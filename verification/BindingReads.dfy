/** What both detectors make of a page before they look at it: a turn of whose id there are several
    nodes, or that has no text, is no turn to them. */
module BindingReads {
  import opened Records
  import opened Binding
  import opened BindingProofs

  /** The poll as the Python driver reads it. */
  function ReadPoll(p: Poll): Poll { p.(turns := OnlyLegible(p.turns, p.turns)) }

  function ReadPolls(polls: seq<Poll>): (r: seq<Poll>)
    ensures |r| == |polls| && forall i | 0 <= i < |polls| :: r[i] == ReadPoll(polls[i])
  {
    seq(|polls|, i requires 0 <= i < |polls| => ReadPoll(polls[i]))
  }

  lemma ReadPrefix(polls: seq<Poll>, n: nat)
    requires n <= |polls|
    ensures ReadPolls(polls)[..n] == ReadPolls(polls[..n])
  {
  }

  lemma {:induction false} LegibleTexts(listed: seq<Turn>, turns: seq<Turn>, id: Id)
    ensures TextsOf(OnlyLegible(listed, turns), id) == if TextAt(turns, id).Some? then TextsOf(listed, id) else []
  {
    if listed != [] {
      var n := |listed| - 1;
      LegibleTexts(listed[..n], turns, id);
      var kept := OnlyLegible(listed, turns);
      if TextAt(turns, listed[n].id).Some? {
        assert kept[..|kept| - 1] == OnlyLegible(listed[..n], turns);
      } else {
        assert kept == OnlyLegible(listed[..n], turns);
      }
    }
  }

  /** Reading does not change what a turn's text is. */
  lemma ReadText(turns: seq<Turn>, id: Id)
    ensures TextAt(OnlyLegible(turns, turns), id) == TextAt(turns, id)
  {
    LegibleTexts(turns, turns, id);
  }

  lemma {:induction false} NewOfLegible(listed: seq<Turn>, turns: seq<Turn>, baseline: set<Id>)
    ensures NewTurns(OnlyLegible(listed, turns), baseline) == OnlyLegible(NewTurns(listed, baseline), turns)
  {
    if listed != [] {
      var n := |listed| - 1;
      NewOfLegible(listed[..n], turns, baseline);
      var kept, novel := OnlyLegible(listed, turns), NewTurns(listed, baseline);
      if TextAt(turns, listed[n].id).Some? {
        assert kept[..|kept| - 1] == OnlyLegible(listed[..n], turns);
      } else {
        assert kept == OnlyLegible(listed[..n], turns);
      }
      if listed[n].id in baseline {
        assert novel == NewTurns(listed[..n], baseline);
      } else {
        assert novel[..|novel| - 1] == NewTurns(listed[..n], baseline);
      }
    }
  }

  lemma {:induction false} LegibleTwice(listed: seq<Turn>, turns: seq<Turn>, again: seq<Turn>)
    requires forall id :: TextAt(again, id) == TextAt(turns, id)
    ensures OnlyLegible(OnlyLegible(listed, turns), again) == OnlyLegible(listed, turns)
  {
    if listed != [] {
      var n := |listed| - 1;
      LegibleTwice(listed[..n], turns, again);
      var kept := OnlyLegible(listed, turns);
      if TextAt(turns, listed[n].id).Some? {
        assert kept[..|kept| - 1] == OnlyLegible(listed[..n], turns);
      } else {
        assert kept == OnlyLegible(listed[..n], turns);
      }
    }
  }

  lemma LegibleReads(turns: seq<Turn>, baseline: set<Id>)
    ensures Legible(OnlyLegible(turns, turns), baseline) == Legible(turns, baseline)
  {
    var kept := OnlyLegible(turns, turns);
    forall id ensures TextAt(kept, id) == TextAt(turns, id) { ReadText(turns, id); }
    NewOfLegible(turns, turns, baseline);
    LegibleTwice(NewTurns(turns, baseline), turns, kept);
  }

  /** The JavaScript loop sees the same in a poll and in the poll as the driver reads it. */
  lemma PolledReads(l: Loop, baseline: set<Id>, p: Poll)
    ensures Polled(l, baseline, ReadPoll(p)) == Polled(l, baseline, p)
  {
    LegibleReads(p.turns, baseline);
    var novel := Legible(p.turns, baseline);
    if l.bound.Some? {
      ReadText(p.turns, l.bound.value);
    } else if novel != [] {
      ReadText(p.turns, novel[0].id);
    }
  }

  lemma {:induction false} LoopReads(polls: seq<Poll>, baseline: set<Id>)
    ensures Looped(ReadPolls(polls), baseline) == Looped(polls, baseline)
  {
    if polls != [] {
      var n := |polls| - 1;
      ReadPrefix(polls, n);
      LoopReads(polls[..n], baseline);
      PolledReads(Looped(polls[..n], baseline).0, baseline, polls[n]);
    }
  }

  lemma ObservesNoDuplicates(t: Tracker, baseline: set<Id>, need: int, p: Poll)
    ensures !Observed(t, baseline, need, ReadPoll(p)).1.DuplicateNodes?
  {
    var novel := NewTurns(ReadPoll(p).turns, baseline);
    if t.bound.Some? {
      OneTextEach(p.turns, baseline, t.bound.value);
    } else if novel != [] {
      OneTextEach(p.turns, baseline, novel[0].id);
    }
  }

  /** The driver never shows the tracker one turn twice, so that error cannot arise through it. */
  lemma {:induction false} DriverShowsNoDuplicates(polls: seq<Poll>, baseline: set<Id>, need: int)
    ensures !Tracked(ReadPolls(polls), baseline, need).1.DuplicateNodes?
    decreases |polls|
  {
    if polls != [] {
      var n := |polls| - 1;
      ReadPrefix(polls, n);
      DriverShowsNoDuplicates(polls[..n], baseline, need);
      ObservesNoDuplicates(Tracked(ReadPolls(polls[..n]), baseline, need).0, baseline, need, polls[n]);
    }
  }

  lemma OneTextEach(turns: seq<Turn>, baseline: set<Id>, id: Id)
    ensures |TextsOf(NewTurns(OnlyLegible(turns, turns), baseline), id)| <= 1
  {
    if id in baseline {
      NoTextsOfOld(OnlyLegible(turns, turns), baseline, id);
    } else {
      TextsOfNew(OnlyLegible(turns, turns), baseline, id);
      LegibleTexts(turns, turns, id);
    }
  }

  lemma {:induction false} NoTextsOfOld(turns: seq<Turn>, baseline: set<Id>, id: Id)
    requires id in baseline
    ensures TextsOf(NewTurns(turns, baseline), id) == []
  {
    if turns != [] {
      var n := |turns| - 1;
      NoTextsOfOld(turns[..n], baseline, id);
      var novel := NewTurns(turns, baseline);
      if turns[n].id in baseline {
        assert novel == NewTurns(turns[..n], baseline);
      } else {
        assert novel[..|novel| - 1] == NewTurns(turns[..n], baseline);
      }
    }
  }
}
