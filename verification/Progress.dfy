/** The capped progress table of bridge/server.py and the bounded recency list it refines. */
module Progress {
  import opened Records

  /** One entry of the dictionary: job id, write time, text. */
  datatype Entry = Entry(job: Id, at: Time, text: Id)

  /** A Python dictionary in insertion order: a key keeps its place when its value changes. */
  type Table = seq<Entry>

  predicate Keyed(t: Table) {
    forall i, j | 0 <= i < j < |t| :: t[i].job != t[j].job
  }

  predicate Has(t: Table, job: Id) {
    exists i :: 0 <= i < |t| && t[i].job == job
  }

  /** The place of a key, or the length of the table. */
  function Find(t: Table, job: Id): (i: nat)
    ensures i <= |t|
    ensures i < |t| ==> t[i].job == job
    ensures forall j | 0 <= j < i :: t[j].job != job
  {
    FirstWhere(t, (e: Entry) => e.job == job)
  }

  function Put(t: Table, e: Entry): Table {
    if Find(t, e.job) < |t| then t[Find(t, e.job) := e] else t + [e]
  }

  function Pop(t: Table, job: Id): Table {
    var i := Find(t, job);
    if i < |t| then t[..i] + t[i + 1..] else t
  }

  /** The first entry among those written longest ago. */
  predicate IsOldest(t: Table, i: nat) {
    && i < |t|
    && (forall j | 0 <= j < |t| :: t[i].at <= t[j].at)
    && (forall j | 0 <= j < i :: t[i].at < t[j].at)
  }

  function Oldest(t: Table): (i: nat)
    requires t != []
    ensures IsOldest(t, i)
  {
    if |t| == 1 then 0
    else
      var r := Oldest(t[1..]);
      assert forall j | 1 <= j < |t| :: t[j] == t[1..][j - 1];
      if t[0].at <= t[1..][r].at then 0 else r + 1
  }

  /** `record_progress`. */
  function Recorded(t: Table, e: Entry, cap: nat): Table {
    var u := Put(t, e);
    if |u| > cap then Pop(u, u[Oldest(u)].job) else u
  }

  datatype Op = Record(job: Id, at: Time, text: Id) | Clear(job: Id)

  function Run(t: Table, op: Op, cap: nat): Table {
    match op
    case Record(job, at, text) => Recorded(t, Entry(job, at, text), cap)
    case Clear(job) => Pop(t, job)
  }

  function RunAll(ops: seq<Op>, cap: nat): Table {
    if ops == [] then [] else Run(RunAll(ops[..|ops| - 1], cap), ops[|ops| - 1], cap)
  }

  // --------------------------------------------------------- the recency list

  /** Jobs with their texts, least recently recorded first. No clock here. */
  type Recency = seq<(Id, Id)>

  /** The place of a job in the list, or the length of the list. */
  function Place(l: Recency, job: Id): (i: nat)
    ensures i <= |l|
    ensures i < |l| ==> l[i].0 == job
    ensures forall j | 0 <= j < i :: l[j].0 != job
  {
    FirstWhere(l, (x: (Id, Id)) => x.0 == job)
  }

  function Without(l: Recency, job: Id): (r: Recency)
    ensures |r| <= |l|
  {
    var i := Place(l, job);
    if i < |l| then l[..i] + l[i + 1..] else l
  }

  /** Move the job to the recent end and, past the capacity, drop the other end. */
  function Touch(l: Recency, job: Id, text: Id, cap: nat): Recency {
    var m := Without(l, job) + [(job, text)];
    if |m| > cap then m[1..] else m
  }

  function RunList(l: Recency, op: Op, cap: nat): Recency {
    match op
    case Record(job, _, text) => Touch(l, job, text, cap)
    case Clear(job) => Without(l, job)
  }

  function RunListAll(ops: seq<Op>, cap: nat): Recency {
    if ops == [] then [] else RunList(RunListAll(ops[..|ops| - 1], cap), ops[|ops| - 1], cap)
  }

  /** Records carry strictly increasing times. */
  predicate Ticking(ops: seq<Op>) {
    forall i, j | 0 <= i < j < |ops| && ops[i].Record? && ops[j].Record? :: ops[i].at < ops[j].at
  }

  // ------------------------------------------------------------ what they do

  lemma PutIs(t: Table, e: Entry)
    requires Keyed(t)
    ensures Keyed(Put(t, e)) && |Put(t, e)| == (if Has(t, e.job) then |t| else |t| + 1)
    ensures forall x :: x in Put(t, e) <==> x == e || (x in t && x.job != e.job)
  {
    var i := Find(t, e.job);
    if i < |t| {
      forall x | x in t && x.job != e.job ensures x in Put(t, e) {
        var j :| 0 <= j < |t| && t[j] == x;
        assert Put(t, e)[j] == x;
      }
      assert Put(t, e)[i] == e;
    } else {
      forall x | x in t ensures x in Put(t, e) {
        var j :| 0 <= j < |t| && t[j] == x;
        assert Put(t, e)[j] == x;
      }
      assert Put(t, e)[|t|] == e;
    }
  }

  lemma PopIs(t: Table, job: Id)
    requires Keyed(t)
    ensures Keyed(Pop(t, job)) && |Pop(t, job)| == (if Has(t, job) then |t| - 1 else |t|)
    ensures forall x :: x in Pop(t, job) <==> x in t && x.job != job
  {
    var i := Find(t, job);
    if i < |t| {
      var u := Pop(t, job);
      forall x | x in t && x.job != job ensures x in u {
        var j :| 0 <= j < |t| && t[j] == x;
        assert u[if j < i then j else j - 1] == x;
      }
    }
  }

  // -------------------------------------------- the list with times attached

  ghost predicate Sorted(l: seq<Entry>) {
    forall i, j | 0 <= i < j < |l| :: l[i].at < l[j].at
  }

  function Strip(l: seq<Entry>): (r: Recency)
    ensures |r| == |l|
    ensures forall i | 0 <= i < |l| :: r[i] == (l[i].job, l[i].text)
  {
    if l == [] then [] else [(l[0].job, l[0].text)] + Strip(l[1..])
  }

  lemma StripPop(l: seq<Entry>, job: Id)
    ensures Strip(Pop(l, job)) == Without(Strip(l), job)
  {
    var i, j := Find(l, job), Place(Strip(l), job);
    assert i < |l| ==> Strip(l)[i].0 == job;
    assert j < |l| ==> l[j].job == job;
    assert i == j;
  }

  lemma PopSorted(l: seq<Entry>, job: Id)
    requires Sorted(l)
    ensures Sorted(Pop(l, job))
  {
  }

  /** The table holds what the list holds, and the list is the table sorted by time. */
  ghost predicate Refines(t: Table, l: seq<Entry>) {
    && Keyed(t) && Keyed(l) && Sorted(l) && |t| == |l|
    && forall x :: x in t <==> x in l
  }

  lemma SameKeys(t: Table, l: seq<Entry>, job: Id)
    requires Refines(t, l)
    ensures Has(t, job) <==> Has(l, job)
  {
    if Has(t, job) {
      var i :| 0 <= i < |t| && t[i].job == job;
      assert t[i] in l;
    }
    if Has(l, job) {
      var i :| 0 <= i < |l| && l[i].job == job;
      assert l[i] in t;
    }
  }

  lemma ClearRefines(t: Table, l: seq<Entry>, job: Id)
    requires Refines(t, l)
    ensures Refines(Pop(t, job), Pop(l, job))
  {
    SameKeys(t, l, job);
    PopIs(t, job);
    PopIs(l, job);
    PopSorted(l, job);
  }

  lemma AppendSorted(l: seq<Entry>, e: Entry)
    requires Sorted(l) && Keyed(l) && forall x | x in l :: x.at < e.at && x.job != e.job
    ensures Sorted(l + [e]) && Keyed(l + [e])
    ensures Strip(l + [e]) == Strip(l) + [(e.job, e.text)]
  {
    forall i | 0 <= i < |l| ensures l[i].at < e.at && l[i].job != e.job { assert l[i] in l; }
  }

  lemma PutRefines(t: Table, l: seq<Entry>, e: Entry)
    requires Refines(t, l) && forall x | x in l :: x.at < e.at
    ensures Refines(Put(t, e), Pop(l, e.job) + [e])
    ensures Strip(Pop(l, e.job) + [e]) == Without(Strip(l), e.job) + [(e.job, e.text)]
  {
    SameKeys(t, l, e.job);
    PutIs(t, e);
    PopIs(l, e.job);
    PopSorted(l, e.job);
    AppendSorted(Pop(l, e.job), e);
    StripPop(l, e.job);
  }

  lemma OldestIsHead(t: Table, l: seq<Entry>)
    requires Refines(t, l) && l != []
    ensures t != [] && t[Oldest(t)] == l[0]
  {
    assert l[0] in t;
    var o := t[Oldest(t)];
    assert o in l;
    var k :| 0 <= k < |l| && l[k] == o;
    var j :| 0 <= j < |t| && t[j] == l[0];
    assert o.at <= t[j].at;
  }

  lemma PopHead(l: seq<Entry>)
    requires l != [] && Keyed(l)
    ensures Pop(l, l[0].job) == l[1..]
  {
    assert Find(l, l[0].job) == 0;
  }

  /** Evicting the oldest entry of the table is dropping the head of the list. */
  lemma EvictRefines(t: Table, l: seq<Entry>)
    requires Refines(t, l) && l != []
    ensures t != [] && t[Oldest(t)] == l[0]
    ensures Refines(Pop(t, l[0].job), l[1..])
  {
    OldestIsHead(t, l);
    ClearRefines(t, l, l[0].job);
    PopHead(l);
  }

  /** A record was made at this time. */
  ghost predicate Recording(at: Time, ops: seq<Op>) {
    exists i :: 0 <= i < |ops| && ops[i].Record? && ops[i].at == at
  }

  /** The times in the list are those of records already made. */
  ghost predicate TimesFrom(l: seq<Entry>, ops: seq<Op>) {
    forall x | x in l :: Recording(x.at, ops)
  }

  lemma TimesStay(l: seq<Entry>, ops: seq<Op>, op: Op)
    requires TimesFrom(l, ops)
    ensures TimesFrom(l, ops + [op])
  {
    forall x | x in l ensures Recording(x.at, ops + [op]) {
      var i :| 0 <= i < |ops| && ops[i].Record? && ops[i].at == x.at;
      assert (ops + [op])[i] == ops[i];
    }
  }

  /** Earlier records are older than the next one. */
  lemma TimesBefore(l: seq<Entry>, ops: seq<Op>, e: Entry)
    requires TimesFrom(l, ops) && Ticking(ops + [Record(e.job, e.at, e.text)])
    ensures forall x | x in l :: x.at < e.at
  {
    var all := ops + [Record(e.job, e.at, e.text)];
    forall x | x in l ensures x.at < e.at {
      var i :| 0 <= i < |ops| && ops[i].Record? && ops[i].at == x.at;
      assert all[i] == ops[i] && all[i].at < all[|ops|].at;
    }
  }

  lemma TickingBefore(ops: seq<Op>, op: Op)
    requires Ticking(ops + [op])
    ensures Ticking(ops)
  {
    forall i, j | 0 <= i < j < |ops| && ops[i].Record? && ops[j].Record? ensures ops[i].at < ops[j].at {
      assert (ops + [op])[i].at < (ops + [op])[j].at;
    }
  }

  lemma TouchStep(t: Table, l: seq<Entry>, e: Entry)
    requires Refines(t, l) && forall x | x in l :: x.at < e.at
    ensures var m := Pop(l, e.job) + [e];
            && Refines(Put(t, e), m) && Strip(m) == Without(Strip(l), e.job) + [(e.job, e.text)]
            && |m| <= |l| + 1 && m[|m| - 1] == e && forall x | x in m :: x == e || x in l
  {
    PutRefines(t, l, e);
    PopIs(l, e.job);
  }

  lemma EvictStep(u: Table, m: seq<Entry>)
    requires Refines(u, m) && |m| > 1
    ensures u != [] && Refines(Pop(u, u[Oldest(u)].job), m[1..])
    ensures Strip(m[1..]) == Strip(m)[1..] && m[|m| - 1] in m[1..]
  {
    EvictRefines(u, m);
    assert m[1..][|m| - 2] == m[|m| - 1];
  }

  /** One record refines one touch. */
  lemma RecordStep(t: Table, l: seq<Entry>, e: Entry, cap: nat) returns (m: seq<Entry>)
    requires cap >= 1 && Refines(t, l) && |l| <= cap && forall x | x in l :: x.at < e.at
    ensures Refines(Recorded(t, e, cap), m) && Strip(m) == Touch(Strip(l), e.job, e.text, cap)
    ensures |m| <= cap && e in m && forall x | x in m :: x == e || x in l
  {
    TouchStep(t, l, e);
    m := Pop(l, e.job) + [e];
    if |m| > cap {
      EvictStep(Put(t, e), m);
      m := m[1..];
    }
  }

  lemma ClearStep(t: Table, l: seq<Entry>, job: Id)
    requires Refines(t, l)
    ensures Refines(Pop(t, job), Pop(l, job)) && Strip(Pop(l, job)) == Without(Strip(l), job)
    ensures |Pop(l, job)| <= |l| && forall x | x in Pop(l, job) :: x in l
  {
    ClearRefines(t, l, job);
    StripPop(l, job);
    PopIs(l, job);
  }

  lemma {:induction false} TableIsList(ops: seq<Op>, cap: nat) returns (l: seq<Entry>)
    requires cap >= 1 && Ticking(ops)
    ensures Refines(RunAll(ops, cap), l) && Strip(l) == RunListAll(ops, cap)
    ensures |l| <= cap && TimesFrom(l, ops)
  {
    if ops == [] {
      l := [];
    } else {
      var before, op := ops[..|ops| - 1], ops[|ops| - 1];
      assert ops == before + [op];
      TickingBefore(before, op);
      var l0 := TableIsList(before, cap);
      TimesStay(l0, before, op);
      match op
      case Clear(job) =>
        ClearStep(RunAll(before, cap), l0, job);
        l := Pop(l0, job);
      case Record(job, at, text) =>
        TimesBefore(l0, before, Entry(job, at, text));
        l := RecordStep(RunAll(before, cap), l0, Entry(job, at, text), cap);
        assert op == ops[|ops| - 1] && Recording(at, ops);
    }
  }

  /** With a strictly increasing clock and room for one, the progress table always holds exactly
      the jobs and texts of the recency list, never more than the cap. */
  lemma TableRefinesRecency(ops: seq<Op>, cap: nat)
    requires cap >= 1 && Ticking(ops)
    ensures |RunAll(ops, cap)| <= cap && Keyed(RunAll(ops, cap))
    ensures forall job, text :: (exists x :: x in RunAll(ops, cap) && x.job == job && x.text == text)
                                <==> (job, text) in RunListAll(ops, cap)
  {
    var l := TableIsList(ops, cap);
    var t, r := RunAll(ops, cap), RunListAll(ops, cap);
    forall job, text
      ensures (exists x :: x in t && x.job == job && x.text == text) <==> (job, text) in r
    {
      if (job, text) in r {
        var i :| 0 <= i < |r| && r[i] == (job, text);
        assert l[i] in t && l[i].job == job && l[i].text == text;
      }
      if x :| x in t && x.job == job && x.text == text {
        var i :| 0 <= i < |l| && l[i] == x;
        assert r[i] == (job, text);
      }
    }
  }

  /** A record is readable right after it is made: it never evicts its own job. */
  lemma RecordKeepsItself(ops: seq<Op>, job: Id, at: Time, text: Id, cap: nat)
    requires cap >= 1 && Ticking(ops + [Record(job, at, text)])
    ensures Entry(job, at, text) in RunAll(ops + [Record(job, at, text)], cap)
  {
    var e, all := Entry(job, at, text), ops + [Record(job, at, text)];
    assert all[..|all| - 1] == ops;
    TickingBefore(ops, Record(job, at, text));
    var l := TableIsList(ops, cap);
    TimesBefore(l, ops, e);
    var m := RecordStep(RunAll(ops, cap), l, e, cap);
  }

  lemma OwnIsOldest(t: Table, e: Entry)
    requires Keyed(t) && !Has(t, e.job)
    ensures Oldest(t + [e]) == |t| <==> forall x | x in t :: e.at < x.at
  {
    var u := t + [e];
    var o := Oldest(u);
    if o == |t| {
      forall x | x in t ensures e.at < x.at {
        var j :| 0 <= j < |t| && t[j] == x;
        assert u[j] == x;
      }
    } else {
      assert u[o].at <= u[|t|].at && u[o] == t[o];
    }
  }

  /** Whatever the clock does, a record evicts its own entry exactly if the table is full, the
      job is new to it and the clock has fallen behind every time in it. */
  lemma EvictsItselfExactly(t: Table, e: Entry, cap: nat)
    requires Keyed(t) && |t| <= cap
    ensures e !in Recorded(t, e, cap) <==> |t| == cap && !Has(t, e.job) && forall x | x in t :: e.at < x.at
  {
    PutIs(t, e);
    var u := Put(t, e);
    if |u| > cap {
      assert !Has(t, e.job) && u == t + [e];
      OwnIsOldest(t, e);
      PopIs(u, u[Oldest(u)].job);
      assert u[|t|] == e;
      assert Oldest(u) != |t| ==> u[Oldest(u)].job != u[|t|].job;
    }
  }
}
