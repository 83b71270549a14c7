/** Long-term statistics: samples for two days, hours of them for ninety. */
module History {

  const STEP := 300
  const HOUR := 3600
  const FINE_KEEP := 2 * 86400
  const COARSE_KEEP := 90 * 86400

  /** A sample, or an hour of n of them, with each node's share of it Ready. */
  datatype Row = Row(t: int, n: nat, up: map<string, real>)

  datatype Data = Data(fine: seq<Row>, coarse: seq<Row>)

  function SlotOf(now: int): int { now - now % STEP }

  function HourOf(t: int): int { t - t % HOUR }

  lemma HourIs(t: int, q: int)
    requires 3600 * q <= t < 3600 * q + 3600
    ensures HourOf(t) == 3600 * q && HourOf(t) % HOUR == 0
  {
    assert t / 3600 == q;
  }

  lemma SlotIs(t: int, a: int)
    requires 300 * a <= t < 300 * a + 300
    ensures SlotOf(t) == 300 * a
  {
    assert t / 300 == a;
  }

  lemma HourFacts(t: int)
    ensures HourOf(t) <= t < HourOf(t) + HOUR && HourOf(t) % HOUR == 0 && HourOf(SlotOf(t)) == HourOf(t)
    ensures SlotOf(t) <= t < SlotOf(t) + STEP
  {
    hide SlotOf, HourOf;
    var q, a := t / 3600, t / 300;
    HourIs(t, q);
    SlotIs(t, a);
    HourIs(300 * a, q);
  }

  lemma HourGrows(a: int, b: int)
    requires a <= b
    ensures HourOf(a) <= HourOf(b)
    ensures HourOf(a) < HourOf(b) <==> a < HourOf(b)
  {
    var p, q := a / HOUR, b / HOUR;
    assert a == HOUR * p + a % HOUR && b == HOUR * q + b % HOUR;
  }

  // ---- rows by time ----

  predicate Strict(rows: seq<Row>) { forall i, j :: 0 <= i < j < |rows| ==> rows[i].t < rows[j].t }

  function Insert(rows: seq<Row>, x: Row): seq<Row> {
    if rows == [] || rows[|rows| - 1].t <= x.t then rows + [x]
    else Insert(rows[..|rows| - 1], x) + [rows[|rows| - 1]]
  }

  /** The rows in order of time, as a stable sort leaves them. */
  function Sorted(rows: seq<Row>): seq<Row> {
    if rows == [] then [] else Insert(Sorted(rows[..|rows| - 1]), rows[|rows| - 1])
  }

  lemma {:induction false} InsertHas(rows: seq<Row>, x: Row, r: Row)
    ensures r in Insert(rows, x) <==> r in rows || r == x
  {
    if rows != [] && rows[|rows| - 1].t > x.t {
      InsertHas(rows[..|rows| - 1], x, r);
      assert rows == rows[..|rows| - 1] + [rows[|rows| - 1]];
    }
  }

  lemma {:induction false} InsertStrict(rows: seq<Row>, x: Row)
    requires Strict(rows) && forall r :: r in rows ==> r.t != x.t
    ensures Strict(Insert(rows, x))
  {
    if rows != [] && rows[|rows| - 1].t > x.t {
      var less, last := rows[..|rows| - 1], rows[|rows| - 1];
      InsertStrict(less, x);
      forall i | 0 <= i < |Insert(less, x)| ensures Insert(less, x)[i].t < last.t {
        InsertHas(less, x, Insert(less, x)[i]);
      }
    } else if rows != [] {
      assert rows[|rows| - 1] in rows;
    }
  }

  predicate DistinctTimes(rows: seq<Row>) { forall i, j :: 0 <= i < j < |rows| ==> rows[i].t != rows[j].t }

  lemma {:induction false} SortedIs(rows: seq<Row>)
    ensures forall r :: r in Sorted(rows) <==> r in rows
    ensures DistinctTimes(rows) ==> Strict(Sorted(rows))
  {
    if rows != [] {
      var less, last := rows[..|rows| - 1], rows[|rows| - 1];
      SortedIs(less);
      forall r ensures r in Sorted(rows) <==> r in rows {
        InsertHas(Sorted(less), last, r);
        assert rows == less + [last];
      }
      if DistinctTimes(rows) {
        InsertStrict(Sorted(less), last);
      }
    }
  }

  lemma LastIsLatest(rows: seq<Row>)
    requires Strict(rows) && rows != []
    ensures rows == rows[..|rows| - 1] + [rows[|rows| - 1]]
    ensures forall r :: r in rows[..|rows| - 1] ==> r.t < rows[|rows| - 1].t
    ensures forall r :: r in rows <==> r in rows[..|rows| - 1] || r == rows[|rows| - 1]
  {
    assert rows == rows[..|rows| - 1] + [rows[|rows| - 1]];
  }

  lemma Nonempty(rows: seq<Row>)
    requires rows != []
    ensures exists r :: r in rows
  {
    assert rows[0] in rows;
  }

  /** Rows in order of time are told by what is among them. */
  lemma {:induction false} StrictSame(a: seq<Row>, b: seq<Row>)
    requires Strict(a) && Strict(b) && forall r :: r in a <==> r in b
    ensures a == b
  {
    if a == [] {
      if b != [] {
        Nonempty(b);
        assert false;
      }
    } else {
      assert a[|a| - 1] in b;
      var x, y := a[|a| - 1], b[|b| - 1];
      var c, d := a[..|a| - 1], b[..|b| - 1];
      LastIsLatest(a);
      LastIsLatest(b);
      assert x in b && y in a;
      forall r ensures r in c <==> r in d {
        assert r in c ==> r in a;
        assert r in d ==> r in b;
      }
      StrictSame(c, d);
    }
  }

  function Other(rows: seq<Row>, t: int): (r: seq<Row>)
    ensures forall x :: x in r <==> x in rows && x.t != t
    ensures Strict(rows) ==> Strict(r)
  {
    if rows == [] then []
    else
      var less, last := Other(rows[..|rows| - 1], t), rows[|rows| - 1];
      assert rows == rows[..|rows| - 1] + [last];
      if last.t != t then less + [last] else less
  }

  function Newer(rows: seq<Row>, t: int): (r: seq<Row>)
    ensures forall x :: x in r <==> x in rows && x.t > t
    ensures Strict(rows) ==> Strict(r)
  {
    if rows == [] then []
    else
      var less, last := Newer(rows[..|rows| - 1], t), rows[|rows| - 1];
      assert rows == rows[..|rows| - 1] + [last];
      if last.t > t then less + [last] else less
  }

  function InHour(rows: seq<Row>, hour: int): (r: seq<Row>)
    ensures forall x :: x in r <==> x in rows && HourOf(x.t) == hour
    ensures Strict(rows) ==> Strict(r)
  {
    if rows == [] then []
    else
      var less, last := InHour(rows[..|rows| - 1], hour), rows[|rows| - 1];
      assert rows == rows[..|rows| - 1] + [last];
      if HourOf(last.t) == hour then less + [last] else less
  }

  // ---- rolling up ----

  function Names(rows: seq<Row>): set<string> {
    if rows == [] then {} else Names(rows[..|rows| - 1]) + rows[|rows| - 1].up.Keys
  }

  /** How many of the rows have the node, and their shares in all. */
  function Having(rows: seq<Row>, name: string): (int, real) {
    if rows == [] then (0, 0.0)
    else
      var (n, sum) := Having(rows[..|rows| - 1], name);
      var last := rows[|rows| - 1];
      if name in last.up then (n + 1, sum + last.up[name]) else (n, sum)
  }

  function ShareOf(rows: seq<Row>, name: string): real {
    var (n, sum) := Having(rows, name);
    if n > 0 then sum / n as real else 0.0
  }

  /** `_rollup`: a node's share is the mean over the samples that have it. */
  function Rollup(rows: seq<Row>, hour: int): Row {
    Row(hour, |rows|, map name | name in Names(rows) :: ShareOf(rows, name))
  }

  function Times(rows: seq<Row>): set<int> { set r | r in rows :: r.t }

  predicate Waits(row: Row, current: int, done: set<int>) { HourOf(row.t) < current && HourOf(row.t) !in done }

  /** The finished hours not rolled up yet, as they are met. */
  function Unrolled(rows: seq<Row>, current: int, done: set<int>): (r: seq<int>)
    ensures forall h :: h in r <==>
      exists i :: 0 <= i < |rows| && Waits(rows[i], current, done) && HourOf(rows[i].t) == h
    ensures forall i, j :: 0 <= i < j < |r| ==> r[i] != r[j]
  {
    if rows == [] then []
    else
      var less, last := Unrolled(rows[..|rows| - 1], current, done), rows[|rows| - 1];
      if Waits(last, current, done) && HourOf(last.t) !in less then less + [HourOf(last.t)] else less
  }

  function RolledUp(fine: seq<Row>, hours: seq<int>): (r: seq<Row>)
    ensures |r| == |hours| && forall i :: 0 <= i < |r| ==> r[i] == Rollup(InHour(fine, hours[i]), hours[i])
  {
    seq(|hours|, i requires 0 <= i < |hours| => Rollup(InHour(fine, hours[i]), hours[i]))
  }

  function Put(rows: seq<Row>, x: Row): seq<Row> { Sorted(Other(rows, x.t) + [x]) }

  /** Each node is Ready or not. */
  function Sample(up: map<string, bool>, now: int): Row {
    Row(SlotOf(now), 1, map name | name in up :: if up[name] then 1.0 else 0.0)
  }

  /** The hours a call rolls up. */
  function RolledAt(d: Data, up: map<string, bool>, now: int): seq<int> {
    Unrolled(Put(d.fine, Sample(up, now)), HourOf(now), Times(d.coarse))
  }

  /** What a call leaves. */
  function Recorded(d: Data, up: map<string, bool>, now: int): Data {
    var fine := Put(d.fine, Sample(up, now));
    var coarse := Sorted(d.coarse + RolledUp(fine, RolledAt(d, up, now)));
    Data(Newer(fine, now - FINE_KEEP), Newer(coarse, now - COARSE_KEEP))
  }

  function RollHours(order: seq<int>, hours: map<int, seq<Row>>): (r: seq<Row>)
    requires forall i :: 0 <= i < |order| ==> order[i] in hours
    ensures |r| == |order| && forall i :: 0 <= i < |r| ==> r[i] == Rollup(hours[order[i]], order[i])
  {
    seq(|order|, i requires 0 <= i < |order| => Rollup(hours[order[i]], order[i]))
  }

  class Store {
    var data: Data

    constructor ()
      ensures data == Data([], [])
    {
      data := Data([], []);
    }

    /** `record`. */
    method Record(up: map<string, bool>, now: int)
      modifies this
      ensures data == Recorded(old(data), up, now)
    {
      hide Waits, Rollup, Sorted, Newer, InHour, Put, HourOf, Times, Unrolled;
      var fine := Put(data.fine, Sample(up, now));
      var order, hours := Grouped(fine, HourOf(now), Times(data.coarse));
      var rolled := RollHours(order, hours);
      assert order == RolledAt(data, up, now);
      assert rolled == RolledUp(fine, order);
      data := Data(Newer(fine, now - FINE_KEEP), Newer(Sorted(data.coarse + rolled), now - COARSE_KEEP));
    }
  }

  /** The samples of each finished hour not rolled up yet. */
  method Grouped(fine: seq<Row>, current: int, done: set<int>) returns (order: seq<int>, hours: map<int, seq<Row>>)
    ensures order == Unrolled(fine, current, done)
    ensures forall h :: h in order ==> h in hours && hours[h] == InHour(fine, h)
  {
    hide Waits, InHour, HourOf, Unrolled;
    order, hours := [], map[];
    Unmet(current, done);
    for i := 0 to |fine|
      invariant order == Unrolled(fine[..i], current, done)
      invariant forall h :: h in order <==> h in hours
      invariant forall h :: h in order ==> hours[h] == InHour(fine[..i], h)
    {
      var s := fine[i];
      var hour := HourOf(s.t);
      HourMore(fine[..i], s);
      assert fine[..i] + [s] == fine[..i + 1];
      UnrolledMore(fine[..i], s, current, done);
      if Waits(s, current, done) {
        if hour !in hours {
          order := order + [hour];
          hours := hours[hour := []];
        }
        hours := hours[hour := hours[hour] + [s]];
      }
    }
    assert fine[..|fine|] == fine;
  }

  lemma {:induction false} Unmet(current: int, done: set<int>)
    ensures Unrolled([], current, done) == []
  {
  }

  lemma {:induction false} HourMore(rows: seq<Row>, s: Row)
    ensures forall h :: InHour(rows + [s], h) == if HourOf(s.t) == h then InHour(rows, h) + [s] else InHour(rows, h)
  {
    assert (rows + [s])[..|rows|] == rows;
  }

  lemma {:induction false} UnrolledMore(rows: seq<Row>, s: Row, current: int, done: set<int>)
    ensures Unrolled(rows + [s], current, done)
         == Unrolled(rows, current, done) +
           if Waits(s, current, done) && HourOf(s.t) !in Unrolled(rows, current, done) then [HourOf(s.t)] else []
    ensures Waits(s, current, done) && HourOf(s.t) !in Unrolled(rows, current, done) ==> InHour(rows, HourOf(s.t)) == []
    ensures HourOf(s.t) in Unrolled(rows, current, done) ==> Waits(s, current, done)
  {
    assert (rows + [s])[..|rows|] == rows;
    var h := HourOf(s.t);
    if Waits(s, current, done) && h !in Unrolled(rows, current, done) && InHour(rows, h) != [] {
      var x := InHour(rows, h)[0];
      assert x in rows;
      assert Waits(x, current, done);
    }
  }

  // ---- any run ----

  datatype Call = Call(up: map<string, bool>, now: int)

  predicate Ordered(calls: seq<Call>) { forall i, j :: 0 <= i < j < |calls| ==> calls[i].now <= calls[j].now }

  /** The store after some calls. */
  function StoreAfter(calls: seq<Call>): Data {
    if calls == [] then Data([], [])
    else Recorded(StoreAfter(calls[..|calls| - 1]), calls[|calls| - 1].up, calls[|calls| - 1].now)
  }

  /** Every sample ever taken, the last of each five minutes. */
  function Full(calls: seq<Call>): seq<Row> {
    if calls == [] then []
    else Put(Full(calls[..|calls| - 1]), Sample(calls[|calls| - 1].up, calls[|calls| - 1].now))
  }

  /** Hour `h` has samples and is over. */
  predicate Over(all: seq<Row>, h: int, last: int) { h < HourOf(last) && InHour(all, h) != [] }

  /** The store is what two days, and ninety days of whole hours, leave of the samples. */
  ghost predicate Faithful(d: Data, all: seq<Row>, last: int) {
    && Strict(d.fine) && Strict(d.coarse) && Strict(all)
    && (forall s :: s in all ==> s.t <= SlotOf(last))
    && (forall s :: s in d.fine <==> s in all && s.t > last - FINE_KEEP)
    && (forall c :: c in d.coarse <==> Kept(all, c, last))
  }

  predicate Kept(all: seq<Row>, c: Row, last: int) {
    Over(all, c.t, last) && c.t > last - COARSE_KEEP && c == Rollup(InHour(all, c.t), c.t)
  }

  lemma PutIs(rows: seq<Row>, x: Row)
    ensures forall r :: r in Put(rows, x) <==> (r in rows && r.t != x.t) || r == x
    ensures Strict(rows) ==> Strict(Put(rows, x))
  {
    var other := Other(rows, x.t);
    SortedIs(other + [x]);
    forall r ensures r in Put(rows, x) <==> (r in rows && r.t != x.t) || r == x {
    }
    if Strict(rows) {
      assert forall i :: 0 <= i < |other| ==> other[i] in other;
    }
  }

  /** A finished hour that still has a sample in reach was rolled up, or is whole. */
  lemma {:induction false} HourWhole(d: Data, all: seq<Row>, last: int, x: Row, h: int, r: Row)
    requires Faithful(d, all, last) && x.t >= SlotOf(last)
    requires r in Put(d.fine, x) && HourOf(r.t) == h && h !in Times(d.coarse) && h < HourOf(x.t)
    ensures InHour(Put(d.fine, x), h) == InHour(Put(all, x), h)
  {
    PutIs(d.fine, x);
    PutIs(all, x);
    var a, b := InHour(Put(d.fine, x), h), InHour(Put(all, x), h);
    forall s ensures s in a <==> s in b {
      if s in all && HourOf(s.t) == h && s.t != x.t && s.t <= last - FINE_KEEP {
        HourFacts(s.t);
        HourFacts(r.t);
        HourGrows(s.t, last);
        HourFacts(last);
        assert s in InHour(all, h);
        assert Kept(all, Rollup(InHour(all, h), h), last);
        assert false;
      }
    }
    StrictSame(a, b);
  }

  /** The hours a call rolls up are the finished ones with samples and no row yet. */
  lemma {:induction false} RolledHours(d: Data, up: map<string, bool>, now: int, h: int)
    ensures h in RolledAt(d, up, now) <==>
      h !in Times(d.coarse) && h < HourOf(now) && InHour(Put(d.fine, Sample(up, now)), h) != []
  {
    hide Put, Times;
    var fine := Put(d.fine, Sample(up, now));
    var current, done := HourOf(now), Times(d.coarse);
    if InHour(fine, h) != [] {
      var r := InHour(fine, h)[0];
      assert r in InHour(fine, h);
      var i :| 0 <= i < |fine| && fine[i] == r;
      assert Waits(fine[i], current, done) <==> h < current && h !in done;
    }
    if h in Unrolled(fine, current, done) {
      var i :| 0 <= i < |fine| && Waits(fine[i], current, done) && HourOf(fine[i].t) == h;
      assert fine[i] in InHour(fine, h);
    }
  }

  /** What a call rolls up is the whole of each of those hours. */
  lemma RolledUpHas(d: Data, all: seq<Row>, last: int, up: map<string, bool>, now: int, c: Row)
    requires Faithful(d, all, last) && last <= now
    ensures c in RolledUp(Put(d.fine, Sample(up, now)), RolledAt(d, up, now)) <==>
      c.t in RolledAt(d, up, now) && c == Rollup(InHour(Put(all, Sample(up, now)), c.t), c.t)
  {
    hide Rollup, InHour, Faithful, Put, RolledAt, Times;
    var x := Sample(up, now);
    var fine, hours := Put(d.fine, x), RolledAt(d, up, now);
    forall j | 0 <= j < |hours|
      ensures RolledUp(fine, hours)[j] == Rollup(InHour(Put(all, x), hours[j]), hours[j])
      ensures RolledUp(fine, hours)[j].t == hours[j]
    {
      assert hours[j] in hours;
      RolledWhole(d, all, last, up, now, hours[j]);
      RollupAt(InHour(fine, hours[j]), hours[j]);
    }
  }

  lemma {:induction false} RolledWhole(d: Data, all: seq<Row>, last: int, up: map<string, bool>, now: int, h: int)
    requires Faithful(d, all, last) && last <= now && h in RolledAt(d, up, now)
    ensures InHour(Put(d.fine, Sample(up, now)), h) == InHour(Put(all, Sample(up, now)), h)
  {
    hide Rollup, Faithful, Put, RolledAt, Times;
    var fine := Put(d.fine, Sample(up, now));
    RolledHours(d, up, now, h);
    var r := InHour(fine, h)[0];
    assert r in InHour(fine, h);
    HourFacts(now);
    SlotsGrow(last, now);
    HourWhole(d, all, last, Sample(up, now), h, r);
  }

  lemma RollupAt(rows: seq<Row>, h: int)
    ensures Rollup(rows, h).t == h && Rollup(rows, h).n == |rows|
  {
  }

  lemma SlotsGrow(a: int, b: int)
    requires a <= b
    ensures SlotOf(a) <= SlotOf(b)
  {
    var p, q := a / STEP, b / STEP;
    assert a == STEP * p + a % STEP && b == STEP * q + b % STEP;
  }

  /** A call keeps the store faithful. */
  lemma FaithfulStep(d: Data, all: seq<Row>, last: int, up: map<string, bool>, now: int)
    requires Faithful(d, all, last) && last <= now
    ensures Faithful(Recorded(d, up, now), Put(all, Sample(up, now)), now)
  {
    hide Rollup, InHour, Faithful, Put, RolledAt, Times, Kept, Sorted, RolledUp;
    FineStep(d, all, last, up, now);
    CoarseStrict(d, all, last, up, now);
    forall c ensures c in Recorded(d, up, now).coarse <==> Kept(Put(all, Sample(up, now)), c, now) {
      CoarseStep(d, all, last, up, now, c);
    }
    FaithfulOf(Recorded(d, up, now), Put(all, Sample(up, now)), now);
  }

  lemma FaithfulOf(d: Data, all: seq<Row>, last: int)
    requires Strict(d.fine) && Strict(d.coarse) && Strict(all)
    requires forall s :: s in all ==> s.t <= SlotOf(last)
    requires forall s :: s in d.fine <==> s in all && s.t > last - FINE_KEEP
    requires forall c :: c in d.coarse <==> Kept(all, c, last)
    ensures Faithful(d, all, last)
  {
  }

  lemma FineStep(d: Data, all: seq<Row>, last: int, up: map<string, bool>, now: int)
    requires Faithful(d, all, last) && last <= now
    ensures var all', fine' := Put(all, Sample(up, now)), Recorded(d, up, now).fine;
      && Strict(all') && Strict(fine') && (forall s :: s in all' ==> s.t <= SlotOf(now))
      && (forall s :: s in fine' <==> s in all' && s.t > now - FINE_KEEP)
  {
    hide Rollup, InHour, Put, RolledAt, Times, Kept, Sorted, RolledUp;
    PutIs(all, Sample(up, now));
    PutIs(d.fine, Sample(up, now));
    SlotsGrow(last, now);
    HourFacts(now);
  }

  /** No hour is rolled up while it has a row. */
  lemma CoarseStrict(d: Data, all: seq<Row>, last: int, up: map<string, bool>, now: int)
    requires Faithful(d, all, last) && last <= now
    ensures Strict(Recorded(d, up, now).coarse)
  {
    hide InHour, Put, Kept, Sorted, Rollup, Times;
    var hours := RolledAt(d, up, now);
    var rolled := RolledUp(Put(d.fine, Sample(up, now)), hours);
    forall i | 0 <= i < |hours|
      ensures rolled[i].t == hours[i] && forall j :: 0 <= j < |d.coarse| ==> d.coarse[j].t != hours[i]
    {
      RollupAt(InHour(Put(d.fine, Sample(up, now)), hours[i]), hours[i]);
      assert hours[i] in hours;
      RolledHours(d, up, now, hours[i]);
      assert forall j :: 0 <= j < |d.coarse| ==> d.coarse[j] in d.coarse;
      TimesHave(d.coarse);
    }
    SortedIs(d.coarse + rolled);
  }

  lemma TimesHave(rows: seq<Row>)
    ensures forall r :: r in rows ==> r.t in Times(rows)
    ensures forall t :: t in Times(rows) ==> exists r :: r in rows && r.t == t
  {
  }

  lemma CoarseStep(d: Data, all: seq<Row>, last: int, up: map<string, bool>, now: int, c: Row)
    requires Faithful(d, all, last) && last <= now
    ensures c in Recorded(d, up, now).coarse <==> Kept(Put(all, Sample(up, now)), c, now)
  {
    hide Rollup, InHour, Put, RolledAt, Times, Sorted, RolledUp, Faithful, Kept;
    var x := Sample(up, now);
    var rolled := RolledUp(Put(d.fine, x), RolledAt(d, up, now));
    SortedIs(d.coarse + rolled);
    RolledUpHas(d, all, last, up, now, c);
    assert c in Recorded(d, up, now).coarse <==> (c in d.coarse || c in rolled) && c.t > now - COARSE_KEEP;
    if c.t > now - COARSE_KEEP {
      KeptStep(d, all, last, up, now, c);
    } else {
      NotKept(Put(all, x), c, now);
    }
  }

  lemma NotKept(all: seq<Row>, c: Row, last: int)
    requires c.t <= last - COARSE_KEEP
    ensures !Kept(all, c, last)
  {
  }

  lemma {:induction false} CoarseIs(d: Data, all: seq<Row>, last: int, c: Row)
    requires Faithful(d, all, last)
    ensures Strict(all) && (c in d.coarse <==> Kept(all, c, last))
    ensures c.t in Times(d.coarse) ==> c.t < HourOf(last) && InHour(all, c.t) != []
    ensures c in d.coarse ==> c.t in Times(d.coarse)
  {
    hide Rollup, InHour;
    TimesHave(d.coarse);
  }

  /** Within ninety days: an hour over before is as it was, one over since is rolled up. */
  lemma KeptStep(d: Data, all: seq<Row>, last: int, up: map<string, bool>, now: int, c: Row)
    requires Faithful(d, all, last) && last <= now && c.t > now - COARSE_KEEP
    ensures Kept(Put(all, Sample(up, now)), c, now) <==>
      c in d.coarse || (c.t in RolledAt(d, up, now) && c == Rollup(InHour(Put(all, Sample(up, now)), c.t), c.t))
  {
    hide *;
    RolledHours(d, up, now, c.t);
    CoarseIs(d, all, last, c);
    if c.t < HourOf(last) {
      KeptBefore(d, all, last, up, now, c);
    } else {
      KeptSince(d, all, last, up, now, c);
    }
  }

  lemma KeptBefore(d: Data, all: seq<Row>, last: int, up: map<string, bool>, now: int, c: Row)
    requires Faithful(d, all, last) && last <= now && c.t > now - COARSE_KEEP && c.t < HourOf(last)
    ensures Kept(Put(all, Sample(up, now)), c, now) <==> c in d.coarse
    ensures c.t !in RolledAt(d, up, now)
  {
    hide Rollup, InHour, Put, RolledAt, Times, Faithful, HourOf, SlotOf;
    var x, h := Sample(up, now), c.t;
    CoarseIs(d, all, last, c);
    HourGrows(last, now);
    SlotsGrow(last, now);
    SettledHour(all, x, h, last);
    RolledHours(d, up, now, h);
    if InHour(all, h) != [] {
      HourHasRow(d, all, last, h);
    } else {
      SameHours(d, all, last, x, h);
    }
  }

  lemma KeptSince(d: Data, all: seq<Row>, last: int, up: map<string, bool>, now: int, c: Row)
    requires Faithful(d, all, last) && last <= now && c.t > now - COARSE_KEEP && c.t >= HourOf(last)
    ensures c !in d.coarse
    ensures Kept(Put(all, Sample(up, now)), c, now) <==>
      c.t in RolledAt(d, up, now) && c == Rollup(InHour(Put(all, Sample(up, now)), c.t), c.t)
  {
    hide Rollup, InHour, Put, RolledAt, Times, Faithful, HourOf, SlotOf;
    CoarseIs(d, all, last, c);
    SameHours(d, all, last, Sample(up, now), c.t);
    RolledHours(d, up, now, c.t);
  }

  /** Later samples do not touch an hour that is over. */
  lemma {:induction false} SettledHour(all: seq<Row>, x: Row, h: int, last: int)
    requires Strict(all) && h < HourOf(last) && x.t >= SlotOf(last)
    ensures InHour(Put(all, x), h) == InHour(all, h)
  {
    PutIs(all, x);
    HourFacts(last);
    HourGrows(SlotOf(last), x.t);
    StrictSame(InHour(Put(all, x), h), InHour(all, h));
  }

  /** What has samples in the store has samples; and of hours not over before, the reverse. */
  lemma {:induction false} SameHours(d: Data, all: seq<Row>, last: int, x: Row, h: int)
    requires Faithful(d, all, last)
    ensures InHour(Put(d.fine, x), h) != [] ==> InHour(Put(all, x), h) != []
    ensures h >= HourOf(last) && InHour(Put(all, x), h) != [] ==> InHour(Put(d.fine, x), h) != []
  {
    PutIs(d.fine, x);
    PutIs(all, x);
    var a, b := InHour(Put(d.fine, x), h), InHour(Put(all, x), h);
    if a != [] {
      assert a[0] in a;
      assert a[0] in b;
    }
    if h >= HourOf(last) && b != [] {
      var s := b[0];
      assert s in b;
      HourFacts(s.t);
      HourFacts(last);
      assert s in a;
    }
  }

  /** After any calls the store is what two days, and ninety days of whole hours, leave of
      all samples ever taken. */
  lemma {:induction false} StoreIsFaithful(calls: seq<Call>)
    requires Ordered(calls) && calls != []
    ensures Faithful(StoreAfter(calls), Full(calls), calls[|calls| - 1].now)
  {
    hide Faithful, Recorded, Put, Ordered;
    var before, call := calls[..|calls| - 1], calls[|calls| - 1];
    OrderedBefore(calls);
    if before == [] {
      NothingYet(call.now);
      FaithfulStep(Data([], []), [], call.now, call.up, call.now);
    } else {
      StoreIsFaithful(before);
      FaithfulStep(StoreAfter(before), Full(before), before[|before| - 1].now, call.up, call.now);
    }
  }

  lemma NothingYet(now: int)
    ensures Faithful(Data([], []), [], now)
  {
    hide Rollup;
  }

  lemma OrderedBefore(calls: seq<Call>)
    requires Ordered(calls) && calls != []
    ensures Ordered(calls[..|calls| - 1])
    ensures |calls| > 1 ==> calls[|calls| - 2].now <= calls[|calls| - 1].now
  {
  }

  /** A sample is in the store for two days; once its hour is over, and for ninety days, a
      row counts exactly the distinct samples of that hour, this one among them. */
  lemma {:induction false} NoSampleLost(calls: seq<Call>, s: Row)
    requires Ordered(calls) && calls != [] && s in Full(calls)
    ensures var d, last := StoreAfter(calls), calls[|calls| - 1].now;
      && (s.t > last - FINE_KEEP ==> s in d.fine)
      && (HourOf(s.t) < HourOf(last) && HourOf(s.t) > last - COARSE_KEEP ==>
            exists c :: c in d.coarse && c.t == HourOf(s.t) && c.n == |InHour(Full(calls), c.t)| &&
              s in InHour(Full(calls), c.t))
      && (s in d.fine || HourOf(s.t) < HourOf(last))
  {
    hide Rollup, InHour, StoreAfter, Full;
    var d, all, last := StoreAfter(calls), Full(calls), calls[|calls| - 1].now;
    StoreIsFaithful(calls);
    HourFacts(s.t);
    HourFacts(last);
    var h := HourOf(s.t);
    assert s in InHour(all, h);
    if h < HourOf(last) && h > last - COARSE_KEEP {
      RollupAt(InHour(all, h), h);
      assert Kept(all, Rollup(InHour(all, h), h), last);
    }
    HourGrows(s.t, last);
  }

  /** No two calls roll up one hour. */
  lemma RolledUpOnce(calls: seq<Call>, m: nat, n: nat, h: int)
    requires Ordered(calls) && m < n < |calls|
    requires h in RolledAt(StoreAfter(calls[..m]), calls[m].up, calls[m].now)
    ensures h !in RolledAt(StoreAfter(calls[..n]), calls[n].up, calls[n].now)
  {
    hide Rollup, InHour, StoreAfter, Full, RolledAt, Times, Put, Faithful;
    var d, last := StoreAfter(calls[..n]), calls[n - 1].now;
    StoreIsFaithful(calls[..n]);
    RolledHadSamples(calls, m, h);
    StillThere(calls, m + 1, n, h);
    HourGrows(calls[m].now, last);
    RolledBefore(d, Full(calls[..n]), last, calls[n].up, calls[n].now, h);
  }

  lemma {:induction false} RolledHadSamples(calls: seq<Call>, m: nat, h: int)
    requires Ordered(calls) && m < |calls|
    requires h in RolledAt(StoreAfter(calls[..m]), calls[m].up, calls[m].now)
    ensures h < HourOf(calls[m].now) && InHour(Full(calls[..m + 1]), h) != []
  {
    hide Rollup, InHour, StoreAfter, RolledAt, Times, Put;
    var d, x := StoreAfter(calls[..m]), Sample(calls[m].up, calls[m].now);
    RolledHours(d, calls[m].up, calls[m].now, h);
    assert calls[..m + 1][..m] == calls[..m];
    if m > 0 {
      StoreIsFaithful(calls[..m]);
      SameHours(d, Full(calls[..m]), calls[m - 1].now, x, h);
    } else {
      assert calls[..0] == [];
      assert StoreAfter([]) == Data([], []) by { NoCalls(); }
      assert Full([]) == [];
    }
  }

  lemma NoCalls()
    ensures StoreAfter([]) == Data([], [])
  {
  }

  /** An hour with samples keeps having them. */
  lemma {:induction false} StillThere(calls: seq<Call>, m: nat, n: nat, h: int)
    requires m <= n <= |calls| && InHour(Full(calls[..m]), h) != []
    ensures InHour(Full(calls[..n]), h) != []
    decreases n
  {
    hide InHour, Full, Put, HourOf;
    if m < n {
      StillThere(calls, m, n - 1, h);
      FullMore(calls, n);
      PutKeepsHour(Full(calls[..n - 1]), Sample(calls[n - 1].up, calls[n - 1].now), h);
    }
  }

  lemma FullMore(calls: seq<Call>, n: nat)
    requires 0 < n <= |calls|
    ensures Full(calls[..n]) == Put(Full(calls[..n - 1]), Sample(calls[n - 1].up, calls[n - 1].now))
  {
    hide Put, SlotOf;
    assert calls[..n][..n - 1] == calls[..n - 1];
  }

  lemma {:induction false} PutKeepsHour(all: seq<Row>, x: Row, h: int)
    requires InHour(all, h) != []
    ensures InHour(Put(all, x), h) != []
  {
    hide Put, InHour, HourOf;
    var s := InHour(all, h)[0];
    assert s in InHour(all, h);
    PutIs(all, x);
    assert (if s.t == x.t then x else s) in InHour(Put(all, x), h);
  }

  lemma {:induction false} RolledBefore(d: Data, all: seq<Row>, last: int, up: map<string, bool>, now: int, h: int)
    requires Faithful(d, all, last) && last <= now && h < HourOf(last) && InHour(all, h) != []
    ensures h !in RolledAt(d, up, now)
  {
    hide RolledAt, Rollup;
    RolledHours(d, up, now, h);
    TimesHave(d.coarse);
    var x := Sample(up, now);
    PutIs(d.fine, x);
    HourFacts(now);
    HourFacts(last);
    HourGrows(last, now);
    if h > last - COARSE_KEEP { HourHasRow(d, all, last, h); }
    if InHour(Put(d.fine, x), h) != [] && h !in Times(d.coarse) {
      var r := InHour(Put(d.fine, x), h)[0];
      assert r in InHour(Put(d.fine, x), h);
      HourFacts(r.t);
    }
  }

  lemma HourHasRow(d: Data, all: seq<Row>, last: int, h: int)
    requires Faithful(d, all, last) && Over(all, h, last) && h > last - COARSE_KEEP
    ensures h in Times(d.coarse)
  {
    hide Rollup;
    RollupAt(InHour(all, h), h);
    assert Kept(all, Rollup(InHour(all, h), h), last);
    TimesHave(d.coarse);
  }
}
