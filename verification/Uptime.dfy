/** Each node's uptime, from the samples and hours kept. */
module Uptime {
  import opened History
  import opened Options

  const DAY := 86400

  /** A stretch of time and the share of it a node was Ready. */
  datatype Span = Span(t: int, len: int, up: real) {
    function End(): int { t + len }
    function Down(): real { len as real * (1.0 - up) }
    function Ready(): real { len as real * up }
    predicate Sound() { len > 0 && 0.0 <= up <= 1.0 }
  }

  function Spans(rows: seq<Row>, name: string, len: int): seq<Span> {
    if rows == [] then []
    else
      var less, last := Spans(rows[..|rows| - 1], name, len), rows[|rows| - 1];
      if name in last.up then less + [Span(last.t, len, last.up[name])] else less
  }

  /** The spans over by a time; all of them without one. */
  function Before(spans: seq<Span>, first: Option<int>): seq<Span> {
    if spans == [] then []
    else
      var less, last := Before(spans[..|spans| - 1], first), spans[|spans| - 1];
      if first.None? || last.End() <= first.value then less + [last] else less
  }

  /** `_ready_rows`: the fine samples that have the node, and in front of them the hours that
      are over when the first of those begins. */
  function ReadyRows(d: Data, name: string): seq<Span> {
    var fine := Spans(d.fine, name, STEP);
    Before(Spans(d.coarse, name, HOUR), if fine == [] then None else Some(fine[0].t)) + fine
  }

  /** One after another, without overlap. */
  predicate Apart(spans: seq<Span>) {
    forall i, j :: 0 <= i < j < |spans| ==> spans[i].End() <= spans[j].t
  }

  /** Rows that begin on multiples of `len`, in order. */
  predicate Aligned(rows: seq<Row>, len: int)
    requires len > 0
  {
    Strict(rows) && forall r :: r in rows ==> r.t % len == 0 && forall name :: name in r.up ==> 0.0 <= r.up[name] <= 1.0
  }

  lemma MultiplesApart(a: int, b: int, len: int)
    requires len > 0 && a % len == 0 && b % len == 0 && a < b
    ensures a + len <= b
  {
    var p, q := a / len, b / len;
    assert a == len * p && b == len * q;
    if q > p {
      assert len * q >= len * (p + 1) == len * p + len;
    }
  }

  lemma {:induction false} SpansApart(rows: seq<Row>, name: string, len: int)
    requires len > 0 && Aligned(rows, len)
    ensures Apart(Spans(rows, name, len))
    ensures forall s :: s in Spans(rows, name, len) ==>
      s.Sound() && s.len == len && s.t % len == 0 && exists r :: r in rows && r.t == s.t
  {
    if rows != [] {
      var less, last := rows[..|rows| - 1], rows[|rows| - 1];
      assert rows == less + [last];
      SpansApart(less, name, len);
      var spans := Spans(less, name, len);
      forall i | 0 <= i < |spans| ensures spans[i].End() <= last.t {
        assert spans[i] in spans;
        var r :| r in less && r.t == spans[i].t;
        MultiplesApart(r.t, last.t, len);
      }
    }
  }

  lemma {:induction false} BeforeApart(spans: seq<Span>, first: Option<int>)
    requires Apart(spans)
    ensures Apart(Before(spans, first))
    ensures forall s :: s in Before(spans, first) <==> s in spans && (first.None? || s.End() <= first.value)
  {
    if spans != [] {
      var less, last := spans[..|spans| - 1], spans[|spans| - 1];
      assert spans == less + [last];
      BeforeApart(less, first);
      var b := Before(less, first);
      forall i | 0 <= i < |b| ensures b[i].End() <= last.t {
        assert b[i] in b;
      }
    }
  }

  /** What a run of `record` leaves: aligned rows with shares between none and all. */
  lemma {:induction false} FullAligned(calls: seq<Call>)
    ensures Aligned(Full(calls), STEP)
  {
    hide Aligned, Put, SlotOf;
    if calls == [] {
      NoneAligned(STEP);
    } else {
      FullAligned(calls[..|calls| - 1]);
      PutAligned(Full(calls[..|calls| - 1]), calls[|calls| - 1].up, calls[|calls| - 1].now);
    }
  }

  lemma NoneAligned(len: int)
    requires len > 0
    ensures Aligned([], len)
  {
  }

  lemma PutAligned(all: seq<Row>, up: map<string, bool>, now: int)
    requires Aligned(all, STEP)
    ensures Aligned(Put(all, Sample(up, now)), STEP)
  {
    hide Put;
    var x := Sample(up, now);
    PutIs(all, x);
    forall r | r in Put(all, x) ensures r.t % STEP == 0 && forall name :: name in r.up ==> 0.0 <= r.up[name] <= 1.0 {
      assert r != x ==> r in all;
    }
  }

  lemma {:induction false} HavingWithin(rows: seq<Row>, name: string)
    requires forall r :: r in rows && name in r.up ==> 0.0 <= r.up[name] <= 1.0
    ensures 0 <= Having(rows, name).0 && 0.0 <= Having(rows, name).1 <= Having(rows, name).0 as real
  {
    if rows != [] {
      assert rows == rows[..|rows| - 1] + [rows[|rows| - 1]];
      HavingWithin(rows[..|rows| - 1], name);
    }
  }

  lemma MeanWithin(n: int, sum: real)
    requires n > 0 && 0.0 <= sum <= n as real
    ensures 0.0 <= sum / n as real <= 1.0
  {
  }

  lemma ShareWithin(rows: seq<Row>, name: string)
    requires forall r :: r in rows && name in r.up ==> 0.0 <= r.up[name] <= 1.0
    ensures 0.0 <= ShareOf(rows, name) <= 1.0
  {
    HavingWithin(rows, name);
    var (n, sum) := Having(rows, name);
    if n > 0 { MeanWithin(n, sum); }
  }

  lemma {:induction false} StoreAligned(calls: seq<Call>)
    requires Ordered(calls) && calls != []
    ensures Aligned(StoreAfter(calls).fine, STEP) && Aligned(StoreAfter(calls).coarse, HOUR)
  {
    hide StoreAfter, Full, Rollup, InHour;
    var d, all, last := StoreAfter(calls), Full(calls), calls[|calls| - 1].now;
    StoreIsFaithful(calls);
    FullAligned(calls);
    forall c | c in d.coarse ensures c.t % HOUR == 0 && forall name :: name in c.up ==> 0.0 <= c.up[name] <= 1.0 {
      assert Kept(all, c, last);
      KeptAligned(all, c, last);
    }
  }

  lemma KeptAligned(all: seq<Row>, c: Row, last: int)
    requires Kept(all, c, last) && Aligned(all, STEP)
    ensures c.t % HOUR == 0 && forall name :: name in c.up ==> 0.0 <= c.up[name] <= 1.0
  {
    hide ShareOf, HourOf;
    var rows := InHour(all, c.t);
    assert rows[0] in rows;
    HourFacts(rows[0].t);
    forall name | name in c.up ensures 0.0 <= c.up[name] <= 1.0 {
      ShareWithin(rows, name);
      assert c.up[name] == ShareOf(rows, name);
    }
  }

  /** After any run, a node's rows follow one another without overlap. */
  lemma {:induction false} ReadyRowsApart(calls: seq<Call>, name: string)
    requires Ordered(calls) && calls != []
    ensures var rows := ReadyRows(StoreAfter(calls), name);
      Apart(rows) && forall s :: s in rows ==> s.Sound() && (s.len == STEP || s.len == HOUR) && s.t % s.len == 0
  {
    hide StoreAfter;
    StoreAligned(calls);
    JoinedApart(StoreAfter(calls), name);
  }

  lemma JoinedApart(d: Data, name: string)
    requires Aligned(d.fine, STEP) && Aligned(d.coarse, HOUR)
    ensures var rows := ReadyRows(d, name);
      Apart(rows) && forall s :: s in rows ==> s.Sound() && (s.len == STEP || s.len == HOUR) && s.t % s.len == 0
  {
    hide Aligned, Spans, Before;
    SpansApart(d.fine, name, STEP);
    SpansApart(d.coarse, name, HOUR);
    var fine := Spans(d.fine, name, STEP);
    var first := if fine == [] then None else Some(fine[0].t);
    BeforeApart(Spans(d.coarse, name, HOUR), first);
    var hours := Before(Spans(d.coarse, name, HOUR), first);
    forall i, j | 0 <= i < |hours| && 0 <= j < |fine| ensures hours[i].End() <= fine[j].t {
      assert hours[i] in hours && fine[0] in fine;
    }
  }

  // ---- what the rows leave out ----

  predicate Reached(spans: seq<Span>, t: int) { exists s :: s in spans && s.t <= t < s.End() }

  lemma {:induction false} SpansAre(rows: seq<Row>, name: string, len: int)
    ensures forall s :: s in Spans(rows, name, len) <==>
      exists r :: r in rows && name in r.up && s == Span(r.t, len, r.up[name])
  {
    if rows != [] {
      var less, last := rows[..|rows| - 1], rows[|rows| - 1];
      assert rows == less + [last];
      SpansAre(less, name, len);
    }
  }

  /** The samples of the node that the fine tier still has. */
  ghost predicate InFine(all: seq<Row>, name: string, last: int, f: Row) {
    f in all && name in f.up && f.t > last - FINE_KEEP
  }

  lemma {:induction false} FineSpans(d: Data, all: seq<Row>, last: int, name: string)
    requires Faithful(d, all, last)
    ensures forall s :: s in Spans(d.fine, name, STEP) <==>
      exists r :: InFine(all, name, last, r) && s == Span(r.t, STEP, r.up[name])
  {
    hide Kept;
    SpansAre(d.fine, name, STEP);
  }

  lemma {:induction false} NamesHave(rows: seq<Row>, r: Row, name: string)
    requires r in rows && name in r.up
    ensures name in Names(rows)
  {
    var less, last := rows[..|rows| - 1], rows[|rows| - 1];
    assert rows == less + [last];
    if r in less { NamesHave(less, r, name); }
  }

  /** The hour of a sample that the fine tier no longer has. */
  lemma {:induction false} HourSpan(d: Data, all: seq<Row>, last: int, name: string, s: Row)
    requires Faithful(d, all, last) && s in all && name in s.up
    requires last - COARSE_KEEP < HourOf(s.t) && s.t <= last - FINE_KEEP
    ensures exists p :: p in Spans(d.coarse, name, HOUR) && p.t == HourOf(s.t) && p.End() == HourOf(s.t) + HOUR
  {
    hide ShareOf, HourOf;
    var h := HourOf(s.t);
    HourFacts(s.t);
    HourFacts(last);
    assert s in InHour(all, h);
    var c := Rollup(InHour(all, h), h);
    NamesHave(InHour(all, h), s, name);
    assert Kept(all, c, last);
    SpansAre(d.coarse, name, HOUR);
    var p := Span(c.t, HOUR, c.up[name]);
    assert p in Spans(d.coarse, name, HOUR) && p.End() == h + HOUR;
  }

  lemma HourApart(a: int, b: int)
    requires a <= b
    ensures HourOf(a) == HourOf(b) <==> b < HourOf(a) + HOUR
  {
    hide HourOf;
    HourFacts(a);
    HourFacts(b);
    HourGrows(a, b);
    if HourOf(a) < HourOf(b) { MultiplesApart(HourOf(a), HourOf(b), HOUR); }
  }

  /** An hour covers nothing but itself. */
  lemma OneHour(t: int, p: Span)
    requires p.t % HOUR == 0 && p.len == HOUR && p.t <= t < p.End()
    ensures p.t == HourOf(t)
  {
    HourFacts(t);
    hide HourOf;
    if p.t < HourOf(t) { MultiplesApart(p.t, HourOf(t), HOUR); }
    if HourOf(t) < p.t { MultiplesApart(HourOf(t), p.t, HOUR); }
  }

  /** A sample of the last ninety days is in some row of its node, unless it has left the
      fine tier while another sample of the node, of the same hour, has not. */
  lemma {:induction false} CoveredExactlyWhen(calls: seq<Call>, name: string, s: Row)
    requires Ordered(calls) && calls != [] && s in Full(calls) && name in s.up
    requires HourOf(s.t) > calls[|calls| - 1].now - COARSE_KEEP
    ensures var all, last := Full(calls), calls[|calls| - 1].now;
      Reached(ReadyRows(StoreAfter(calls), name), s.t) <==>
        (s.t > last - FINE_KEEP || !exists f :: InFine(all, name, last, f) && HourOf(f.t) == HourOf(s.t))
  {
    hide StoreAfter, Full, HourOf, Faithful, ReadyRows;
    StoreIsFaithful(calls);
    StoreAligned(calls);
    var d, all, last := StoreAfter(calls), Full(calls), calls[|calls| - 1].now;
    if s.t > last - FINE_KEEP {
      FineCovered(d, all, last, name, s);
    } else {
      OldCovered(d, all, last, name, s);
    }
  }

  lemma FineCovered(d: Data, all: seq<Row>, last: int, name: string, s: Row)
    requires Faithful(d, all, last) && InFine(all, name, last, s)
    ensures Reached(ReadyRows(d, name), s.t)
  {
    FineSpans(d, all, last, name);
    hide Faithful, Spans, Before;
    var p := Span(s.t, STEP, s.up[name]);
    assert p in Spans(d.fine, name, STEP);
    assert p in ReadyRows(d, name);
  }

  /** Where the hours stop. */
  function FirstFine(d: Data, name: string): Option<int> {
    var fine := Spans(d.fine, name, STEP);
    if fine == [] then None else Some(fine[0].t)
  }

  /** An hour reaches past the first fine sample of the node exactly when one lies in it. */
  lemma FirstIsLater(d: Data, all: seq<Row>, last: int, name: string, t: int)
    requires Faithful(d, all, last) && Aligned(d.fine, STEP) && t <= last - FINE_KEEP
    ensures (FirstFine(d, name).None? || HourOf(t) + HOUR <= FirstFine(d, name).value) <==>
      !exists f :: InFine(all, name, last, f) && HourOf(f.t) == HourOf(t)
  {
    FineSpans(d, all, last, name);
    SpansApart(d.fine, name, STEP);
    hide Faithful, Spans, Aligned, HourOf;
    var fine := Spans(d.fine, name, STEP);
    if fine != [] {
      assert fine[0] in fine;
      var r :| InFine(all, name, last, r) && fine[0] == Span(r.t, STEP, r.up[name]);
      HourApart(t, r.t);
    }
    forall f | InFine(all, name, last, f) && HourOf(f.t) == HourOf(t)
      ensures fine != [] && fine[0].t < HourOf(t) + HOUR
    {
      HourApart(t, f.t);
      assert Span(f.t, STEP, f.up[name]) in fine;
    }
  }

  lemma OldCovered(d: Data, all: seq<Row>, last: int, name: string, s: Row)
    requires Faithful(d, all, last) && Aligned(d.fine, STEP) && Aligned(d.coarse, HOUR)
    requires s in all && name in s.up && last - COARSE_KEEP < HourOf(s.t) && s.t <= last - FINE_KEEP
    ensures Reached(ReadyRows(d, name), s.t) <==>
      !exists f :: InFine(all, name, last, f) && HourOf(f.t) == HourOf(s.t)
  {
    FirstIsLater(d, all, last, name, s.t);
    HourSpan(d, all, last, name, s);
    FineSpans(d, all, last, name);
    SpansApart(d.coarse, name, HOUR);
    BeforeApart(Spans(d.coarse, name, HOUR), FirstFine(d, name));
    HourFacts(s.t);
    hide Faithful, Aligned, Spans, Before, HourOf, InFine, Apart;
    OnlyItsHour(d, all, last, name, s.t);
  }

  /** Whatever covers an old sample is the row of its hour. */
  lemma {:induction false} OnlyItsHour(d: Data, all: seq<Row>, last: int, name: string, t: int)
    requires Faithful(d, all, last) && Aligned(d.coarse, HOUR) && t <= last - FINE_KEEP
    ensures forall p :: p in ReadyRows(d, name) && p.t <= t < p.End() ==>
      p in Before(Spans(d.coarse, name, HOUR), FirstFine(d, name)) && p.t == HourOf(t) && p.len == HOUR
    ensures forall p :: p in Before(Spans(d.coarse, name, HOUR), FirstFine(d, name)) ==> p in ReadyRows(d, name)
  {
    FineSpans(d, all, last, name);
    SpansApart(d.coarse, name, HOUR);
    BeforeApart(Spans(d.coarse, name, HOUR), FirstFine(d, name));
    hide Faithful, Aligned, Spans, Before, HourOf, Apart;
    forall p | p in ReadyRows(d, name) && p.t <= t < p.End()
      ensures p in Before(Spans(d.coarse, name, HOUR), FirstFine(d, name)) && p.t == HourOf(t) && p.len == HOUR
    {
      if p in Before(Spans(d.coarse, name, HOUR), FirstFine(d, name)) { OneHour(t, p); }
    }
  }

  /** Two samples of one hour, the older one just over two days ago: it is in no row. */
  lemma CutHourIsLost()
    ensures var up := map["n" := true];
      var calls := [Call(up, 0), Call(up, STEP), Call(up, FINE_KEEP + 100)];
      Ordered(calls) && Sample(up, 0) in Full(calls) && !Reached(ReadyRows(StoreAfter(calls), "n"), 0)
  {
    var up := map["n" := true];
    var calls := [Call(up, 0), Call(up, STEP), Call(up, FINE_KEEP + 100)];
    hide Put, ReadyRows, StoreAfter, Reached, Full;
    assert calls[..3] == calls && calls[..0] == [];
    FullMore(calls, 1);
    FullMore(calls, 2);
    FullMore(calls, 3);
    PutIs(Full(calls[..0]), Sample(up, 0));
    PutIs(Full(calls[..1]), Sample(up, STEP));
    PutIs(Full(calls[..2]), Sample(up, FINE_KEEP + 100));
    CoveredExactlyWhen(calls, "n", Sample(up, 0));
    assert InFine(Full(calls), "n", FINE_KEEP + 100, Sample(up, STEP));
  }

  // ---- a share of some time ----

  /** `_share` on the rows that reach past `since`: seconds in all and seconds Ready. */
  function Weighed(rows: seq<Span>, since: int): (int, real) {
    if rows == [] then (0, 0.0)
    else
      var (total, ready) := Weighed(rows[..|rows| - 1], since);
      var last := rows[|rows| - 1];
      if last.End() > since then (total + last.len, ready + last.Ready()) else (total, ready)
  }

  function Share(rows: seq<Span>, since: int): Option<real> {
    var (total, ready) := Weighed(rows, since);
    if total > 0 then Some(100.0 * ready / total as real) else None
  }

  /** Seconds down in the rows that reach past `since`. */
  function DownSince(rows: seq<Span>, since: int): real {
    if rows == [] then 0.0
    else
      var last := rows[|rows| - 1];
      DownSince(rows[..|rows| - 1], since) + if last.End() > since then last.Down() else 0.0
  }

  lemma {:induction false} WeighedIs(rows: seq<Span>, since: int)
    requires forall s :: s in rows ==> s.Sound()
    ensures Weighed(rows, since).0 as real == Weighed(rows, since).1 + DownSince(rows, since)
    ensures 0.0 <= Weighed(rows, since).1 && 0.0 <= DownSince(rows, since) && Weighed(rows, since).0 >= 0
    ensures DownSince(rows, since) == 0.0 <==> forall s :: s in rows && s.End() > since ==> s.up == 1.0
  {
    hide Span.Down, Span.Ready;
    if rows != [] {
      var less, last := rows[..|rows| - 1], rows[|rows| - 1];
      assert rows == less + [last];
      WeighedIs(less, since);
      DownIs(last);
    }
  }

  lemma DownIs(s: Span)
    requires s.Sound()
    ensures s.Down() == s.len as real - s.Ready()
    ensures 0.0 <= s.Ready() <= s.len as real && 0.0 <= s.Down()
    ensures s.Down() == 0.0 <==> s.up == 1.0
  {
  }

  /** A share is what is not down, of the time there are rows for; whole exactly when no row
      in the window was down at all. */
  lemma {:induction false} ShareIsWhatIsNotDown(rows: seq<Span>, since: int)
    requires (forall s :: s in rows ==> s.Sound()) && Share(rows, since).Some?
    ensures var share, total := Share(rows, since).value, Weighed(rows, since).0 as real;
      && (100.0 - share) * total == 100.0 * DownSince(rows, since)
      && 0.0 <= share <= 100.0
      && (share == 100.0 <==> forall s :: s in rows && s.End() > since ==> s.up == 1.0)
  {
    WeighedIs(rows, since);
    PerCent(Weighed(rows, since).0, Weighed(rows, since).1, DownSince(rows, since));
  }

  lemma PerCent(total: int, ready: real, down: real)
    requires total > 0 && total as real == ready + down && 0.0 <= ready && 0.0 <= down
    ensures var share := 100.0 * ready / total as real;
      (100.0 - share) * total as real == 100.0 * down && 0.0 <= share <= 100.0 && (share == 100.0 <==> down == 0.0)
  {
    var share := 100.0 * ready / total as real;
    assert share * total as real == 100.0 * ready;
  }

  // ---- the strip of days ----

  function DayStart(now: int, back: nat): int { now - now % DAY - back * DAY }

  /** The rows `uptime` weighs for one day. */
  predicate InDay(s: Span, now: int, back: nat) {
    s.t < DayStart(now, back) + DAY && s.End() > DayStart(now, back)
  }

  /** An aligned row is in a day exactly when it begins in it. */
  lemma InDayIs(s: Span, now: int, back: nat)
    requires (s.len == STEP || s.len == HOUR) && s.t % s.len == 0
    ensures InDay(s, now, back) <==> DayStart(now, back) <= s.t < DayStart(now, back) + DAY
  {
    var day := DayStart(now, back);
    var q := now / DAY - back;
    assert day == DAY * q;
    if s.t < day {
      if s.len == STEP {
        assert day == STEP * (288 * q) && (STEP * (288 * q)) % STEP == 0;
      } else {
        assert day == HOUR * (24 * q) && (HOUR * (24 * q)) % HOUR == 0;
      }
      MultiplesApart(s.t, day, s.len);
    }
  }

  /** Every row of the ninety days is in exactly one of them, and no other row is in any. */
  lemma InExactlyOneDay(s: Span, now: int)
    requires (s.len == STEP || s.len == HOUR) && s.t % s.len == 0
    ensures (exists back: nat :: back < 90 && InDay(s, now, back)) <==>
      DayStart(now, 89) <= s.t < DayStart(now, 0) + DAY
    ensures forall a: nat, b: nat :: a < 90 && b < 90 && InDay(s, now, a) && InDay(s, now, b) ==> a == b
  {
    forall back: nat ensures InDay(s, now, back) <==> DayStart(now, back) <= s.t < DayStart(now, back) + DAY {
      InDayIs(s, now, back);
    }
    if DayStart(now, 89) <= s.t < DayStart(now, 0) + DAY {
      var x := DayStart(now, 0) + DAY - 1 - s.t;
      var back := x / DAY;
      assert x == DAY * back + x % DAY;
      assert InDay(s, now, back);
    }
  }

  // ---- outages ----

  datatype Outage = Outage(start: int, end: int, down: real, exact: bool, ongoing: bool)

  function DownOf(rows: seq<Span>, from: nat, to: nat): real
    requires from <= to <= |rows|
  {
    if from == to then 0.0 else DownOf(rows, from, to - 1) + rows[to - 1].Down()
  }

  predicate AllExact(rows: seq<Span>, from: nat, to: nat)
    requires from <= to <= |rows|
  {
    forall i :: from <= i < to ==> rows[i].len == STEP
  }

  /** Row i and the row before it are one stretch. */
  predicate Joined(rows: seq<Span>, i: nat)
    requires 0 < i < |rows|
  {
    rows[i - 1].Down() > 0.0 && rows[i].Down() > 0.0 && rows[i - 1].End() >= rows[i].t - 1
  }

  /** Which rows an outage covers. */
  datatype Part = Part(from: nat, to: nat)

  /** Rows from..to are down, hang together, and hang together with nothing else. */
  ghost predicate Run(rows: seq<Span>, p: Part) {
    && p.from < p.to <= |rows|
    && (forall i :: p.from <= i < p.to ==> rows[i].Down() > 0.0)
    && (forall i :: p.from < i < p.to ==> Joined(rows, i))
    && (0 < p.from ==> !Joined(rows, p.from))
  }

  ghost predicate Ended(rows: seq<Span>, p: Part)
    requires p.to <= |rows|
  {
    0 < p.to < |rows| ==> !Joined(rows, p.to)
  }

  ghost predicate Tells(rows: seq<Span>, p: Part, o: Outage)
    requires p.from < p.to <= |rows|
  {
    && o.start == rows[p.from].t && o.end == rows[p.to - 1].End()
    && o.down == DownOf(rows, p.from, p.to) && o.exact == AllExact(rows, p.from, p.to)
  }

  /** The outages of the first n rows. */
  ghost predicate Covers(rows: seq<Span>, n: nat, out: seq<Outage>, parts: seq<Part>) {
    && n <= |rows| && |parts| == |out|
    && (forall k :: 0 <= k < |parts| ==> parts[k].to <= n && Run(rows, parts[k]) && Tells(rows, parts[k], out[k]))
    && (forall k :: 0 <= k < |parts| && parts[k].to < n ==> Ended(rows, parts[k]))
    && (forall j, k :: 0 <= j < k < |parts| ==> parts[j].to <= parts[k].from)
    && (forall i :: 0 <= i < n && rows[i].Down() > 0.0 ==>
      exists k :: 0 <= k < |parts| && parts[k].from <= i < parts[k].to)
  }

  /** The last part ends at row n, or row n - 1 is up. */
  ghost predicate Open(rows: seq<Span>, n: nat, parts: seq<Part>, open: bool)
    requires n <= |rows|
  {
    && (open ==> parts != [] && parts[|parts| - 1].to == n)
    && (!open ==> n == 0 || rows[n - 1].Down() <= 0.0)
  }

  lemma Skips(rows: seq<Span>, n: nat, out: seq<Outage>, parts: seq<Part>)
    requires n < |rows| && Covers(rows, n, out, parts) && rows[n].Down() <= 0.0
    ensures Covers(rows, n + 1, out, parts)
  {
    hide Run, Tells;
  }

  lemma Opens(rows: seq<Span>, n: nat, out: seq<Outage>, parts: seq<Part>, o: Outage)
    requires n < |rows| && Covers(rows, n, out, parts) && rows[n].Down() > 0.0
    requires n > 0 ==> !Joined(rows, n)
    requires o == Outage(rows[n].t, rows[n].End(), rows[n].Down(), rows[n].len == STEP, false)
    ensures Covers(rows, n + 1, out + [o], parts + [Part(n, n + 1)])
  {
    hide Covers, Run, Tells, Joined;
    OneRow(rows, n, o);
    CoversMore(rows, n, out, parts, Part(n, n + 1), o);
  }

  lemma OneRow(rows: seq<Span>, n: nat, o: Outage)
    requires n < |rows| && rows[n].Down() > 0.0 && (n > 0 ==> !Joined(rows, n))
    requires o == Outage(rows[n].t, rows[n].End(), rows[n].Down(), rows[n].len == STEP, false)
    ensures Run(rows, Part(n, n + 1)) && Tells(rows, Part(n, n + 1), o)
  {
    hide Joined;
    assert DownOf(rows, n, n + 1) == DownOf(rows, n, n) + rows[n].Down();
  }

  lemma CoversMore(rows: seq<Span>, n: nat, out: seq<Outage>, parts: seq<Part>, p: Part, o: Outage)
    requires n < |rows| && Covers(rows, n, out, parts) && (n > 0 ==> !Joined(rows, n))
    requires p == Part(n, n + 1) && Run(rows, p) && Tells(rows, p, o)
    ensures Covers(rows, n + 1, out + [o], parts + [p])
  {
    hide Run, Tells, Joined;
    var ps := parts + [p];
    forall i | 0 <= i < n + 1 && rows[i].Down() > 0.0 ensures exists k :: 0 <= k < |ps| && ps[k].from <= i < ps[k].to {
      if i < n {
        var k :| 0 <= k < |parts| && parts[k].from <= i < parts[k].to;
        assert ps[k] == parts[k];
      } else {
        assert ps[|parts|] == p;
      }
    }
  }

  /** What the list says of one outage. */
  lemma CoversAt(rows: seq<Span>, n: nat, out: seq<Outage>, parts: seq<Part>, k: nat)
    requires Covers(rows, n, out, parts) && k < |parts|
    ensures |out| == |parts| && n <= |rows| && parts[k].from < parts[k].to <= n
    ensures Run(rows, parts[k]) && Tells(rows, parts[k], out[k])
  {
    hide Tells;
  }

  lemma CoversOrder(rows: seq<Span>, n: nat, out: seq<Outage>, parts: seq<Part>, j: nat, k: nat)
    requires Covers(rows, n, out, parts) && j < k < |parts|
    ensures parts[j].to <= parts[k].from && (n == |rows| ==> Ended(rows, parts[j]))
  {
    hide Tells;
    CoversAt(rows, n, out, parts, k);
  }

  lemma RunMore(rows: seq<Span>, p: Part)
    requires p.to < |rows| && Run(rows, p) && Joined(rows, p.to)
    ensures Run(rows, p.(to := p.to + 1))
  {
  }

  lemma Extends(rows: seq<Span>, n: nat, out: seq<Outage>, parts: seq<Part>)
    requires n < |rows| && Covers(rows, n, out, parts) && parts != [] && parts[|parts| - 1].to == n
    requires 0 < n && Joined(rows, n) && |out| == |parts|
    ensures var m := |parts| - 1;
      var p := parts[m].(to := n + 1);
      var o := out[m].(end := rows[n].End(), down := out[m].down + rows[n].Down(),
                       exact := out[m].exact && rows[n].len == STEP);
      Covers(rows, n + 1, out[m := o], parts[m := p])
  {
    hide Run, Tells, Joined, Covers;
    var m := |parts| - 1;
    CoversAt(rows, n, out, parts, m);
    RunMore(rows, parts[m]);
    TellsMore(rows, parts[m], out[m]);
    var o := out[m].(end := rows[n].End(), down := out[m].down + rows[n].Down(),
                     exact := out[m].exact && rows[n].len == STEP);
    CoversLonger(rows, n, out, parts, parts[m].(to := n + 1), o);
  }

  lemma TellsMore(rows: seq<Span>, p: Part, o: Outage)
    requires p.from < p.to < |rows| && Tells(rows, p, o)
    ensures var n := p.to;
      Tells(rows, p.(to := n + 1),
        o.(end := rows[n].End(), down := o.down + rows[n].Down(), exact := o.exact && rows[n].len == STEP))
  {
  }

  lemma CoversLonger(rows: seq<Span>, n: nat, out: seq<Outage>, parts: seq<Part>, p: Part, o: Outage)
    requires n < |rows| && Covers(rows, n, out, parts) && parts != []
    requires parts[|parts| - 1].to == n && p == parts[|parts| - 1].(to := n + 1) && p.from < p.to && Run(rows, p) &&
      Tells(rows, p, o)
    ensures Covers(rows, n + 1, out[|out| - 1 := o], parts[|parts| - 1 := p])
  {
    hide Run, Tells, Joined;
    var m := |parts| - 1;
    var ps := parts[m := p];
    forall k | 0 <= k < m ensures parts[k].to < n {
      assert Run(rows, parts[m]);
      RunNonempty(rows, parts[m]);
    }
    forall i | 0 <= i < n + 1 && rows[i].Down() > 0.0 ensures exists k :: 0 <= k < |ps| && ps[k].from <= i < ps[k].to {
      if i < n {
        var k :| 0 <= k < |parts| && parts[k].from <= i < parts[k].to;
        assert ps[k].from == parts[k].from && ps[k].to >= parts[k].to;
      } else {
        assert ps[m] == p;
      }
    }
  }

  lemma RunNonempty(rows: seq<Span>, p: Part)
    requires Run(rows, p)
    ensures p.from < p.to
  {
  }

  /** `_outages`. */
  method Outages(rows: seq<Span>, now: int) returns (out: seq<Outage>, ghost parts: seq<Part>)
    ensures Covers(rows, |rows|, out, parts)
    ensures forall o :: o in out ==> (o.ongoing <==> o.end >= now - STEP)
  {
    hide Covers, Run;
    out, parts := [], [];
    var open := false;
    Nothing(rows);
    for i := 0 to |rows|
      invariant Covers(rows, i, out, parts) && Open(rows, i, parts, open) && |parts| == |out|
    {
      var row := rows[i];
      if row.Down() > 0.0 {
        LastTells(rows, i, out, parts, open);
        if open && out[|out| - 1].end >= row.t - 1 {
          var current := out[|out| - 1];
          Extends(rows, i, out, parts);
          current := current.(end := row.End(), down := current.down + row.Down(),
                              exact := current.exact && row.len == STEP);
          out := out[|out| - 1 := current];
          parts := parts[|parts| - 1 := parts[|parts| - 1].(to := i + 1)];
        } else {
          var current := Outage(row.t, row.End(), row.Down(), row.len == STEP, false);
          Opens(rows, i, out, parts, current);
          out := out + [current];
          parts := parts + [Part(i, i + 1)];
          open := true;
        }
      } else {
        Skips(rows, i, out, parts);
        open := false;
      }
    }
    ghost var told := out;
    for k := 0 to |out|
      invariant |out| == |told|
      invariant forall j :: 0 <= j < |out| ==>
        out[j] == if j < k then told[j].(ongoing := told[j].end >= now - STEP) else told[j]
    {
      out := out[k := out[k].(ongoing := out[k].end >= now - STEP)];
    }
    OngoingAside(rows, told, out, parts);
  }

  lemma Nothing(rows: seq<Span>)
    ensures Covers(rows, 0, [], [])
  {
  }

  lemma OngoingAside(rows: seq<Span>, told: seq<Outage>, out: seq<Outage>, parts: seq<Part>)
    requires Covers(rows, |rows|, told, parts) && |out| == |told|
    requires forall j :: 0 <= j < |out| ==> out[j] == told[j].(ongoing := out[j].ongoing)
    ensures Covers(rows, |rows|, out, parts)
  {
    hide Run;
  }

  /** The outage now open ends with the row before; without one that row is not down. */
  lemma LastTells(rows: seq<Span>, n: nat, out: seq<Outage>, parts: seq<Part>, open: bool)
    requires n < |rows| && Covers(rows, n, out, parts) && |out| == |parts| && Open(rows, n, parts, open) &&
      rows[n].Down() > 0.0
    ensures open ==> n > 0 && out != [] && (Joined(rows, n) <==> out[|out| - 1].end >= rows[n].t - 1)
    ensures !open && n > 0 ==> !Joined(rows, n)
  {
    hide Covers, Run;
    if open {
      CoversAt(rows, n, out, parts, |parts| - 1);
      RunLast(rows, parts[|parts| - 1]);
    }
  }

  lemma RunLast(rows: seq<Span>, p: Part)
    requires Run(rows, p)
    ensures rows[p.to - 1].Down() > 0.0
  {
  }

  // ---- what the outages add up to ----

  lemma {:induction false} DownSplits(rows: seq<Span>, a: nat, b: nat, c: nat)
    requires a <= b <= c <= |rows|
    ensures DownOf(rows, a, c) == DownOf(rows, a, b) + DownOf(rows, b, c)
  {
    if b < c { DownSplits(rows, a, b, c - 1); }
  }

  lemma {:induction false} NoneDown(rows: seq<Span>, a: nat, b: nat)
    requires a <= b <= |rows| && forall i :: a <= i < b ==> rows[i].Down() == 0.0
    ensures DownOf(rows, a, b) == 0.0
  {
    if a < b { NoneDown(rows, a, b - 1); }
  }

  function TotalDown(out: seq<Outage>, k: nat): real
    requires k <= |out|
  {
    if k == 0 then 0.0 else TotalDown(out, k - 1) + out[k - 1].down
  }

  lemma {:induction false} OutagesUpTo(rows: seq<Span>, out: seq<Outage>, parts: seq<Part>, k: nat)
    requires Covers(rows, |rows|, out, parts) && k <= |parts| == |out|
    requires forall i :: 0 <= i < |rows| ==> rows[i].Down() >= 0.0
    ensures k > 0 ==> parts[k - 1].to <= |rows|
    ensures TotalDown(out, k) == DownOf(rows, 0, if k == 0 then 0 else parts[k - 1].to)
  {
    hide Covers, Run, Joined;
    if k > 0 {
      OutagesUpTo(rows, out, parts, k - 1);
      var p := parts[k - 1];
      var from := if k == 1 then 0 else parts[k - 2].to;
      CoversAt(rows, |rows|, out, parts, k - 1);
      if k > 1 {
        CoversAt(rows, |rows|, out, parts, k - 2);
        CoversOrder(rows, |rows|, out, parts, k - 2, k - 1);
      }
      GapIsUp(rows, out, parts, k - 1, from, p.from);
      NoneDown(rows, from, p.from);
      DownSplits(rows, 0, from, p.from);
      DownSplits(rows, 0, p.from, p.to);
    }
  }

  /** Between two outages, and before the first and after the last, nothing is down. */
  lemma GapIsUp(rows: seq<Span>, out: seq<Outage>, parts: seq<Part>, k: nat, a: nat, b: nat)
    requires Covers(rows, |rows|, out, parts) && k <= |parts| && a <= b <= |rows|
    requires k == 0 || parts[k - 1].to <= a
    requires k < |parts| ==> b <= parts[k].from
    requires forall i :: 0 <= i < |rows| ==> rows[i].Down() >= 0.0
    ensures forall i :: a <= i < b ==> rows[i].Down() == 0.0
  {
    hide Run, Tells, Joined;
    forall i | a <= i < b ensures rows[i].Down() == 0.0 {
      if rows[i].Down() > 0.0 {
        var j :| 0 <= j < |parts| && parts[j].from <= i < parts[j].to;
        assert Run(rows, parts[j]);
        if j < k && j < k - 1 { RunNonempty(rows, parts[k - 1]); }
        if j > k { RunNonempty(rows, parts[j]); }
        if k < |parts| { RunNonempty(rows, parts[k]); }
        assert false;
      }
    }
  }

  /** The outages account for all the time down, and no second of it twice. */
  lemma {:induction false} OutagesAddUp(rows: seq<Span>, out: seq<Outage>, parts: seq<Part>)
    requires Covers(rows, |rows|, out, parts)
    requires forall s :: s in rows ==> s.Sound()
    ensures TotalDown(out, |out|) == DownOf(rows, 0, |rows|)
  {
    hide Covers;
    forall i | 0 <= i < |rows| ensures rows[i].Down() >= 0.0 {
      assert rows[i] in rows;
      DownIs(rows[i]);
    }
    var n := |parts|;
    CoversSizes(rows, out, parts);
    OutagesUpTo(rows, out, parts, n);
    var from := if n == 0 then 0 else parts[n - 1].to;
    GapIsUp(rows, out, parts, n, from, |rows|);
    NoneDown(rows, from, |rows|);
    DownSplits(rows, 0, from, |rows|);
  }

  lemma CoversSizes(rows: seq<Span>, out: seq<Outage>, parts: seq<Part>)
    requires Covers(rows, |rows|, out, parts)
    ensures |out| == |parts| && forall k :: 0 <= k < |parts| ==> parts[k].to <= |rows|
  {
  }

  /** One of the rows from..to is up all through. */
  predicate UpWithin(rows: seq<Span>, from: nat, to: nat) {
    exists i :: from <= i < to && i < |rows| && rows[i].up == 1.0
  }

  lemma Separate(rows: seq<Span>, p: Part, q: Part)
    requires Run(rows, p) && Run(rows, q) && Ended(rows, p) && p.to <= q.from
    requires rows[p.to - 1].End() >= rows[q.from].t - 1
    ensures p.to < q.from
  {
  }

  /** Outages follow one another; between two there is an up row, or time without rows. */
  lemma OutagesApart(rows: seq<Span>, out: seq<Outage>, parts: seq<Part>, j: nat, k: nat)
    requires Covers(rows, |rows|, out, parts) && Apart(rows) && (forall s :: s in rows ==> s.Sound())
    requires j < k < |out| == |parts|
    ensures out[j].start < out[j].end <= out[k].start < out[k].end
    ensures out[j].end >= out[k].start - 1 ==> UpWithin(rows, parts[j].to, parts[k].from)
  {
    hide Covers, Run, Ended, Joined;
    CoversAt(rows, |rows|, out, parts, j);
    CoversAt(rows, |rows|, out, parts, k);
    CoversOrder(rows, |rows|, out, parts, j, k);
    PartSpan(rows, parts[j], out[j]);
    PartSpan(rows, parts[k], out[k]);
    var last := parts[j].to - 1;
    assert rows[last].End() <= rows[parts[k].from].t;
    if out[j].end >= out[k].start - 1 { UpBetween(rows, out, parts, j, k); }
  }

  lemma UpBetween(rows: seq<Span>, out: seq<Outage>, parts: seq<Part>, j: nat, k: nat)
    requires Covers(rows, |rows|, out, parts) && Apart(rows) && (forall s :: s in rows ==> s.Sound())
    requires j < k < |out| == |parts| && out[j].end >= out[k].start - 1
    ensures UpWithin(rows, parts[j].to, parts[k].from)
  {
    hide Covers, Apart, Run, Ended;
    CoversAt(rows, |rows|, out, parts, j);
    CoversAt(rows, |rows|, out, parts, j + 1);
    CoversAt(rows, |rows|, out, parts, k);
    CoversOrder(rows, |rows|, out, parts, j, j + 1);
    if j + 1 < k { CoversOrder(rows, |rows|, out, parts, j + 1, k); }
    var i := parts[j].to;
    SpansUpward(rows);
    forall s | 0 <= s < |rows| ensures rows[s].Down() >= 0.0 { assert rows[s] in rows; DownIs(rows[s]); }
    Separate(rows, parts[j], parts[j + 1]);
    GapIsUp(rows, out, parts, j + 1, i, parts[j + 1].from);
    assert rows[i] in rows;
    DownIs(rows[i]);
  }

  lemma SpansUpward(rows: seq<Span>)
    requires Apart(rows) && forall s :: s in rows ==> s.Sound()
    ensures forall i, j :: 0 <= i <= j < |rows| ==> rows[i].t <= rows[j].t
  {
    forall i, j | 0 <= i < j < |rows| ensures rows[i].t <= rows[j].t { assert rows[i] in rows; }
  }

  lemma PartSpan(rows: seq<Span>, p: Part, o: Outage)
    requires p.from < p.to <= |rows| && Tells(rows, p, o) && Apart(rows) && forall s :: s in rows ==> s.Sound()
    ensures o.start < o.end
  {
    assert rows[p.from] in rows && rows[p.to - 1] in rows;
  }
}
