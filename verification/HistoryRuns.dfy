/** What the kept rows say, in terms of what each call was told. */
module HistoryRuns {
  import opened History

  /** The five minutes, and the hour, that a time lies in. */
  function SlotStart(now: int): int { now / 300 * 300 }

  function HourStart(now: int): int { now / 3600 * 3600 }

  lemma StartsAre(now: int)
    ensures SlotOf(now) == SlotStart(now) && HourOf(SlotStart(now)) == HourStart(now) == HourOf(now)
    ensures HourStart(now) % HOUR == 0
  {
    HourFacts(now);
    SlotIs(now, now / 300);
    HourIs(now, now / 3600);
  }

  /** No later call is in the five minutes of call i. */
  predicate LastOfSlot(calls: seq<Call>, i: int) {
    0 <= i < |calls| && forall j :: i < j < |calls| ==> SlotStart(calls[j].now) != SlotStart(calls[i].now)
  }

  /** The row is of the call: its five minutes, its nodes, and 1 for each that was Ready. */
  ghost predicate Shows(r: Row, call: Call) {
    && r.t == SlotStart(call.now) && r.n == 1 && r.up.Keys == call.up.Keys
    && forall name :: name in call.up ==> r.up[name] == if call.up[name] then 1.0 else 0.0
  }

  lemma ShowsIsSample(r: Row, call: Call)
    ensures Shows(r, call) <==> r == Sample(call.up, call.now)
  {
    StartsAre(call.now);
    hide SlotOf, SlotStart;
    var x := Sample(call.up, call.now);
    if Shows(r, call) {
      assert r.up.Keys == x.up.Keys;
      assert r.up == x.up;
    }
  }

  lemma LastMore(calls: seq<Call>, i: int)
    requires calls != []
    ensures var less, last := calls[..|calls| - 1], calls[|calls| - 1];
      LastOfSlot(calls, i) <==>
        i == |less| || (LastOfSlot(less, i) && SlotStart(less[i].now) != SlotStart(last.now))
  {
    hide SlotStart;
    var less := calls[..|calls| - 1];
    if 0 <= i < |less| {
      assert forall j :: i < j < |less| ==> calls[j] == less[j];
    }
  }

  /** All samples ever taken are those of the last call of each five minutes. */
  lemma {:induction false} FullShows(calls: seq<Call>, r: Row)
    ensures r in Full(calls) <==> exists i :: LastOfSlot(calls, i) && Shows(r, calls[i])
  {
    hide Put, Sample, SlotStart, Shows;
    if calls == [] {
      assert forall i :: !LastOfSlot(calls, i);
    } else {
      var less, last := calls[..|calls| - 1], calls[|calls| - 1];
      var x := Sample(last.up, last.now);
      FullShows(less, r);
      PutIs(Full(less), x);
      ShowsIsSample(r, last);
      ShowsIsSample(x, last);
      ShowsSlot(x, last);
      forall i | LastOfSlot(less, i) && Shows(r, less[i])
        ensures r.t == SlotStart(less[i].now) { ShowsSlot(r, less[i]); }
      forall i ensures LastOfSlot(calls, i) <==> i == |less| || (LastOfSlot(less, i) && SlotStart(less[i].now) != x.t) {
        LastMore(calls, i);
      }
      assert LastOfSlot(calls, |less|) && calls[|less|] == last;
      forall i | LastOfSlot(less, i) ensures calls[i] == less[i] { }
    }
  }

  lemma ShowsSlot(r: Row, call: Call)
    requires Shows(r, call)
    ensures r.t == SlotStart(call.now)
  {
  }

  /** After any run the fine tier has, for the last call of each five minutes of two days and
      for nothing else, a row that says of each node what that call was told. */
  lemma {:induction false} FineSays(calls: seq<Call>)
    requires Ordered(calls) && calls != []
    ensures var fine, last := StoreAfter(calls).fine, calls[|calls| - 1].now;
      forall r :: r in fine <==> r.t > last - FINE_KEEP && exists i :: LastOfSlot(calls, i) && Shows(r, calls[i])
  {
    hide StoreAfter, Full, Shows, Kept, SlotStart;
    StoreIsFaithful(calls);
    forall r ensures r in Full(calls) <==>
      exists i :: LastOfSlot(calls, i) && Shows(r, calls[i]) { FullShows(calls, r); }
  }

  // ---- hours ----

  /** The five minutes of an hour in which something was told; those in which the last call
      was told of a node; and those in which it was told that the node is Ready. */
  function Slots(calls: seq<Call>, hour: int): set<int> {
    set i | 0 <= i < |calls| && LastOfSlot(calls, i) && HourStart(calls[i].now) == hour :: SlotStart(calls[i].now)
  }

  function SlotsWith(calls: seq<Call>, hour: int, name: string): set<int> {
    set i | 0 <= i < |calls| && LastOfSlot(calls, i) && HourStart(calls[i].now) == hour && name in calls[i].up ::
      SlotStart(calls[i].now)
  }

  function SlotsReady(calls: seq<Call>, hour: int, name: string): set<int> {
    set i | 0 <= i < |calls| && LastOfSlot(calls, i) && HourStart(calls[i].now) == hour
      && name in calls[i].up && calls[i].up[name] :: SlotStart(calls[i].now)
  }

  function TimesWith(rows: seq<Row>, name: string): set<int> { set r | r in rows && name in r.up :: r.t }

  function TimesReady(rows: seq<Row>, name: string): set<int> {
    set r | r in rows && name in r.up && r.up[name] == 1.0 :: r.t
  }

  /** Each share is none or all. */
  predicate Whole(rows: seq<Row>) {
    forall r, name :: r in rows && name in r.up ==> r.up[name] == 0.0 || r.up[name] == 1.0
  }

  lemma {:induction false} CountRows(rows: seq<Row>)
    requires Strict(rows)
    ensures |rows| == |Times(rows)|
  {
    if rows != [] {
      var less, last := rows[..|rows| - 1], rows[|rows| - 1];
      LastIsLatest(rows);
      CountRows(less);
      assert Times(rows) == Times(less) + {last.t};
    }
  }

  lemma TimesMore(rows: seq<Row>, name: string)
    requires Strict(rows) && rows != []
    ensures var less, last := rows[..|rows| - 1], rows[|rows| - 1];
      && last.t !in TimesWith(less, name) && last.t !in TimesReady(less, name)
      && TimesWith(rows, name) == TimesWith(less, name) + (if name in last.up then {last.t} else {})
      && TimesReady(rows, name) ==
        TimesReady(less, name) + (if name in last.up && last.up[name] == 1.0 then {last.t} else {})
  {
    LastIsLatest(rows);
    hide Strict;
  }

  lemma {:induction false} CountHaving(rows: seq<Row>, name: string)
    requires Strict(rows) && Whole(rows)
    ensures Having(rows, name).0 == |TimesWith(rows, name)|
    ensures Having(rows, name).1 == |TimesReady(rows, name)| as real
  {
    hide TimesWith, TimesReady, Strict;
    if rows == [] {
      NoTimes(name);
    } else {
      var less, last := rows[..|rows| - 1], rows[|rows| - 1];
      TimesMore(rows, name);
      LessIsSo(rows);
      CountHaving(less, name);
    }
  }

  lemma NoTimes(name: string)
    ensures TimesWith([], name) == {} && TimesReady([], name) == {}
  {
  }

  lemma LessIsSo(rows: seq<Row>)
    requires rows != [] && Strict(rows) && Whole(rows)
    ensures Strict(rows[..|rows| - 1]) && Whole(rows[..|rows| - 1]) && rows[|rows| - 1] in rows
  {
  }

  lemma {:induction false} NamesAre(rows: seq<Row>, name: string)
    ensures name in Names(rows) <==> exists r :: r in rows && name in r.up
  {
    if rows != [] {
      var less, last := rows[..|rows| - 1], rows[|rows| - 1];
      assert rows == less + [last];
      NamesAre(less, name);
    }
  }

  /** The rows of an hour, call by call. */
  lemma {:induction false} HourShows(calls: seq<Call>, hour: int, r: Row)
    ensures r in InHour(Full(calls), hour) <==>
      exists i :: LastOfSlot(calls, i) && HourStart(calls[i].now) == hour && Shows(r, calls[i])
  {
    hide Full, InHour, HourOf, SlotStart, HourStart;
    FullShows(calls, r);
    forall i | LastOfSlot(calls, i) && Shows(r, calls[i]) ensures HourOf(r.t) == HourStart(calls[i].now) {
      StartsAre(calls[i].now);
    }
  }

  lemma {:induction false} HourSets(calls: seq<Call>, hour: int, name: string)
    ensures var rows := InHour(Full(calls), hour);
      && Times(rows) == Slots(calls, hour) && TimesWith(rows, name) == SlotsWith(calls, hour, name)
      && TimesReady(rows, name) == SlotsReady(calls, hour, name) && Whole(rows)
  {
    var rows := InHour(Full(calls), hour);
    forall r ensures r in rows <==>
      exists i :: LastOfSlot(calls, i) && HourStart(calls[i].now) == hour && Shows(r, calls[i]) {
      HourShows(calls, hour, r);
    }
    hide Full, InHour, SlotStart, HourStart, LastOfSlot;
    forall i | 0 <= i < |calls| && LastOfSlot(calls, i) && HourStart(calls[i].now) == hour
      ensures exists r :: r in rows && Shows(r, calls[i])
    {
      ShowsIsSample(Sample(calls[i].up, calls[i].now), calls[i]);
    }
  }

  /** After any run each kept hour counts the five minutes in which something was told, has
      the nodes that were told of in it, and for each of them the share of those five
      minutes in which it was told to be Ready at last. */
  lemma {:induction false} HoursSay(calls: seq<Call>, c: Row, name: string)
    requires Ordered(calls) && calls != [] && c in StoreAfter(calls).coarse
    ensures c.n == |Slots(calls, c.t)|
    ensures name in c.up <==> SlotsWith(calls, c.t, name) != {}
    ensures name in c.up ==>
      c.up[name] * |SlotsWith(calls, c.t, name)| as real == |SlotsReady(calls, c.t, name)| as real
  {
    hide StoreAfter, Full, InHour, Having, Names, Times, TimesWith, TimesReady, Slots, SlotsWith, SlotsReady;
    StoreIsFaithful(calls);
    var rows := InHour(Full(calls), c.t);
    assert Kept(Full(calls), c, calls[|calls| - 1].now);
    HourSets(calls, c.t, name);
    CountRows(rows);
    CountHaving(rows, name);
    NamesAre(rows, name);
    WithIsSome(rows, name);
    ShareTimes(rows, name);
  }

  lemma WithIsSome(rows: seq<Row>, name: string)
    ensures TimesWith(rows, name) != {} <==> exists r :: r in rows && name in r.up
  {
    if r :| r in rows && name in r.up {
      assert r.t in TimesWith(rows, name);
    }
  }

  lemma {:induction false} ShareTimes(rows: seq<Row>, name: string)
    ensures Having(rows, name).0 > 0 ==> ShareOf(rows, name) * Having(rows, name).0 as real == Having(rows, name).1
  {
    hide Having;
  }

  /** The kept hours are those over in which something was told, of the last ninety days. */
  lemma {:induction false} HoursAre(calls: seq<Call>, hour: int)
    requires Ordered(calls) && calls != []
    ensures (exists c :: c in StoreAfter(calls).coarse && c.t == hour) <==>
      && Slots(calls, hour) != {} && hour < HourStart(calls[|calls| - 1].now)
      && hour > calls[|calls| - 1].now - COARSE_KEEP
  {
    hide StoreAfter, Full, InHour, Times, Slots, Rollup, HourOf, HourStart;
    StoreIsFaithful(calls);
    var d, all, last := StoreAfter(calls), Full(calls), calls[|calls| - 1].now;
    HourSets(calls, hour, "");
    StartsAre(last);
    TimesNone(InHour(all, hour));
    RollupAt(InHour(all, hour), hour);
    if Over(all, hour, last) && hour > last - COARSE_KEEP {
      assert Kept(all, Rollup(InHour(all, hour), hour), last);
    }
  }

  lemma TimesNone(rows: seq<Row>)
    ensures Times(rows) == {} <==> rows == []
  {
    if rows != [] {
      assert rows[0] in rows;
      assert rows[0].t in Times(rows);
    }
  }
}
