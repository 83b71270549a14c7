/** The alert engine: facts seen now against facts seen before, and what is told of them. */
module Alerts {
  import opened Options

  const HOLD: real := 60.0
  const LOG_SIZE: nat := 300

  datatype Fact = Fact(key: string, event: bool)

  datatype Phase = Raised | Resolved

  datatype Entry = Entry(id: nat, at: int, phase: Phase, key: string)

  /** One fact kept; `announced` is the entry that told it, 0 for none and -1 for history;
      `missing` is since when it is gone, 0 while it is there. */
  datatype Row = Row(fact: Fact, since: real, announced: int, missing: real)

  /** What one source answered: its facts, or nothing when it could not look. */
  datatype Report = Report(source: string, facts: Option<seq<Fact>>)

  datatype State = State(count: nat, active: map<string, Row>, log: seq<Entry>, sources: set<string>)

  const FIRST := State(0, map[], [], {})

  predicate DistinctSources(reports: seq<Report>) {
    forall i, j :: 0 <= i < j < |reports| ==> reports[i].source != reports[j].source
  }

  /** The key is one of that source's. */
  predicate Of(key: string, source: string) { source + ":" <= key }

  // ---- one key at a time ----

  datatype Told = Silent | History | Announced

  /** What a row means for its key, the number of its entry aside. */
  datatype Mark = Mark(event: bool, since: real, told: Told, missing: real)

  function ToldOf(announced: int): Told {
    if announced == 0 then Silent else if announced < 0 then History else Announced
  }

  function MarkOf(active: map<string, Row>, key: string): Option<Mark> {
    if key in active then
      var row := active[key];
      Some(Mark(row.fact.event, row.since, ToldOf(row.announced), row.missing))
    else None
  }

  /** A key's row, and what one call said of the key. */
  datatype View = View(mark: Option<Mark>, said: seq<Phase>)

  datatype Sighting = Sighting(fact: Fact, seeding: bool)

  /** The fact is there. */
  function Sighted(v: View, s: Sighting, now: real): View {
    var mark := if v.mark.Some? then v.mark.value.(event := s.fact.event, missing := 0.0)
                else Mark(s.fact.event, now, Silent, 0.0);
    if mark.told != Silent then View(Some(mark), v.said)
    else if s.fact.event && s.seeding then View(Some(mark.(told := History)), v.said)
    else if s.fact.event || now - mark.since >= HOLD then View(Some(mark.(told := Announced)), v.said + [Raised])
    else View(Some(mark), v.said)
  }

  function Fold(v: View, sightings: seq<Sighting>, key: string, now: real): View {
    if sightings == [] then v
    else
      var last := sightings[|sightings| - 1];
      var before := Fold(v, sightings[..|sightings| - 1], key, now);
      if last.fact.key == key then Sighted(before, last, now) else before
  }

  /** The fact is not there, and its source looked. */
  function Missed(v: View, now: real): View
    requires v.mark.Some?
  {
    var mark := v.mark.value;
    var missing := if mark.missing == 0.0 then now else mark.missing;
    if now - missing < HOLD && !mark.event then View(Some(mark.(missing := missing)), v.said)
    else View(None, if mark.told == Announced && !mark.event then v.said + [Resolved] else v.said)
  }

  function SightingsOf(facts: seq<Fact>, seeding: bool): (r: seq<Sighting>)
    ensures |r| == |facts| && forall i :: 0 <= i < |r| ==> r[i] == Sighting(facts[i], seeding)
  {
    seq(|facts|, i requires 0 <= i < |facts| => Sighting(facts[i], seeding))
  }

  function SightingsIn(report: Report, sources: set<string>): seq<Sighting> {
    if report.facts.Some? then
      var seeding := report.source !in sources;
      SightingsOf(report.facts.value, seeding)
    else []
  }

  /** All facts reported, in order; those of a source not watched before are seeding. */
  function Sightings(reports: seq<Report>, sources: set<string>): seq<Sighting> {
    if reports == [] then []
    else
      var last := reports[|reports| - 1];
      Sightings(reports[..|reports| - 1], sources) + SightingsIn(last, sources)
  }

  predicate Reported(sightings: seq<Sighting>, key: string) {
    exists i :: 0 <= i < |sightings| && sightings[i].fact.key == key
  }

  /** A source the key belongs to could not look. */
  predicate Covered(reports: seq<Report>, key: string) {
    exists i :: 0 <= i < |reports| && reports[i].facts.None? && Of(key, reports[i].source)
  }

  /** What one call does to one key, whatever else it sees. */
  function KeyStep(mark: Option<Mark>, key: string, reports: seq<Report>, sources: set<string>, now: real): View {
    var sightings := Sightings(reports, sources);
    var v := Fold(View(mark, []), sightings, key, now);
    if v.mark.Some? && !Reported(sightings, key) && !Covered(reports, key) then Missed(v, now) else v
  }

  // ---- one call ----

  /** What some entries say of a key. */
  function Said(entries: seq<Entry>, key: string): seq<Phase> {
    if entries == [] then []
    else
      var last := entries[|entries| - 1];
      Said(entries[..|entries| - 1], key) + if last.key == key then [last.phase] else []
  }

  function LastOf(log: seq<Entry>): seq<Entry> {
    if |log| <= LOG_SIZE then log else log[|log| - LOG_SIZE..]
  }

  function Looked(reports: seq<Report>): set<string> {
    set i | 0 <= i < |reports| && reports[i].facts.Some? :: reports[i].source
  }

  predicate Numbered(entries: seq<Entry>, after: nat, now: real) {
    forall i :: 0 <= i < |entries| ==> entries[i].id == after + i + 1 && entries[i].at == now.Floor
  }

  /** A call of `observe`: every key moves by its own rule, and what is said is numbered on
      from the last entry and put at the end of the log. */
  ghost predicate Step(s: State, reports: seq<Report>, now: real, s': State, told: seq<Entry>) {
    && s'.count == s.count + |told|
    && Numbered(told, s.count, now)
    && s'.log == LastOf(s.log + told)
    && s'.sources == s.sources + Looked(reports)
    && forall key ::
      View(MarkOf(s'.active, key), Said(told, key)) == KeyStep(MarkOf(s.active, key), key, reports, s.sources, now)
  }

  /** Each row is under its fact's key. */
  ghost predicate Keyed(active: map<string, Row>) { forall key :: key in active ==> active[key].fact.key == key }

  class Engine {
    var count: nat
    var active: map<string, Row>
    var log: seq<Entry>
    var sources: set<string>

    constructor ()
      ensures Valid() && Now() == FIRST
    {
      count, active, log, sources := 0, map[], [], {};
    }

    ghost predicate Valid() reads this { Keyed(active) && |log| <= LOG_SIZE }

    function Now(): State reads this { State(count, active, log, sources) }

    /** `_append`. */
    method Append(fact: Fact, phase: Phase, now: real) returns (entry: Entry)
      modifies this`count, this`log
      ensures count == old(count) + 1 && log == LastOf(old(log) + [entry])
      ensures entry.id == count && entry.at == now.Floor && entry.phase == phase && entry.key == fact.key
    {
      count := count + 1;
      entry := Entry(count, now.Floor, phase, fact.key);
      log := log + [entry];
      if |log| > LOG_SIZE {
        log := log[|log| - LOG_SIZE..];
      }
    }

    /** What holds while a call goes on that began with `s`: what was told is numbered and
        logged. */
    ghost predicate Going(s: State, told: seq<Entry>, now: real) reads this {
      && count == s.count + |told| && Numbered(told, s.count, now) && log == LastOf(s.log + told)
      && Keyed(active)
    }

    /** Tells of one fact. */
    method Tell(fact: Fact, phase: Phase, now: real, ghost s: State, told: seq<Entry>)
      returns (told': seq<Entry>, entry: Entry)
      requires Going(s, told, now)
      modifies this`count, this`log
      ensures Going(s, told', now) && told' == told + [entry]
      ensures entry.id > 0 && entry.phase == phase && entry.key == fact.key
      ensures forall key :: Said(told', key) == if key == fact.key then Said(told, key) + [phase] else Said(told, key)
    {
      entry := Append(fact, phase, now);
      told' := told + [entry];
      LastOfLast(s.log + told, entry);
      assert s.log + told + [entry] == s.log + told';
      assert told'[..|told|] == told;
    }

    /** One fact of one source. */
    method Note(fact: Fact, seeding: bool, now: real, ghost s: State, told: seq<Entry>) returns (told': seq<Entry>)
      requires Going(s, told, now)
      modifies this`count, this`active, this`log
      ensures Going(s, told', now) && active.Keys == old(active.Keys) + {fact.key}
      ensures forall key :: Seen(key, told') == Noticed(key, fact, seeding, now, old(Seen(key, told)))
    {
      told' := told;
      var row := if fact.key in active then active[fact.key].(fact := fact) else Row(fact, now, 0, 0.0);
      row := row.(missing := 0.0);
      active := active[fact.key := row];
      if row.announced != 0 {
        return;
      }
      if fact.event && seeding {
        active := active[fact.key := row.(announced := -1)];
      } else if fact.event || now - row.since >= HOLD {
        var entry;
        told', entry := Tell(row.fact, Raised, now, s, told);
        active := active[fact.key := row.(announced := entry.id)];
      }
    }

    /** What is kept of a key, and what the call has said of it. */
    ghost function Seen(key: string, told: seq<Entry>): View reads this {
      View(MarkOf(active, key), Said(told, key))
    }

    /** The facts of one source that answered. */
    method NoteAll(facts: seq<Fact>, seeding: bool, now: real, ghost s: State, told: seq<Entry>,
      ghost earlier: seq<Sighting>)
      returns (told': seq<Entry>)
      requires Going(s, told, now)
      requires forall key :: Seen(key, told) == Fold(View(MarkOf(s.active, key), []), earlier, key, now)
      requires forall key :: key in active <==> key in s.active || Reported(earlier, key)
      modifies this`count, this`active, this`log
      ensures Going(s, told', now)
      ensures forall key ::
        Seen(key, told') == Fold(View(MarkOf(s.active, key), []), earlier + SightingsOf(facts, seeding), key, now)
      ensures forall key :: key in active <==> key in s.active || Reported(earlier + SightingsOf(facts, seeding), key)
    {
      hide Sighted, MarkOf, Said, Numbered, Keyed, LastOf;
      told' := told;
      ghost var all := earlier + SightingsOf(facts, seeding);
      ghost var n := |earlier|;
      assert all[..n] == earlier;
      for i := 0 to |facts|
        invariant Going(s, told', now)
        invariant forall key :: Seen(key, told') == Fold(View(MarkOf(s.active, key), []), all[..n + i], key, now)
        invariant forall key :: key in active <==> key in s.active || Reported(all[..n + i], key)
      {
        told' := Note(facts[i], seeding, now, s, told');
        ghost var more := all[..n + i + 1];
        assert more[..n + i] == all[..n + i] && more[n + i] == Sighting(facts[i], seeding);
        forall key ensures Reported(more, key) <==> Reported(all[..n + i], key) || key == facts[i].key {
          ReportedMore(all[..n + i], more[n + i], key);
          assert more == all[..n + i] + [more[n + i]];
        }
      }
      assert all[..n + |facts|] == all;
    }

    /** One fact gone missing. */
    method Miss(key: string, now: real, ghost s: State, told: seq<Entry>) returns (told': seq<Entry>)
      requires Going(s, told, now) && key in active
      modifies this`count, this`active, this`log
      ensures Going(s, told', now) && forall k :: k in old(active) && k != key ==> k in active
      ensures Seen(key, told') == Missed(old(Seen(key, told)), now)
      ensures forall k :: k != key ==> Seen(k, told') == old(Seen(k, told))
    {
      hide Numbered;
      told' := told;
      var row := active[key];
      if row.missing == 0.0 {
        row := row.(missing := now);
      }
      if now - row.missing < HOLD && !row.fact.event {
        active := active[key := row];
        return;
      }
      active := active - {key};
      if row.announced > 0 && !row.fact.event {
        var entry;
        told', entry := Tell(row.fact, Resolved, now, s, told');
      }
    }

    /** All facts gone missing, in any order. */
    method Sweep(gone: set<string>, now: real, ghost s: State, told: seq<Entry>) returns (told': seq<Entry>)
      requires Going(s, told, now) && gone <= active.Keys && now > 0.0
      requires forall key :: key in gone ==> key in active && MarkOf(active, key).Some?
      modifies this`count, this`active, this`log
      ensures Going(s, told', now)
      ensures forall key :: key !in gone ==> Seen(key, told') == old(Seen(key, told))
      ensures forall key :: key in gone ==> Seen(key, told') == Missed(old(Seen(key, told)), now)
    {
      hide Numbered, Missed, MarkOf, Said, Keyed, LastOf;
      told' := told;
      var left := gone;
      while left != {}
        invariant Going(s, told', now) && left <= gone && left <= active.Keys
        invariant forall key :: key in left || key !in gone ==> Seen(key, told') == old(Seen(key, told))
        invariant forall key :: key in gone && key !in left ==> Seen(key, told') == Missed(old(Seen(key, told)), now)
        decreases left
      {
        var key :| key in left;
        left := left - {key};
        told' := Miss(key, now, s, told');
      }
    }

    /** `observe`. */
    method Observe(reports: seq<Report>, now: real) returns (told: seq<Entry>)
      requires DistinctSources(reports) && now > 0.0 && Valid()
      modifies this
      ensures Valid()
      ensures Step(old(Now()), reports, now, Now(), told)
    {
      hide Sighted, Missed, MarkOf, Said, Numbered, Keyed, Fold, Of, LastOf, SightingsOf, Sightings;
      hide Reported, Covered, Looked;
      ghost var s := Now();
      told := [];
      var watched, seen: set<string> := sources, {};
      Starting(s, now);
      for i := 0 to |reports|
        invariant Going(s, told, now) && sources == s.sources
        invariant watched == s.sources + Looked(reports[..i])
        invariant forall key ::
          Seen(key, told) == Fold(View(MarkOf(s.active, key), []), Sightings(reports[..i], s.sources), key, now)
        invariant forall key :: key in active <==> key in s.active || Reported(Sightings(reports[..i], s.sources), key)
        invariant forall key :: key in active ==> (key in seen <==> SeenIn(reports[..i], s.sources, key))
      {
        var report := reports[i];
        ghost var earlier := Sightings(reports[..i], s.sources);
        assert reports[..i + 1] == reports[..i] + [report];
        LookedMore(reports, i);
        SightingsMore(reports, i, s.sources);
        if report.facts.None? {
          assert earlier + [] == earlier;
          seen := seen + set key | key in active && Of(key, report.source);
          forall key | key in active ensures key in seen <==> SeenIn(reports[..i + 1], s.sources, key) {
            CoveredMore(reports[..i], report, key);
          }
        } else {
          var facts := report.facts.value;
          NotWatched(reports, i);
          told := NoteAll(facts, report.source !in watched, now, s, told, earlier);
          watched := watched + {report.source};
          seen := seen + set j | 0 <= j < |facts| :: facts[j].key;
          forall key ensures key in active ==> (key in seen <==> SeenIn(reports[..i + 1], s.sources, key)) {
            CoveredMore(reports[..i], report, key);
            ReportedFacts(earlier, facts, report.source !in s.sources, key);
          }
        }
      }
      assert reports[..|reports|] == reports;
      var gone := active.Keys - seen;
      Marked(active);
      ghost var looked, said := active, told;
      told := Sweep(gone, now, s, told);
      forall key ensures Seen(key, told) == KeyStep(MarkOf(s.active, key), key, reports, s.sources, now) {
        StepOf(MarkOf(s.active, key), MarkOf(looked, key), Said(said, key), key, reports, s.sources, now);
      }
      LastOfShort(s.log + told);
      sources := watched;
    }
  }

  lemma Marked(active: map<string, Row>)
    ensures forall key :: key in active <==> MarkOf(active, key).Some?
  {
  }

  lemma {:induction false} StepOf(mark: Option<Mark>, after: Option<Mark>, said: seq<Phase>, key: string,
    reports: seq<Report>,
    sources: set<string>, now: real)
    requires View(after, said) == Fold(View(mark, []), Sightings(reports, sources), key, now)
    ensures KeyStep(mark, key, reports, sources, now)
         == if after.Some? && !SeenIn(reports, sources, key) then Missed(View(after, said), now) else View(after, said)
  {
  }

  predicate SeenIn(reports: seq<Report>, sources: set<string>, key: string) {
    Reported(Sightings(reports, sources), key) || Covered(reports, key)
  }

  lemma ReportedMore(ss: seq<Sighting>, s: Sighting, key: string)
    ensures Reported(ss + [s], key) <==> Reported(ss, key) || s.fact.key == key
  {
    assert (ss + [s])[|ss|] == s;
    if i :| 0 <= i < |ss| && ss[i].fact.key == key { assert (ss + [s])[i] == ss[i]; }
  }

  lemma ReportedFacts(ss: seq<Sighting>, facts: seq<Fact>, seeding: bool, key: string)
    ensures Reported(ss + SightingsOf(facts, seeding), key) <==>
      Reported(ss, key) || key in set j | 0 <= j < |facts| :: facts[j].key
  {
    var all := ss + SightingsOf(facts, seeding);
    if i :| 0 <= i < |ss| && ss[i].fact.key == key { assert all[i] == ss[i]; }
    if j :| 0 <= j < |facts| && facts[j].key == key { assert all[|ss| + j].fact == facts[j]; }
    if i :| 0 <= i < |all| && all[i].fact.key == key && !Reported(ss, key) {
      assert i >= |ss| && all[i].fact == facts[i - |ss|];
    }
  }

  lemma CoveredMore(reports: seq<Report>, report: Report, key: string)
    ensures Covered(reports + [report], key) <==>
      Covered(reports, key) || (report.facts.None? && Of(key, report.source))
  {
    assert (reports + [report])[|reports|] == report;
    if i :| 0 <= i < |reports| && reports[i].facts.None? && Of(key, reports[i].source) {
      assert (reports + [report])[i] == reports[i];
    }
  }

  lemma LookedMore(reports: seq<Report>, i: nat)
    requires i < |reports|
    ensures Looked(reports[..i + 1]) == Looked(reports[..i]) +
      if reports[i].facts.Some? then {reports[i].source} else {}
  {
    var less, more := reports[..i], reports[..i + 1];
    assert more[i] == reports[i] && forall j :: 0 <= j < i ==> more[j] == less[j];
  }

  lemma NotWatched(reports: seq<Report>, i: nat)
    requires DistinctSources(reports) && i < |reports|
    ensures reports[i].source !in Looked(reports[..i])
  {
  }

  lemma {:induction false} SightingsMore(reports: seq<Report>, i: nat, sources: set<string>)
    requires i < |reports|
    ensures Sightings(reports[..i + 1], sources) == Sightings(reports[..i], sources) + SightingsIn(reports[i], sources)
  {
    assert reports[..i + 1][..i] == reports[..i];
  }

  lemma {:induction false} Starting(s: State, now: real)
    requires |s.log| <= LOG_SIZE
    ensures Numbered([], s.count, now) && LastOf(s.log + []) == s.log && Looked([]) == {} &&
      Sightings([], s.sources) == []
    ensures forall key :: Said([], key) == [] && !Covered([], key) && !Reported([], key)
    ensures forall v, key :: Fold(v, [], key, now) == v
    ensures forall key :: key in s.active <==> MarkOf(s.active, key).Some?
  {
    assert s.log + [] == s.log;
  }

  function Noticed(key: string, fact: Fact, seeding: bool, now: real, v: View): View {
    if key == fact.key then Sighted(v, Sighting(fact, seeding), now) else v
  }

  lemma LastOfShort(log: seq<Entry>)
    ensures |LastOf(log)| <= LOG_SIZE
  {
  }

  lemma LastOfLast(log: seq<Entry>, entry: Entry)
    ensures LastOf(LastOf(log) + [entry]) == LastOf(log + [entry])
  {
  }
}
