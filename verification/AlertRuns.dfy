/** What any run of the alert engine, from its first start, writes to its log. */
module AlertRuns {
  import opened Alerts
  import opened Options

  datatype Call = Call(reports: seq<Report>, now: real)

  /** Calls at times that never go back, from an empty state. */
  ghost predicate Run(states: seq<State>, calls: seq<Call>, told: seq<seq<Entry>>) {
    && |states| == |calls| + 1 && |told| == |calls| && states[0] == FIRST
    && (forall i :: 0 <= i < |calls| ==> calls[i].now > 0.0 && DistinctSources(calls[i].reports))
    && (forall i, j :: 0 <= i < j < |calls| ==> calls[i].now <= calls[j].now)
    && forall i :: 0 <= i < |calls| ==> Step(states[i], calls[i].reports, calls[i].now, states[i + 1], told[i])
  }

  /** Every fact of the key is an event, or every one a condition. */
  ghost predicate Steady(calls: seq<Call>, key: string, event: bool) {
    forall i :: 0 <= i < |calls| ==> SteadyIn(calls[i].reports, key, event)
  }

  ghost predicate SteadyIn(reports: seq<Report>, key: string, event: bool) {
    forall j, f :: 0 <= j < |reports| && reports[j].facts.Some? && f in reports[j].facts.value && f.key == key ==>
      f.event == event
  }

  /** What the calls so far wrote, all of it. */
  function History(told: seq<seq<Entry>>): seq<Entry> {
    if told == [] then [] else History(told[..|told| - 1]) + told[|told| - 1]
  }

  function AllSaid(told: seq<seq<Entry>>, key: string): seq<Phase> {
    if told == [] then [] else AllSaid(told[..|told| - 1], key) + Said(told[|told| - 1], key)
  }

  // ---- numbers and the log ----

  lemma LastOfMore(a: seq<Entry>, b: seq<Entry>)
    ensures LastOf(LastOf(a) + b) == LastOf(a + b)
  {
    if |a| > LOG_SIZE {
      assert LastOf(a) + b == (a + b)[|a| - LOG_SIZE..];
    }
  }

  /** Entries are numbered from one without a gap, and the log is the last of them. */
  lemma {:induction false} NumberedFromOne(states: seq<State>, calls: seq<Call>, told: seq<seq<Entry>>, n: nat)
    requires Run(states, calls, told) && n <= |calls|
    ensures states[n].count == |History(told[..n])|
    ensures forall i :: 0 <= i < |History(told[..n])| ==> History(told[..n])[i].id == i + 1
    ensures states[n].log == LastOf(History(told[..n]))
    ensures |states[n].log| == if states[n].count < LOG_SIZE then states[n].count else LOG_SIZE
    ensures forall i :: 0 <= i < |states[n].log| ==> states[n].log[i].id == states[n].count - |states[n].log| + i + 1
  {
    hide KeyStep, Said;
    if n > 0 {
      NumberedFromOne(states, calls, told, n - 1);
      assert told[..n][..n - 1] == told[..n - 1];
      assert Step(states[n - 1], calls[n - 1].reports, calls[n - 1].now, states[n], told[n - 1]);
      LastOfMore(History(told[..n - 1]), told[n - 1]);
    }
  }

  lemma {:induction false} HistorySays(told: seq<seq<Entry>>, key: string)
    ensures Said(History(told), key) == AllSaid(told, key)
  {
    if told != [] {
      HistorySays(told[..|told| - 1], key);
      SaidMore(History(told[..|told| - 1]), told[|told| - 1], key);
    }
  }

  lemma {:induction false} SaidMore(a: seq<Entry>, b: seq<Entry>, key: string)
    ensures Said(a + b, key) == Said(a, key) + Said(b, key)
  {
    if b == [] {
      assert a + b == a;
    } else {
      assert (a + b)[..|a + b| - 1] == a + b[..|b| - 1];
      SaidMore(a, b[..|b| - 1], key);
    }
  }

  // ---- what the sources said ----

  /** Some source's answer has a fact of the key. */
  predicate SaidNow(reports: seq<Report>, key: string) {
    exists i, j :: 0 <= i < |reports| && reports[i].facts.Some? && 0 <= j < |reports[i].facts.value|
      && reports[i].facts.value[j].key == key
  }

  lemma {:induction false} SaidIsReported(reports: seq<Report>, sources: set<string>, key: string)
    ensures Reported(Sightings(reports, sources), key) <==> SaidNow(reports, key)
  {
    if reports != [] {
      var less, last := reports[..|reports| - 1], reports[|reports| - 1];
      SaidIsReported(less, sources, key);
      SaidByLast(less, last, key);
      assert reports == less + [last];
      if last.facts.Some? {
        ReportedFacts(Sightings(less, sources), last.facts.value, last.source !in sources, key);
      } else {
        assert Sightings(less, sources) + [] == Sightings(less, sources);
      }
    }
  }

  lemma SaidByLast(less: seq<Report>, last: Report, key: string)
    ensures SaidNow(less + [last], key) <==>
      SaidNow(less, key) ||
        (last.facts.Some? && exists j :: 0 <= j < |last.facts.value| && last.facts.value[j].key == key)
  {
    var all := less + [last];
    assert all[|less|] == last;
    assert forall i :: 0 <= i < |less| ==> all[i] == less[i];
  }

  /** The key begins with the name of a source that could not look, and a colon. */
  ghost predicate FailedFor(reports: seq<Report>, key: string) {
    exists source, rest: string :: Report(source, None) in reports && key == source + ":" + rest
  }

  lemma OfMeans(key: string, source: string)
    ensures Of(key, source) <==> exists rest: string :: key == source + ":" + rest
  {
    if Of(key, source) {
      assert key == source + ":" + key[|source + ":"|..];
    }
    if rest: string :| key == source + ":" + rest {
      assert source + ":" <= key;
    }
  }

  lemma CoveredMeans(reports: seq<Report>, key: string)
    ensures Covered(reports, key) <==> FailedFor(reports, key)
  {
    hide Of;
    forall source ensures Of(key, source) <==>
      exists rest: string :: key == source + ":" + rest { OfMeans(key, source); }
    if Covered(reports, key) {
      var i :| 0 <= i < |reports| && reports[i].facts.None? && Of(key, reports[i].source);
      assert Report(reports[i].source, None) in reports;
    }
    if FailedFor(reports, key) {
      var source, rest: string :| Report(source, None) in reports && key == source + ":" + rest;
      var i :| 0 <= i < |reports| && reports[i] == Report(source, None);
    }
  }

  // ---- a condition ----

  /** The row is due to be told. */
  predicate Due(mark: Option<Mark>, now: real) {
    mark.Some? && mark.value.told == Silent && now - mark.value.since >= HOLD
  }

  function CondSeen(mark: Option<Mark>, now: real): View {
    if mark.None? then View(Some(Mark(false, now, Silent, 0.0)), [])
    else if Due(mark, now) then View(Some(mark.value.(told := Announced, missing := 0.0)), [Raised])
    else View(Some(mark.value.(missing := 0.0)), [])
  }

  predicate Condition(mark: Option<Mark>) {
    mark.Some? ==> !mark.value.event && mark.value.told != Told.History
  }

  predicate AllOf(sightings: seq<Sighting>, key: string, event: bool) {
    forall i :: 0 <= i < |sightings| && sightings[i].fact.key == key ==> sightings[i].fact.event == event
  }

  /** However often a call reports a condition, it counts once. */
  lemma {:induction false} CondFold(mark: Option<Mark>, ss: seq<Sighting>, key: string, now: real)
    requires Condition(mark) && AllOf(ss, key, false)
    ensures Fold(View(mark, []), ss, key, now) == if Reported(ss, key) then CondSeen(mark, now) else View(mark, [])
  {
    if ss != [] {
      var less, last := ss[..|ss| - 1], ss[|ss| - 1];
      CondFold(mark, less, key, now);
      ReportedMore(less, last, key);
      assert less + [last] == ss;
    }
  }

  lemma {:induction false} SteadySightings(reports: seq<Report>, sources: set<string>, key: string, event: bool)
    requires SteadyIn(reports, key, event)
    ensures AllOf(Sightings(reports, sources), key, event)
  {
    if reports != [] {
      SteadySightings(reports[..|reports| - 1], sources, key, event);
      var last := reports[|reports| - 1];
      assert last.facts.Some? ==> forall i :: 0 <= i < |last.facts.value| ==> last.facts.value[i] in last.facts.value;
    }
  }

  predicate Alternates(said: seq<Phase>) {
    forall i :: 0 <= i < |said| ==> said[i] == if i % 2 == 0 then Raised else Resolved
  }

  function At(states: seq<State>, i: nat, key: string): Option<Mark>
    requires i < |states|
  {
    MarkOf(states[i].active, key)
  }

  /** What one call does to a condition. */
  lemma {:induction false} CondStep(states: seq<State>, calls: seq<Call>, told: seq<seq<Entry>>, i: nat, key: string)
    requires Run(states, calls, told) && i < |calls| && Steady(calls, key, false) && Condition(At(states, i, key))
    ensures var now := calls[i].now;
      View(At(states, i + 1, key), Said(told[i], key)) ==
        if SaidNow(calls[i].reports, key) then CondSeen(At(states, i, key), now)
        else if At(states, i, key).Some? && !FailedFor(calls[i].reports, key) then
          Missed(View(At(states, i, key), []), now)
        else View(At(states, i, key), [])
    ensures Condition(At(states, i + 1, key))
  {
    hide Fold, Reported, Covered, AllOf, Sightings, MarkOf, Said, LastOf, Numbered, SaidNow, FailedFor;
    SaidIsReported(calls[i].reports, states[i].sources, key);
    CoveredMeans(calls[i].reports, key);
    assert Step(states[i], calls[i].reports, calls[i].now, states[i + 1], told[i]);
    SteadySightings(calls[i].reports, states[i].sources, key, false);
    CondFold(At(states, i, key), Sightings(calls[i].reports, states[i].sources), key, calls[i].now);
  }

  /** Entries of a condition alternate, beginning with raised; and it is told as raised just
      while its row says so. */
  lemma {:induction false} RaisedThenResolved(states: seq<State>, calls: seq<Call>, told: seq<seq<Entry>>, n: nat,
    key: string)
    requires Run(states, calls, told) && n <= |calls| && Steady(calls, key, false)
    ensures Condition(At(states, n, key)) && Alternates(AllSaid(told[..n], key))
    ensures |AllSaid(told[..n], key)| % 2 == 1 <==>
      At(states, n, key).Some? && At(states, n, key).value.told == Announced
  {
    hide Run, SaidNow, FailedFor, Said, MarkOf, Steady;
    Begins(states, calls, told, key);
    if n > 0 {
      RaisedThenResolved(states, calls, told, n - 1, key);
      assert told[..n][..n - 1] == told[..n - 1];
      CondStep(states, calls, told, n - 1, key);
    }
  }

  lemma Begins(states: seq<State>, calls: seq<Call>, told: seq<seq<Entry>>, key: string)
    requires Run(states, calls, told)
    ensures |states| == |calls| + 1 && |told| == |calls| && At(states, 0, key) == None
  {
  }

  /** The row of a condition began at call b, which reported it, and has been kept since. */
  ghost predicate BeganAt(states: seq<State>, calls: seq<Call>, b: nat, n: nat, key: string)
    requires n <= |calls| < |states|
  {
    && b < n && SaidNow(calls[b].reports, key) && At(states, b, key).None?
    && forall j :: b < j <= n ==> At(states, j, key).Some? && At(states, j, key).value.since == calls[b].now
  }

  lemma {:induction false} Began(states: seq<State>, calls: seq<Call>, told: seq<seq<Entry>>, n: nat, key: string)
    returns (b: nat)
    requires Run(states, calls, told) && n <= |calls| && Steady(calls, key, false)
    requires At(states, n, key).Some?
    ensures BeganAt(states, calls, b, n, key)
  {
    hide Run, SaidNow, FailedFor, Said, MarkOf, Steady, AllSaid, Alternates;
    Begins(states, calls, told, key);
    RaisedThenResolved(states, calls, told, n - 1, key);
    CondStep(states, calls, told, n - 1, key);
    if At(states, n - 1, key).Some? {
      b := Began(states, calls, told, n - 1, key);
    } else {
      b := n - 1;
    }
  }

  /** No call from b up to n reports the condition. */
  ghost predicate GoneSince(states: seq<State>, calls: seq<Call>, b: nat, n: nat, key: string)
    requires n <= |calls| < |states|
  {
    b < n && forall j :: b <= j < n ==> !SaidNow(calls[j].reports, key)
  }

  lemma {:induction false} WentMissing(states: seq<State>, calls: seq<Call>, told: seq<seq<Entry>>, n: nat, key: string)
    returns (b: nat)
    requires Run(states, calls, told) && n <= |calls| && Steady(calls, key, false)
    requires At(states, n, key).Some? && At(states, n, key).value.missing != 0.0
    ensures GoneSince(states, calls, b, n, key) && calls[b].now == At(states, n, key).value.missing
  {
    hide Run, SaidNow, FailedFor, Said, MarkOf, Steady, AllSaid, Alternates;
    Begins(states, calls, told, key);
    RaisedThenResolved(states, calls, told, n - 1, key);
    CondStep(states, calls, told, n - 1, key);
    if At(states, n - 1, key).Some? && At(states, n - 1, key).value.missing != 0.0 {
      b := WentMissing(states, calls, told, n - 1, key);
    } else {
      b := n - 1;
    }
  }

  /** A condition is raised only when it is reported and its row began, and was kept, at
      least HOLD seconds before. */
  lemma RaisedAfterHold(states: seq<State>, calls: seq<Call>, told: seq<seq<Entry>>, n: nat, key: string)
    returns (b: nat)
    requires Run(states, calls, told) && n < |calls| && Steady(calls, key, false)
    requires Raised in Said(told[n], key)
    ensures BeganAt(states, calls, b, n, key) && SaidNow(calls[n].reports, key)
    ensures calls[n].now - calls[b].now >= HOLD
  {
    hide Run, SaidNow, FailedFor, Said, MarkOf, Steady, AllSaid, Alternates;
    RaisedThenResolved(states, calls, told, n, key);
    CondStep(states, calls, told, n, key);
    b := Began(states, calls, told, n, key);
  }

  /** A condition is resolved only when no call for at least HOLD seconds reported it, and
      its source answered this one. */
  lemma ResolvedAfterHold(states: seq<State>, calls: seq<Call>, told: seq<seq<Entry>>, n: nat, key: string)
    returns (b: nat)
    requires Run(states, calls, told) && n < |calls| && Steady(calls, key, false)
    requires Resolved in Said(told[n], key)
    ensures GoneSince(states, calls, b, n + 1, key) && !FailedFor(calls[n].reports, key)
    ensures calls[n].now - calls[b].now >= HOLD
  {
    hide Run, SaidNow, FailedFor, Said, MarkOf, Steady, AllSaid, Alternates;
    RaisedThenResolved(states, calls, told, n, key);
    CondStep(states, calls, told, n, key);
    b := WentMissing(states, calls, told, n, key);
  }

  /** And both happen: a condition reported HOLD seconds after its row began has been told,
      whether by this call or before. */
  lemma ToldInTime(states: seq<State>, calls: seq<Call>, told: seq<seq<Entry>>, b: nat, n: nat, key: string)
    requires Run(states, calls, told) && n < |calls| && Steady(calls, key, false)
    requires BeganAt(states, calls, b, n, key) && SaidNow(calls[n].reports, key) && calls[n].now - calls[b].now >= HOLD
    ensures At(states, n + 1, key).Some? && At(states, n + 1, key).value.told == Announced
  {
    hide Run, SaidNow, FailedFor, Said, MarkOf, Steady, AllSaid, Alternates;
    RaisedThenResolved(states, calls, told, n, key);
    CondStep(states, calls, told, n, key);
  }

  // ---- a source that cannot look ----

  lemma {:induction false} UnreportedFold(v: View, ss: seq<Sighting>, key: string, now: real)
    requires !Reported(ss, key)
    ensures Fold(v, ss, key, now) == v
  {
    if ss != [] {
      var less, last := ss[..|ss| - 1], ss[|ss| - 1];
      ReportedMore(less, last, key);
      assert less + [last] == ss;
      UnreportedFold(v, less, key, now);
    }
  }

  /** While its source cannot look, nothing changes for a key that begins with the source's
      name and a colon, unless another source reports it; and nothing is said of it. */
  lemma {:induction false} FailedSourceSaysNothing(s: State, reports: seq<Report>, now: real, s': State,
    told: seq<Entry>, source: string, rest: string)
    requires Step(s, reports, now, s', told) && Report(source, None) in reports
    requires !SaidNow(reports, source + ":" + rest)
    ensures var key := source + ":" + rest;
      MarkOf(s'.active, key) == MarkOf(s.active, key) && Said(told, key) == []
  {
    var key := source + ":" + rest;
    SaidIsReported(reports, s.sources, key);
    CoveredMeans(reports, key);
    UnreportedFold(View(MarkOf(s.active, key), []), Sightings(reports, s.sources), key, now);
    assert View(MarkOf(s'.active, key), Said(told, key)) ==
      KeyStep(MarkOf(s.active, key), key, reports, s.sources, now);
  }

  /** A row nobody reports, of no source that could not look, counts as missing: its time of
      going is kept or set, and once it has been gone for HOLD seconds - an event at once - it
      is forgotten, and resolved if it is a condition that was told. */
  lemma {:induction false} UnreportedIsMissing(s: State, reports: seq<Report>, now: real, s': State,
    told: seq<Entry>, key: string)
    requires Step(s, reports, now, s', told) && key in s.active && !SaidNow(reports, key) && now > 0.0
    requires !FailedFor(reports, key)
    ensures var row := s.active[key];
      var gone := if row.missing == 0.0 then now else row.missing;
      if !row.fact.event && now < gone + HOLD then
        MarkOf(s'.active, key) == Some(MarkOf(s.active, key).value.(missing := gone)) && Said(told, key) == []
      else
        key !in s'.active && Said(told, key) == if row.announced > 0 && !row.fact.event then [Resolved] else []
  {
    SaidIsReported(reports, s.sources, key);
    CoveredMeans(reports, key);
    UnreportedFold(View(MarkOf(s.active, key), []), Sightings(reports, s.sources), key, now);
    assert View(MarkOf(s'.active, key), Said(told, key)) ==
      KeyStep(MarkOf(s.active, key), key, reports, s.sources, now);
    assert key in s'.active <==> MarkOf(s'.active, key).Some?;
  }

  // ---- an event ----

  predicate Event(mark: Option<Mark>) {
    mark.Some? ==> mark.value.event && mark.value.told != Silent
  }

  /** The first report of the key comes from a source watched before. */
  predicate News(ss: seq<Sighting>, key: string) {
    exists i :: 0 <= i < |ss| && ss[i].fact.key == key && !ss[i].seeding && !Reported(ss[..i], key)
  }

  lemma NewsMore(ss: seq<Sighting>, last: Sighting, key: string)
    ensures News(ss + [last], key) <==> News(ss, key) || (!Reported(ss, key) && last.fact.key == key && !last.seeding)
  {
    var all := ss + [last];
    assert all[..|ss|] == ss && all[|ss|] == last;
    assert forall i :: 0 <= i < |ss| ==> all[i] == ss[i] && all[..i] == ss[..i];
  }

  lemma {:induction false} EventFold(mark: Option<Mark>, ss: seq<Sighting>, key: string, now: real)
    requires Event(mark) && AllOf(ss, key, true)
    ensures var v := Fold(View(mark, []), ss, key, now);
      && Event(v.mark)
      && (v.mark.Some? <==> mark.Some? || Reported(ss, key))
      && v.said == if mark.None? && News(ss, key) then [Raised] else []
  {
    if ss != [] {
      var less, last := ss[..|ss| - 1], ss[|ss| - 1];
      EventFold(mark, less, key, now);
      assert less + [last] == ss;
      ReportedMore(less, last, key);
      NewsMore(less, last, key);
    }
  }

  /** The source answered some call before the n-th. */
  ghost predicate Answered(calls: seq<Call>, n: nat, source: string)
    requires n <= |calls|
  {
    exists m, i :: 0 <= m < n && 0 <= i < |calls[m].reports| && calls[m].reports[i].facts.Some?
      && calls[m].reports[i].source == source
  }

  lemma {:induction false} WatchedIs(states: seq<State>, calls: seq<Call>, told: seq<seq<Entry>>, n: nat,
    source: string)
    requires Run(states, calls, told) && n <= |calls|
    ensures source in states[n].sources <==> Answered(calls, n, source)
  {
    hide KeyStep, Said, LastOf, Numbered;
    if n > 0 {
      WatchedIs(states, calls, told, n - 1, source);
      assert Step(states[n - 1], calls[n - 1].reports, calls[n - 1].now, states[n - 1 + 1], told[n - 1]);
    }
  }

  predicate Says(report: Report, key: string) {
    report.facts.Some? && exists j :: 0 <= j < |report.facts.value| && report.facts.value[j].key == key
  }

  /** The first report that has the key is of a source among these. */
  predicate FirstBy(reports: seq<Report>, sources: set<string>, key: string) {
    exists i :: 0 <= i < |reports| && Says(reports[i], key) && reports[i].source in sources &&
      !SaidNow(reports[..i], key)
  }

  lemma FirstByMore(less: seq<Report>, last: Report, sources: set<string>, key: string)
    ensures FirstBy(less + [last], sources, key) <==>
      FirstBy(less, sources, key) || (!SaidNow(less, key) && Says(last, key) && last.source in sources)
  {
    var all := less + [last];
    assert all[..|less|] == less && all[|less|] == last;
    assert forall i :: 0 <= i < |less| ==> all[i] == less[i] && all[..i] == less[..i];
  }

  lemma {:induction false} NewsOf(ss: seq<Sighting>, facts: seq<Fact>, seeding: bool, key: string)
    ensures News(ss + SightingsOf(facts, seeding), key) <==>
      News(ss, key) || (!Reported(ss, key) && !seeding && exists j :: 0 <= j < |facts| && facts[j].key == key)
  {
    hide News, Reported;
    if facts == [] {
      assert ss + SightingsOf(facts, seeding) == ss;
    } else {
      var less, last := facts[..|facts| - 1], facts[|facts| - 1];
      NewsOf(ss, less, seeding, key);
      ReportedFacts(ss, less, seeding, key);
      NewsMore(ss + SightingsOf(less, seeding), Sighting(last, seeding), key);
      assert ss + SightingsOf(facts, seeding) == ss + SightingsOf(less, seeding) + [Sighting(last, seeding)];
      NewsReported(ss, key);
      assert forall j :: 0 <= j < |less| ==> facts[j] == less[j];
    }
  }

  lemma {:induction false} NewsIsFirst(reports: seq<Report>, sources: set<string>, key: string)
    ensures News(Sightings(reports, sources), key) <==> FirstBy(reports, sources, key)
  {
    hide News, Reported, FirstBy, SaidNow, SightingsOf;
    if reports == [] {
      NoNews(sources, key);
    } else {
      var less, last := reports[..|reports| - 1], reports[|reports| - 1];
      NewsIsFirst(less, sources, key);
      SaidIsReported(less, sources, key);
      assert reports == less + [last];
      FirstByMore(less, last, sources, key);
      if last.facts.Some? {
        NewsOf(Sightings(less, sources), last.facts.value, last.source !in sources, key);
      } else {
        assert Sightings(less, sources) + [] == Sightings(less, sources);
      }
    }
  }

  lemma {:induction false} NoNews(sources: set<string>, key: string)
    ensures Sightings([], sources) == [] && !News([], key) && !FirstBy([], sources, key)
  {
  }

  /** The key's first report in call n is of a source that answered an earlier call. */
  ghost predicate IsNews(calls: seq<Call>, n: nat, key: string)
    requires n < |calls|
  {
    exists i :: 0 <= i < |calls[n].reports| && Says(calls[n].reports[i], key)
      && Answered(calls, n, calls[n].reports[i].source) && !SaidNow(calls[n].reports[..i], key)
  }

  lemma NewsIs(states: seq<State>, calls: seq<Call>, told: seq<seq<Entry>>, n: nat, key: string)
    requires Run(states, calls, told) && n < |calls|
    ensures News(Sightings(calls[n].reports, states[n].sources), key) <==> IsNews(calls, n, key)
  {
    var reports, sources := calls[n].reports, states[n].sources;
    NewsIsFirst(reports, sources, key);
    forall source ensures source in sources <==>
      Answered(calls, n, source) { WatchedIs(states, calls, told, n, source); }
    hide Run, Answered, Says, SaidNow, News;
  }

  /** An event is told once, as soon as it is seen, unless its source has never answered
      before: then it is history. It is never resolved, and is forgotten as soon as it is gone
      and its source looked. */
  lemma {:induction false} EventsToldOnce(states: seq<State>, calls: seq<Call>, told: seq<seq<Entry>>, n: nat,
    key: string)
    requires Run(states, calls, told) && n < |calls| && Steady(calls, key, true)
    ensures Event(At(states, n, key)) && Event(At(states, n + 1, key))
    ensures Said(told[n], key) == if At(states, n, key).None? && IsNews(calls, n, key) then [Raised] else []
    ensures At(states, n + 1, key).Some? <==>
      SaidNow(calls[n].reports, key) || (At(states, n, key).Some? && FailedFor(calls[n].reports, key))
    decreases n
  {
    hide Fold, Reported, Covered, AllOf, Sightings, MarkOf, Said, LastOf, Numbered, News, IsNews, SaidNow, FailedFor;
    if n == 0 {
      Begins(states, calls, told, key);
    } else {
      EventsToldOnce(states, calls, told, n - 1, key);
    }
    var ss := Sightings(calls[n].reports, states[n].sources);
    assert Step(states[n], calls[n].reports, calls[n].now, states[n + 1], told[n]);
    SteadySightings(calls[n].reports, states[n].sources, key, true);
    EventFold(At(states, n, key), ss, key, calls[n].now);
    NewsReported(ss, key);
    NewsIs(states, calls, told, n, key);
    SaidIsReported(calls[n].reports, states[n].sources, key);
    CoveredMeans(calls[n].reports, key);
  }

  lemma NewsReported(ss: seq<Sighting>, key: string)
    ensures News(ss, key) ==> Reported(ss, key)
  {
  }
}
