/** The address record, changed by any number of writers at once: each reads it, changes what
    it read, and writes it back if nobody wrote in between. */
module AddressRecord {
  import opened Options
  import opened Subnets

  const ATTEMPTS: nat := 4

  datatype Record = Record(subnets: seq<Subnet>, notes: map<nat, string>)

  const EMPTY := Record([], map[])

  /** What a caller of `update` does to the record. */
  datatype Change =
    | Save(subnets: seq<Subnet>)
    | Cover(nets: seq<Subnet>)
    | Note(address: nat, text: string)
    | Forget(addresses: set<nat>)

  function Changed(change: Change, r: Record): Record {
    match change
    case Save(subnets) => r.(subnets := subnets)
    case Cover(nets) => r.(subnets := Covered(r.subnets, r.subnets, nets))
    case Note(address, text) => r.(notes := r.notes[address := text])
    case Forget(addresses) => r.(notes := r.notes - addresses)
  }

  /** What a change makes of a record, told by what stays and what goes. */
  ghost predicate Makes(change: Change, before: Record, after: Record) {
    match change
    case Save(subnets) => after.subnets == subnets && after.notes == before.notes
    case Cover(nets) =>
      && before.subnets <= after.subnets && after.notes == before.notes
      && (forall i :: |before.subnets| <= i < |after.subnets| ==>
            after.subnets[i] in nets && forall s :: s in before.subnets ==> Apart(after.subnets[i], s))
      && forall net :: net in nets && (forall s :: s in before.subnets ==> Apart(net, s)) ==> net in after.subnets
    case Note(address, text) =>
      && after.subnets == before.subnets && address in after.notes && after.notes[address] == text
      && forall a :: a != address ==> SameNote(a, before.notes, after.notes)
    case Forget(addresses) =>
      && after.subnets == before.subnets && after.notes.Keys !! addresses
      && forall a :: a !in addresses ==> SameNote(a, before.notes, after.notes)
  }

  /** One of them ends before the other begins. */
  predicate Apart(a: Subnet, b: Subnet) { a.base + a.size <= b.base || b.base + b.size <= a.base }

  predicate SameNote(a: nat, before: map<nat, string>, after: map<nat, string>) {
    (a in after <==> a in before) && (a in after ==> after[a] == before[a])
  }

  lemma ChangeMakes(change: Change, r: Record)
    ensures Makes(change, r, Changed(change, r))
  {
    match change
    case Cover(nets) =>
      CoveredGrows(r.subnets, r.subnets, nets);
      forall net ensures Clear(net, r.subnets) <==> forall s :: s in r.subnets ==> Apart(net, s) {
        ClearIsApart(net, r.subnets);
      }
    case _ =>
  }

  lemma ClearIsApart(net: Subnet, have: seq<Subnet>)
    ensures Clear(net, have) <==> forall s :: s in have ==> Apart(net, s)
  {
    assert forall i :: 0 <= i < |have| ==> have[i] in have;
    if Clear(net, have) {
      forall s | s in have ensures Apart(net, s) {
        var i :| 0 <= i < |have| && have[i] == s;
      }
    }
  }

  lemma {:induction false} CoveredGrows(subnets: seq<Subnet>, have: seq<Subnet>, nets: seq<Subnet>)
    ensures var all := Covered(subnets, have, nets);
      && subnets <= all
      && (forall i :: |subnets| <= i < |all| ==> all[i] in nets && Clear(all[i], have))
      && forall net :: net in nets && Clear(net, have) ==> net in all
  {
    hide Clear;
    if nets != [] {
      var less, last := nets[..|nets| - 1], nets[|nets| - 1];
      CoveredGrows(subnets, have, less);
      assert nets == less + [last];
    }
  }

  /** What `save_subnets` and `_cover_nodes` check before they call `update`. */
  ghost predicate Checked(change: Change) {
    && (change.Save? ==> Disjoint(change.subnets) && forall s :: s in change.subnets ==> Sound(s))
    && (change.Cover? ==> NodeNets(change.nets))
  }

  ghost predicate Good(r: Record) { Disjoint(r.subnets) && forall s :: s in r.subnets ==> Sound(s) }

  lemma ChangeKeepsGood(change: Change, r: Record)
    requires Checked(change) && Good(r)
    ensures Good(Changed(change, r))
  {
    hide Sound, Disjoint, NodeNets;
    if change.Cover? {
      CoveredIs(r.subnets, change.nets);
      CoveredSound(r.subnets, change.nets);
    }
  }

  // ---- all writers ----

  /** A version read, zero before the record exists, and what it held. */
  datatype Flight = Flight(seen: nat, read: Record)

  /** Where one call of `update` is: before a read, after one, or over. `Failed` got an error
      that does not say whether the write landed; one still on its way can land later. */
  datatype Writer =
    | Reading(attempt: nat)
    | Writing(attempt: nat, flight: Flight)
    | Succeeded
    | Failed(late: Option<Flight>)
    | GaveUp

  /** One write that landed. */
  datatype Landed = Landed(author: nat, made: Record)

  /** The versions of the record, oldest first, and every writer with its change. */
  datatype World = World(versions: seq<Landed>, writers: map<nat, Writer>, changes: map<nat, Change>)

  function Latest(w: World): Record { if w.versions == [] then EMPTY else w.versions[|w.versions| - 1].made }

  datatype Step =
    | Begins(who: nat, change: Change)
    | Reads(who: nat)
    | Writes(who: nat, replied: bool)
    | Breaks(who: nat)
    | LandsLate(who: nat)

  ghost predicate Can(w: World, step: Step) {
    match step
    case Begins(who, change) => who !in w.writers && Checked(change)
    case Reads(who) => who in w.writers && w.writers[who].Reading?
    case Writes(who, _) => who in w.writers && who in w.changes && w.writers[who].Writing?
    case Breaks(who) => who in w.writers && (w.writers[who].Reading? || w.writers[who].Writing?)
    case LandsLate(who) => who in w.writers && who in w.changes && w.writers[who].Failed? && w.writers[who].late.Some?
  }

  /** The write of a writer that read `flight`. */
  function Written(w: World, who: nat, flight: Flight): seq<Landed>
    requires who in w.changes
  {
    w.versions + [Landed(who, Changed(w.changes[who], flight.read))]
  }

  /** A write lands exactly when the version it was made from is still the latest; a refused
      one is tried again from a new read, four times in all. */
  function Does(w: World, step: Step): World
    requires Can(w, step)
  {
    match step
    case Begins(who, change) => w.(writers := w.writers[who := Reading(1)], changes := w.changes[who := change])
    case Reads(who) => w.(writers := w.writers[who := Writing(w.writers[who].attempt, Flight(|w.versions|, Latest(w)))])
    case Breaks(who) =>
      w.(writers := w.writers[who := Failed(if w.writers[who].Writing? then Some(w.writers[who].flight) else None)])
    case Writes(who, replied) =>
      var writer := w.writers[who];
      if writer.flight.seen == |w.versions| then
        World(Written(w, who, writer.flight), w.writers[who := if replied then Succeeded else Failed(None)], w.changes)
      else if writer.attempt < ATTEMPTS then w.(writers := w.writers[who := Reading(writer.attempt + 1)])
      else w.(writers := w.writers[who := GaveUp])
    case LandsLate(who) =>
      var flight, over := w.writers[who].late.value, w.writers[who := Failed(None)];
      if flight.seen == |w.versions| then World(Written(w, who, flight), over, w.changes)
      else w.(writers := over)
  }

  /** The step adds a version. */
  ghost predicate Lands(w: World, step: Step)
    requires Can(w, step)
  {
    || (step.Writes? && w.writers[step.who].flight.seen == |w.versions|)
    || (step.LandsLate? && w.writers[step.who].late.value.seen == |w.versions|)
  }

  ghost predicate Run(worlds: seq<World>, steps: seq<Step>) {
    && |worlds| == |steps| + 1
    && worlds[0] == World([], map[], map[])
    && forall i :: 0 <= i < |steps| ==> Can(worlds[i], steps[i]) && worlds[i + 1] == Does(worlds[i], steps[i])
  }

  /** The record before version i. */
  function Preceding(w: World, i: nat): Record
    requires i < |w.versions|
  {
    if i == 0 then EMPTY else w.versions[i - 1].made
  }

  predicate Holds(w: World, who: nat) { exists i :: 0 <= i < |w.versions| && w.versions[i].author == who }

  /** Version i is its writer's change made to the version just before it. */
  ghost predicate Serial(w: World, i: nat)
    requires i < |w.versions|
  {
    && w.versions[i].author in w.changes && Checked(w.changes[w.versions[i].author])
    && w.versions[i].made == Changed(w.changes[w.versions[i].author], Preceding(w, i))
  }

  ghost predicate Inv(w: World) {
    && w.changes.Keys == w.writers.Keys
    && (forall who :: who in w.changes ==> Checked(w.changes[who]))
    && (forall i :: 0 <= i < |w.versions| ==> Serial(w, i))
    && (forall i, j :: 0 <= i < j < |w.versions| ==> w.versions[i].author != w.versions[j].author)
    && (forall who :: who in w.writers ==> Fits(w, who, w.writers[who]))
  }

  predicate Fits(w: World, who: nat, writer: Writer) {
    match writer
    case Reading(attempt) => 1 <= attempt <= ATTEMPTS && !Holds(w, who)
    case Writing(attempt, flight) => 1 <= attempt <= ATTEMPTS && !Holds(w, who) && True(w, flight)
    case Succeeded => Holds(w, who)
    case Failed(late) => late.Some? ==> !Holds(w, who) && True(w, late.value)
    case GaveUp => !Holds(w, who)
  }

  /** What was read is what that version holds. */
  predicate True(w: World, flight: Flight) {
    flight.seen <= |w.versions| && flight.read == if flight.seen == 0 then EMPTY else w.versions[flight.seen - 1].made
  }

  lemma StepInv(w: World, step: Step)
    requires Inv(w) && Can(w, step)
    ensures Inv(Does(w, step))
  {
    hide *;
    if Lands(w, step) { LandsInv(w, step); } else { StaysInv(w, step); }
  }

  lemma StaysInv(w: World, step: Step)
    requires Inv(w) && Can(w, step) && !Lands(w, step)
    ensures Inv(Does(w, step))
  {
    hide Changed;
    var w' := Does(w, step);
    assert w'.versions == w.versions;
    assert forall who :: Holds(w', who) == Holds(w, who);
    forall i | 0 <= i < |w'.versions| ensures Serial(w', i) { assert Serial(w, i); }
    Unheld(w);
    forall who | who in w'.writers ensures Fits(w', who, w'.writers[who]) {
      if who in w.writers { assert Fits(w, who, w.writers[who]); }
    }
  }

  lemma Unheld(w: World)
    requires Inv(w)
    ensures forall who :: who !in w.writers ==> !Holds(w, who)
  {
    hide Fits, Changed, Checked;
    forall who | Holds(w, who) ensures who in w.writers {
      var i :| 0 <= i < |w.versions| && w.versions[i].author == who;
      assert Serial(w, i);
      assert who in w.changes.Keys;
    }
  }

  lemma LandsInv(w: World, step: Step)
    requires Inv(w) && Can(w, step) && Lands(w, step)
    ensures Inv(Does(w, step))
  {
    hide Checked, Changed;
    var w', n := Does(w, step), |w.versions|;
    assert Fits(w, step.who, w.writers[step.who]);
    assert forall i :: 0 <= i < n ==> w'.versions[i] == w.versions[i];
    assert w'.versions[n].author == step.who;
    forall i | 0 <= i < |w'.versions| ensures Serial(w', i) {
      if i < n { assert Serial(w, i); }
    }
    forall who ensures Holds(w', who) == (Holds(w, who) || who == step.who) {
      if i :| 0 <= i < n && w.versions[i].author == who { assert w'.versions[i].author == who; }
    }
    forall who | who in w'.writers ensures Fits(w', who, w'.writers[who]) {
      assert Fits(w, who, w.writers[who]);
    }
  }

  lemma {:induction false} RunInv(worlds: seq<World>, steps: seq<Step>, n: nat)
    requires Run(worlds, steps) && n <= |steps|
    ensures n < |worlds| && Inv(worlds[n])
  {
    hide Inv, Does, Can;
    if n == 0 {
      EmptyInv();
    } else {
      RunInv(worlds, steps, n - 1);
      StepInv(worlds[n - 1], steps[n - 1]);
    }
  }

  lemma EmptyInv()
    ensures Inv(World([], map[], map[]))
  {
  }

  /** Writers serialise: each version is one writer's change to the version just before. */
  lemma Serialises(worlds: seq<World>, steps: seq<Step>, n: nat, i: nat)
    requires Run(worlds, steps) && n <= |steps| && i < |worlds[n].versions|
    ensures Serial(worlds[n], i)
  {
    RunInv(worlds, steps, n);
  }

  /** And makes of it what such a change is to make. */
  lemma VersionSays(worlds: seq<World>, steps: seq<Step>, n: nat, i: nat)
    requires Run(worlds, steps) && n <= |steps| && i < |worlds[n].versions|
    ensures var w := worlds[n];
      && w.versions[i].author in w.changes
      && Makes(w.changes[w.versions[i].author], Preceding(w, i), w.versions[i].made)
  {
    hide Makes, Changed;
    Serialises(worlds, steps, n, i);
    ChangeMakes(worlds[n].changes[worlds[n].versions[i].author], Preceding(worlds[n], i));
  }

  predicate StepOf(step: Step, who: nat) { step.who == who }

  /** Writer `who` reads in step n and writes in step m, with no step of its own in between. */
  predicate ReadsThenWrites(steps: seq<Step>, n: nat, m: nat, who: nat) {
    && n < m < |steps| && steps[n] == Reads(who) && steps[m] == Writes(who, true)
    && forall l :: n < l < m ==> !StepOf(steps[l], who)
  }

  lemma {:induction false} WriterWaits(worlds: seq<World>, steps: seq<Step>, n: nat, m: nat, who: nat)
    requires Run(worlds, steps) && n < m <= |steps| && (forall l :: n < l < m ==> !StepOf(steps[l], who))
    requires who in worlds[n + 1].writers
    ensures who in worlds[m].writers && worlds[m].writers[who] == worlds[n + 1].writers[who]
    ensures who in worlds[n + 1].changes ==>
      who in worlds[m].changes && worlds[m].changes[who] == worlds[n + 1].changes[who]
    decreases m
  {
    hide Can, Does;
    if n + 1 < m {
      WriterWaits(worlds, steps, n, m - 1, who);
      assert worlds[m - 1 + 1] == Does(worlds[m - 1], steps[m - 1]) && Can(worlds[m - 1], steps[m - 1]);
      OtherStays(worlds[m - 1], steps[m - 1], who);
    }
  }

  lemma OtherStays(w: World, step: Step, who: nat)
    requires Can(w, step) && step.who != who && who in w.writers
    ensures var w' := Does(w, step);
      && who in w'.writers && w'.writers[who] == w.writers[who]
      && (who in w.changes ==> who in w'.changes && w'.changes[who] == w.changes[who])
  {
    hide Changed, Checked;
  }

  /** A write that nobody got ahead of lands: the version is added, with its change made to the
      version read, and `update` returns. */
  lemma UndisturbedLands(worlds: seq<World>, steps: seq<Step>, n: nat, m: nat, who: nat)
    requires Run(worlds, steps) && ReadsThenWrites(steps, n, m, who) && worlds[m].versions == worlds[n].versions
    ensures who in worlds[m].changes && who in worlds[m + 1].writers && worlds[m + 1].writers[who].Succeeded?
    ensures |worlds[m + 1].versions| == |worlds[m].versions| + 1 && worlds[m].versions <= worlds[m + 1].versions
    ensures var last := worlds[m + 1].versions[|worlds[m].versions|];
      last.author == who && Makes(worlds[m].changes[who], Latest(worlds[m]), last.made)
  {
    hide Makes, Changed, Checked;
    assert worlds[n + 1] == Does(worlds[n], steps[n]) && worlds[m + 1] == Does(worlds[m], steps[m]);
    assert Can(worlds[n], steps[n]) && Can(worlds[m], steps[m]);
    WriterWaits(worlds, steps, n, m, who);
    ChangeMakes(worlds[m].changes[who], Latest(worlds[m]));
  }

  /** A change lands once when `update` returned, never while it tries or once it gave up, and
      never twice. */
  lemma LandsOnce(worlds: seq<World>, steps: seq<Step>, n: nat, who: nat)
    requires Run(worlds, steps) && n <= |steps| && who in worlds[n].writers
    ensures worlds[n].writers[who].Succeeded? ==> Holds(worlds[n], who)
    ensures !worlds[n].writers[who].Succeeded? && !worlds[n].writers[who].Failed? ==> !Holds(worlds[n], who)
    ensures forall i, j :: 0 <= i < j < |worlds[n].versions| ==>
      !(worlds[n].versions[i].author == who && worlds[n].versions[j].author == who)
  {
    RunInv(worlds, steps, n);
    assert Fits(worlds[n], who, worlds[n].writers[who]);
  }

  /** No version that landed is ever lost or changed. */
  lemma {:induction false} NothingOverwritten(worlds: seq<World>, steps: seq<Step>, m: nat, n: nat)
    requires Run(worlds, steps) && m <= n <= |steps|
    ensures worlds[m].versions <= worlds[n].versions
  {
    if m < n { NothingOverwritten(worlds, steps, m, n - 1); }
  }

  /** How often the writer has written before state n. */
  function WritesBy(steps: seq<Step>, who: nat, n: nat): nat
    requires n <= |steps|
  {
    if n == 0 then 0
    else WritesBy(steps, who, n - 1) + if steps[n - 1].Writes? && steps[n - 1].who == who then 1 else 0
  }

  /** Each write that was refused is one attempt, and the fourth is the last. */
  lemma {:induction false} FourAttempts(worlds: seq<World>, steps: seq<Step>, n: nat, who: nat)
    requires Run(worlds, steps) && n <= |steps|
    ensures n < |worlds| && (who !in worlds[n].writers ==> WritesBy(steps, who, n) == 0)
    ensures who in worlds[n].writers ==>
      match worlds[n].writers[who]
      case Reading(attempt) => attempt == WritesBy(steps, who, n) + 1 <= 4
      case Writing(attempt, _) => attempt == WritesBy(steps, who, n) + 1 <= 4
      case GaveUp => WritesBy(steps, who, n) == 4
      case _ => WritesBy(steps, who, n) <= 4
  {
    hide Changed, Checked;
    if n > 0 {
      FourAttempts(worlds, steps, n - 1, who);
      assert Can(worlds[n - 1], steps[n - 1]) && worlds[n - 1 + 1] == Does(worlds[n - 1], steps[n - 1]);
    }
  }

  /** A refused write means another one landed since the read. */
  lemma RefusedMeansProgress(worlds: seq<World>, steps: seq<Step>, n: nat, who: nat)
    requires Run(worlds, steps) && n <= |steps| && who in worlds[n].writers && worlds[n].writers[who].Writing?
    requires worlds[n].writers[who].flight.seen != |worlds[n].versions|
    ensures worlds[n].writers[who].flight.seen < |worlds[n].versions|
  {
    RunInv(worlds, steps, n);
    assert Fits(worlds[n], who, worlds[n].writers[who]);
  }

  /** In every version the subnets are sound and pairwise apart, whoever wrote it. */
  lemma {:induction false} AlwaysGood(worlds: seq<World>, steps: seq<Step>, n: nat, i: nat)
    requires Run(worlds, steps) && n <= |steps| && i < |worlds[n].versions|
    ensures Good(worlds[n].versions[i].made)
  {
    hide Good, Checked, Changed;
    Serialises(worlds, steps, n, i);
    if i > 0 { AlwaysGood(worlds, steps, n, i - 1); } else { EmptyGood(); }
    var v := worlds[n].versions[i];
    ChangeKeepsGood(worlds[n].changes[v.author], Preceding(worlds[n], i));
  }

  lemma EmptyGood()
    ensures Good(EMPTY)
  {
  }

  /** The addresses offered as free never clash: of one version, none is free in two subnets. */
  lemma OfferedOnce(worlds: seq<World>, steps: seq<Step>, n: nat, v: nat, used: set<nat>, pools: seq<Pool>, i: nat,
    j: nat, a: nat)
    requires Run(worlds, steps) && n <= |steps| && v < |worlds[n].versions|
    requires i < j < |worlds[n].versions[v].made.subnets|
    ensures var subnets := worlds[n].versions[v].made.subnets;
      !(a in FreeList(subnets[i], used, pools) && a in FreeList(subnets[j], used, pools))
  {
    hide FreeList, Sound;
    AlwaysGood(worlds, steps, n, v);
    FreeOnce(worlds[n].versions[v].made.subnets, used, pools, i, j, a);
  }

  // ---- one writer among others ----

  datatype Result = Returned | Raised

  /** The record as one call of `update` meets it. */
  class Kept {
    var versions: seq<Record>

    constructor ()
      ensures versions == []
    {
      versions := [];
    }

    /** Other writers' versions, any number of them. */
    method Others()
      modifies this
      ensures old(versions) <= versions
    {
      var n: nat :| true;
      for i := 0 to n
        invariant old(versions) <= versions
      {
        var r: Record := *;
        versions := versions + [r];
      }
    }

    function Last(): Record reads this { if versions == [] then EMPTY else versions[|versions| - 1] }

    /** `update`: reads, changes and writes until no other write came in between; it gives up
        only after as many versions by others as it has attempts. */
    method Update(change: Change) returns (result: Result, ghost at: nat)
      modifies this
      ensures old(versions) <= versions
      ensures result == Raised ==> |versions| >= |old(versions)| + ATTEMPTS
      ensures result == Returned ==> |old(versions)| <= at < |versions|
      ensures result == Returned ==> versions[at] == Changed(change, if at == 0 then EMPTY else versions[at - 1])
      ensures result == Returned ==> Makes(change, if at == 0 then EMPTY else versions[at - 1], versions[at])
    {
      hide Makes, Changed;
      for attempt := 0 to ATTEMPTS
        invariant old(versions) <= versions && |versions| >= |old(versions)| + attempt
      {
        Others();
        var data, seen := Last(), |versions|;
        var made := Changed(change, data);
        Others();
        if |versions| == seen {
          at := seen;
          ChangeMakes(change, data);
          versions := versions + [made];
          return Returned, at;
        }
      }
      return Raised, 0;
    }
  }
}
