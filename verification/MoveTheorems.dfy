/** What a move promises, over every run. */
module MoveTheorems {
  import opened Options
  import opened MoveSource
  import opened MoveProtocol
  import opened MoveSafety
  import MoveTicks
  import MovePeople

  // ------------------------------------------------------------- nothing is lost

  ghost predicate SourceHas(k: Setup, w: World) {
    w.src.present && w.src.volumes && forall i :: 0 <= i < |k.claims| ==> k.claims[i] in w.src.data
  }

  /** The workload is here, and each claim is filled with what the source's claim holds
      (or held, when it was removed). */
  ghost predicate DestinationHas(k: Setup, w: World) {
    Own(k, w, Workload) && forall i :: 0 <= i < |k.claims| ==>
      Restored(k, w, k.claims[i]) && HoldsSource(w, k.claims[i])
  }

  /** The claim here was made from a backup of what the source's claim holds. */
  ghost predicate HoldsSource(w: World, c: Name) {
    Pvc(c) in w.dest && w.dest[Pvc(c)].body.Volume? && c in w.src.data &&
    w.dest[Pvc(c)].body.backup in w.bucket && w.bucket[w.dest[Pvc(c)].body.backup] == w.src.data[c]
  }

  lemma NeverLost(k: Setup, ws: seq<World>, acts: seq<Step>, i: nat)
    requires Run(k, ws, acts) && i < |ws|
    ensures SourceHas(k, ws[i]) || DestinationHas(k, ws[i])
  {
    MovePeople.RunInv(k, ws, acts, i);
    var w := ws[i];
    if !SourceHas(k, w) {
      forall j | 0 <= j < |k.claims|
        ensures Restored(k, w, k.claims[j]) && HoldsSource(w, k.claims[j])
      {
        ClaimHoldsSource(k, w, k.claims[j]);
      }
    }
  }

  lemma ClaimHoldsSource(k: Setup, w: World, c: Name)
    requires Inv(k, w) && !w.released && Own(k, w, Pvc(c))
    ensures HoldsSource(w, c)
  {
    assert OwnOk(k, w, Pvc(c));
  }

  /** The source is only ever removed once the copy is complete, and never after a release. */
  lemma RemovedOnlyWhenCopied(k: Setup, ws: seq<World>, acts: seq<Step>, i: nat, t: nat, volumes: bool)
    requires Run(k, ws, acts) && i < |acts| && acts[i] == Person(Removes(t, volumes))
    ensures DestinationHas(k, ws[i]) && !ws[i].released && ws[i].src.pods == 0
    ensures Stopped(RunStateOf(k.spec)) || Asked(k, ws[i])
  {
    MovePeople.RunInv(k, ws, acts, i);
    var w := ws[i];
    assert ThreadOk(k, w, w.people[t]);
    forall j | 0 <= j < |k.claims|
      ensures Restored(k, w, k.claims[j]) && HoldsSource(w, k.claims[j])
    {
      ClaimHoldsSource(k, w, k.claims[j]);
    }
  }

  // ------------------------------------------------------------- one at a time

  /** Without a put-back, whatever the engine, its crashes and its retries do: the copy is
      asked to run only while the source is asked not to and remembers how it ran, and it
      is asked to run as the source did. */
  lemma AskedOnlyWhileStopped(k: Setup, ws: seq<World>, acts: seq<Step>, i: nat, lost: bool)
    requires Run(k, ws, acts) && i < |acts| && acts[i] == Ticks(CallsStart(lost))
    requires ws[i + 1].dest != ws[i].dest && !ws[i].released
    ensures ws[i].src.present && Stopped(RunStateOf(ws[i].src.spec)) && ws[i].src.pods == 0
    ensures ws[i].src.origin == Some(RunStateOf(k.spec))
    ensures ws[i].tick.m.origin == RunStateOf(k.spec)
  {
    hide Inv, Run, ValidSetup, Stopped, RunStateOf, CanStart, TickStarts;
    MovePeople.RunStep(k, ws, acts, i);
    AskedWhileStopped(k, ws[i], lost);
  }

  lemma AskedWhileStopped(k: Setup, w: World, lost: bool)
    requires Inv(k, w) && CanStart(w, lost) && !w.released
    ensures w.src.present && Stopped(RunStateOf(w.src.spec)) && w.src.pods == 0
    ensures w.src.origin == Some(RunStateOf(k.spec)) && w.tick.m.origin == RunStateOf(k.spec)
  {
    assert SourceOk(k, w.src, w.bucket) && TickOk(k, w) && LandedOk(k, w);
    hide Inv, StoredOk, PeopleOk, DestOk, BackupsAtRest;
  }

  /** And in every state of such a run: a copy that was asked to run has a source that is
      stopped or gone. */
  lemma NeverBoth(k: Setup, ws: seq<World>, acts: seq<Step>, i: nat)
    requires Run(k, ws, acts) && i < |ws| && !ws[i].released
    requires Own(k, ws[i], Workload) && ws[i].dest[Workload].body.Shape? && ws[i].dest[Workload].body.asked
    ensures ws[i].src.origin == Some(RunStateOf(k.spec)) && Stopped(RunStateOf(ws[i].src.spec))
  {
    MovePeople.RunInv(k, ws, acts, i);
    assert OwnOk(k, ws[i], Workload);
  }

  /** The copy that was asked to run does run, and as the source did, exactly when the source
      is not a VM recorded by its older flag: such a copy stays halted. */
  lemma CopyRunsAsBefore(k: Setup, ws: seq<World>, acts: seq<Step>, i: nat)
    requires Run(k, ws, acts) && i < |ws| && Own(k, ws[i], Workload)
    requires ws[i].dest[Workload].body.Shape? && ws[i].dest[Workload].body.asked
    ensures var spec := ws[i].dest[Workload].body.spec;
      && Runs(k.spec)
      && (RunStateOf(spec) == RunStateOf(k.spec) <==> !(k.spec.Vm? && k.spec.strategy.None?))
      && (Runs(spec) <==> k.spec != Vm(None, Some(true)))
  {
    hide Inv, ValidSetup, Run;
    MovePeople.RunInv(k, ws, acts, i);
    CopyIs(k, ws[i]);
    StoppedIs(k.spec);
    StoppedIs(ws[i].dest[Workload].body.spec);
  }

  /** A move that landed, and that nobody put back, has its copy asked to run exactly if the
      source ran. */
  lemma LandedRuns(k: Setup, ws: seq<World>, acts: seq<Step>, i: nat)
    requires Run(k, ws, acts) && i < |ws| && ws[i].landed && !ws[i].released
    ensures Workload in ws[i].dest && Workload !in k.before && ws[i].dest[Workload].body.Shape?
    ensures ws[i].dest[Workload].body.asked <==> Runs(k.spec)
  {
    hide Inv, ValidSetup, Run;
    MovePeople.RunInv(k, ws, acts, i);
    StoppedIs(k.spec);
    LandedIs(k, ws[i]);
    CopyIs(k, ws[i]);
  }

  lemma LandedIs(k: Setup, w: World)
    requires Inv(k, w) && w.landed && !w.released
    ensures Own(k, w, Workload) && (Stopped(RunStateOf(k.spec)) || Asked(k, w))
  {
    hide SourceOk, DestOk, TickOk, StoredOk, PeopleOk;
  }

  lemma CopyIs(k: Setup, w: World)
    requires Inv(k, w) && Own(k, w, Workload)
    ensures CopyOk(k, w.dest[Workload].body)
  {
    hide SourceOk, TickOk, StoredOk, PeopleOk, LandedOk, CopyOk;
    assert OwnOk(k, w, Workload);
  }

  /** Every claim made here is of a backup taken with no pod left, and the source has not
      run since: its data is the source's data at rest. */
  lemma CopiedAtRest(k: Setup, ws: seq<World>, acts: seq<Step>, i: nat, c: Name)
    requires Run(k, ws, acts) && i < |ws| && !ws[i].released && Own(k, ws[i], Pvc(c))
    ensures c in k.claims && HoldsSource(ws[i], c)
    ensures ws[i].src.pods == 0 && Stopped(RunStateOf(ws[i].src.spec))
  {
    MovePeople.RunInv(k, ws, acts, i);
    assert OwnOk(k, ws[i], Pvc(c));
  }

  lemma BackedUpAtRest(k: Setup, ws: seq<World>, acts: seq<Step>, i: nat, made: map<Name, nat>, lost: bool)
    requires Run(k, ws, acts) && i < |acts| && acts[i] == Ticks(CallsBackup(made, lost)) && made != map[]
    ensures ws[i].src.pods == 0 && Stopped(RunStateOf(ws[i].src.spec))
    ensures forall c :: c in made ==>
      c in ws[i].src.data && made[c] in ws[i + 1].bucket && ws[i + 1].bucket[made[c]] == ws[i].src.data[c]
  {
    hide Inv, Run, ValidSetup, Stopped, RunStateOf, Stored, FreshBackups, CanCallBackup, TickBacksUp;
    MovePeople.RunStep(k, ws, acts, i);
    BackedUpWhileStopped(k, ws[i], made, lost);
  }

  lemma BackedUpWhileStopped(k: Setup, w: World, made: map<Name, nat>, lost: bool)
    requires Inv(k, w) && CanCallBackup(k, w, made, lost) && made != map[]
    ensures w.src.pods == 0 && Stopped(RunStateOf(w.src.spec))
    ensures forall c :: c in made ==>
      c in w.src.data && made[c] in TickBacksUp(k, w, made, lost).bucket &&
      TickBacksUp(k, w, made, lost).bucket[made[c]] == w.src.data[c]
  {
    assert SourceOk(k, w.src, w.bucket);
    hide Inv, BackupsAtRest, Stored, NameBackups;
    StoredKeepsContent(w.src, w.bucket, k.claims, made);
  }

  // ------------------------------------------------------------- who changes what

  /** A thread that is about to store something has been told what it may store. */
  ghost predicate MayStore(w: World) {
    forall t :: t in w.people ==>
      && (w.people[t].Finish? ==> w.landed && w.people[t].m.status == Succeeded)
      && (w.people[t].Abandon? && w.people[t].apc == StoreMessage ==> w.people[t].m.status == Cancelled)
  }

  lemma PeopleMayStore(k: Setup, w: World)
    requires PeopleOk(k, w)
    ensures MayStore(w)
  {
    forall t | t in w.people
      ensures w.people[t].Finish? ==> w.landed && w.people[t].m.status == Succeeded
      ensures w.people[t].Abandon? && w.people[t].apc == StoreMessage ==> w.people[t].m.status == Cancelled
    {
      assert ThreadOk(k, w, w.people[t]);
    }
  }

  /** The part of the invariant that says what people may store. */
  lemma InvMayStore(k: Setup, w: World)
    requires Inv(k, w)
    ensures MayStore(w) && (w.landed ==> w.rec.None? || w.rec.value.status != Failed)
  {
    hide SourceOk, DestOk, RecOk, PcOk, LandedOk, MayStore;
    PeopleMayStore(k, w);
    assert StoredOk(k, w);
  }

  ghost predicate RecordKept(w: World, w': World) {
    && (Over(w) ==> Over(w'))
    && (Settled(w) ==> Settled(w'))
    && (!Over(w) && !Over(w') ==>
          w'.rec.value.phase == w.rec.value.phase && w'.rec.value.progress == w.rec.value.progress)
  }

  lemma AbandonRecord(k: Setup, w: World, t: nat, answered: bool, pick: Key, now: nat)
    requires IsAbandon(w, t) && AbandonCan(k, w, w.people[t].apc, pick) && MayStore(w)
    ensures RecordKept(w, AbandonDoes(k, w, t, answered, pick, now))
  {
    hide Undoes, OursOf, Ours, AbandonCan;
  }

  lemma PersonRecord(k: Setup, w: World, p: PersonStep)
    requires PersonCan(k, w, p) && MayStore(w)
    requires w.landed ==> w.rec.None? || w.rec.value.status != Failed
    ensures RecordKept(w, PersonDoes(k, w, p))
  {
    hide Undoes, AbandonDoes;
    match p
    case Abandons(t, answered, pick, now) => AbandonRecord(k, w, t, answered, pick, now);
    case _ =>
  }

  // ------------------------------------------------------------- forward only

  lemma OverStays(k: Setup, w: World, a: Step)
    requires Inv(k, w) && Can(k, w, a) && Over(w)
    ensures Over(Does(k, w, a))
  {
    hide Inv, SourceOk, DestOk, RecOk, PcOk, PeopleOk, LandedOk, MayStore, TickDoes, PersonDoes, TickCan;
    InvMayStore(k, w);
    match a
    case Cluster(c) =>
    case Ticks(e) => 
    case Person(p) => PersonRecord(k, w, p);
  }

  lemma StepForward(k: Setup, w: World, a: Step)
    requires Inv(k, w) && Can(k, w, a) && !Over(w) && !Over(Does(k, w, a))
    ensures Rank(w.rec.value.phase) <= Rank(Does(k, w, a).rec.value.phase)
    ensures w.rec.value.progress <= Does(k, w, a).rec.value.progress
  {
    PeopleMayStore(k, w);
    assert TickOk(k, w);
    hide Inv, SourceOk, DestOk, RecOk, PcOk, StoredOk, PeopleOk, LandedOk, MayStore, TickDoes, PersonDoes, TickCan;
    match a
    case Cluster(c) =>
    case Ticks(e) => 
    case Person(p) => PersonRecord(k, w, p);
  }

  predicate Live(w: World) { w.rec.Some? && w.rec.value.status != Cancelled }

  /** A live record is either of a move not over yet, or of one that has landed: all done. */
  lemma LiveIs(k: Setup, w: World)
    requires Inv(k, w) && Live(w)
    ensures w.rec.value.progress <= 100
    ensures Over(w) ==> w.rec.value.progress == 100 && forall p :: Rank(p) <= Rank(w.rec.value.phase)
  {
  }

  function PhaseOf(w: World): nat { if w.rec.Some? then Rank(w.rec.value.phase) else 0 }

  function ProgressOf(w: World): nat { if w.rec.Some? then w.rec.value.progress else 0 }

  lemma StepNotOver(k: Setup, w: World, a: Step)
    requires Inv(k, w) && Can(k, w, a) && !Over(Does(k, w, a))
    ensures !Over(w)
    ensures PhaseOf(w) <= PhaseOf(Does(k, w, a)) && ProgressOf(w) <= ProgressOf(Does(k, w, a))
  {
    hide Inv, Can, Does, Rank;
    if Over(w) {
      OverStays(k, w, a);
    } else {
      StepForward(k, w, a);
    }
  }

  lemma {:induction false} NotOverForward(k: Setup, ws: seq<World>, acts: seq<Step>, i: nat, j: nat)
    requires Run(k, ws, acts) && i <= j < |ws| == |acts| + 1 && !Over(ws[j])
    ensures !Over(ws[i])
    ensures PhaseOf(ws[i]) <= PhaseOf(ws[j]) && ProgressOf(ws[i]) <= ProgressOf(ws[j])
    decreases j
  {
    hide *;
    if i < j {
      MovePeople.RunStep(k, ws, acts, j - 1);
      StepNotOver(k, ws[j - 1], acts[j - 1]);
      NotOverForward(k, ws, acts, i, j - 1);
    }
  }

  /** Along any run the stored phase and progress never go backwards: between any two
      stored records that are not cancelled, whatever ticks, retries, crashes, puts-back
      and finishes happened in between. */
  lemma NeverBackwards(k: Setup, ws: seq<World>, acts: seq<Step>, i: nat, j: nat)
    requires Run(k, ws, acts) && i <= j < |ws| && Live(ws[i]) && Live(ws[j])
    ensures Rank(ws[i].rec.value.phase) <= Rank(ws[j].rec.value.phase)
    ensures ws[i].rec.value.progress <= ws[j].rec.value.progress
  {
    assert |ws| == |acts| + 1;
    hide Run, Inv, Rank;
    MovePeople.RunInv(k, ws, acts, i);
    MovePeople.RunInv(k, ws, acts, j);
    LiveIs(k, ws[i]);
    LiveIs(k, ws[j]);
    if !Over(ws[j]) {
      NotOverForward(k, ws, acts, i, j);
    }
  }

  /** What a put-back leaves of the record: cancelled or cleared, unless a `finish` that
      had already removed the source says so after it. */
  predicate Settled(w: World) {
    w.rec.None? || w.rec.value.status == Cancelled || (w.rec.value.status == Succeeded && w.rec.value.sourceRemoved)
  }

  /** Once `abandon` has stored "cancelled", no tick in flight can store it running again. */
  lemma {:induction false} CancelledStays(k: Setup, ws: seq<World>, acts: seq<Step>, i: nat, j: nat)
    requires Run(k, ws, acts) && i <= j < |ws| == |acts| + 1 && Settled(ws[i])
    ensures Settled(ws[j])
    decreases j
  {
    hide *;
    if i < j {
      CancelledStays(k, ws, acts, i, j - 1);
      MovePeople.RunStep(k, ws, acts, j - 1);
      SettledStep(k, ws[j - 1], acts[j - 1]);
    }
  }

  lemma SettledStep(k: Setup, w: World, a: Step)
    requires Inv(k, w) && Can(k, w, a) && Settled(w)
    ensures Settled(Does(k, w, a))
  {
    hide Inv, MayStore, TickDoes, PersonDoes, PersonCan, TickCan, ClusterCan;
    InvMayStore(k, w);
    match a
    case Cluster(c) =>
    case Ticks(e) =>
    case Person(p) => PersonRecord(k, w, p);
  }

  // ------------------------------------------------------------- putting it back

  /** Where an `abandon` stands, as a number. */
  function Order(apc: APc): nat {
    match apc
    case StoreCancelled => 0 case CallRelease => 1 case GetWorkload => 2 case DeleteWorkload => 3
    case ListServices => 4 case DeleteServices(_) => 5 case ListSecrets => 6 case DeleteSecrets(_) => 7
    case GetClaim(_) => 8 case DeleteClaim(_) => 8 case StoreMessage => 9 case Finished => 10
  }

  ghost predicate ClearedServices(k: Setup, w: World, th: Thread)
    requires th.Abandon?
  {
    th.services && Order(th.apc) >= 5 ==>
      forall o :: Own(k, w, o) && o.Service? ==> th.apc.DeleteServices? && o in th.apc.left
  }

  ghost predicate ClearedSecrets(k: Setup, w: World, th: Thread)
    requires th.Abandon?
  {
    th.secrets && Order(th.apc) >= 7 ==>
      forall o :: Own(k, w, o) && o.Secret? ==> th.apc.DeleteSecrets? && o in th.apc.left
  }

  ghost predicate ClearedClaims(k: Setup, w: World, th: Thread)
    requires th.Abandon?
  {
    Order(th.apc) >= 8 ==>
      forall j :: 0 <= j < |k.claims| && (th.apc.GetClaim? || th.apc.DeleteClaim? ==> j < th.apc.i) ==>
        !Own(k, w, Pvc(k.claims[j]))
  }

  ghost predicate ClearedFirst(k: Setup, w: World, th: Thread)
    requires th.Abandon?
  {
    && (Order(th.apc) >= 2 ==> w.src.origin.None?)
    && (Order(th.apc) >= 4 ==> !Own(k, w, Workload))
  }

  /** How far an `abandon` has got with clearing what this move made. */
  ghost predicate Cleared(k: Setup, w: World, th: Thread)
    requires th.Abandon?
  {
    ClearedFirst(k, w, th) && ClearedServices(k, w, th) && ClearedSecrets(k, w, th) && ClearedClaims(k, w, th)
  }

  lemma ClearedStays(k: Setup, w: World, w': World, th: Thread)
    requires th.Abandon? && Cleared(k, w, th)
    requires w'.dest.Keys <= w.dest.Keys && (w.src.origin.None? ==> w'.src.origin.None?)
    ensures Cleared(k, w', th)
  {
    assert forall o :: Own(k, w', o) ==> Own(k, w, o);
  }

  /** The abandon's own steps clear what they look at. */
  lemma AbandonClears(k: Setup, w: World, t: nat, answered: bool, pick: Key, now: nat)
    requires ValidSetup(k) && DestOk(k, w)
    requires IsAbandon(w, t) && AbandonCan(k, w, w.people[t].apc, pick) && Cleared(k, w, w.people[t])
    ensures var w' := AbandonDoes(k, w, t, answered, pick, now); IsAbandon(w', t) && Cleared(k, w', w'.people[t])
  {
    var th := w.people[t];
    MovePeople.ListedOurs(k, w);
    MoveTicks.OursIsOwn(k, w, Workload);
    if th.apc.GetClaim? && th.apc.i < |k.claims| {
      MoveTicks.OursIsOwn(k, w, Pvc(k.claims[th.apc.i]));
    }
    hide ValidSetup, DestOk, OursOf, Ours, AbandonDoes, ClearedFirst, ClearedServices, ClearedSecrets, ClearedClaims;
    AbandonClearedFirst(k, w, t, answered, pick, now);
    AbandonClearedServices(k, w, t, answered, pick, now);
    AbandonClearedSecrets(k, w, t, answered, pick, now);
    AbandonClearedClaims(k, w, t, answered, pick, now);
  }

  lemma AbandonClearedFirst(k: Setup, w: World, t: nat, answered: bool, pick: Key, now: nat)
    requires IsAbandon(w, t) && AbandonCan(k, w, w.people[t].apc, pick) && ClearedFirst(k, w, w.people[t])
    requires Ours(k, w, Workload) <==> Own(k, w, Workload)
    ensures var w' := AbandonDoes(k, w, t, answered, pick, now); IsAbandon(w', t) && ClearedFirst(k, w', w'.people[t])
  {
    hide OursOf, Ours, Undoes;
    var w' := AbandonDoes(k, w, t, answered, pick, now);
    assert w'.dest == w.dest - AbandonDeletes(k, w, w.people[t].apc, pick);
  }

  lemma AbandonClearedServices(k: Setup, w: World, t: nat, answered: bool, pick: Key, now: nat)
    requires IsAbandon(w, t) && AbandonCan(k, w, w.people[t].apc, pick) && ClearedServices(k, w, w.people[t])
    requires forall o :: o in OursOf(k, w, true) <==> Own(k, w, o) && o.Service?
    ensures var w' := AbandonDoes(k, w, t, answered, pick, now);
      IsAbandon(w', t) && ClearedServices(k, w', w'.people[t])
  {
    hide OursOf, Ours, Undoes;
    var w' := AbandonDoes(k, w, t, answered, pick, now);
    assert w'.dest == w.dest - AbandonDeletes(k, w, w.people[t].apc, pick);
  }

  lemma AbandonClearedSecrets(k: Setup, w: World, t: nat, answered: bool, pick: Key, now: nat)
    requires IsAbandon(w, t) && AbandonCan(k, w, w.people[t].apc, pick) && ClearedSecrets(k, w, w.people[t])
    requires forall o :: o in OursOf(k, w, false) <==> Own(k, w, o) && o.Secret?
    ensures var w' := AbandonDoes(k, w, t, answered, pick, now); IsAbandon(w', t) && ClearedSecrets(k, w', w'.people[t])
  {
    hide OursOf, Ours, Undoes;
    var w' := AbandonDoes(k, w, t, answered, pick, now);
    assert w'.dest == w.dest - AbandonDeletes(k, w, w.people[t].apc, pick);
  }

  lemma AbandonClearedClaims(k: Setup, w: World, t: nat, answered: bool, pick: Key, now: nat)
    requires IsAbandon(w, t) && AbandonCan(k, w, w.people[t].apc, pick) && ClearedClaims(k, w, w.people[t])
    requires w.people[t].apc.GetClaim? && w.people[t].apc.i < |k.claims| ==>
      (Ours(k, w, Pvc(k.claims[w.people[t].apc.i])) <==> Own(k, w, Pvc(k.claims[w.people[t].apc.i])))
    ensures var w' := AbandonDoes(k, w, t, answered, pick, now); IsAbandon(w', t) && ClearedClaims(k, w', w'.people[t])
  {
    hide OursOf, Ours, Undoes;
    var w' := AbandonDoes(k, w, t, answered, pick, now);
    assert w'.dest == w.dest - AbandonDeletes(k, w, w.people[t].apc, pick);
  }

  /** A request only moves by its own steps. */
  lemma ThreadWaits(k: Setup, w: World, a: Step, t: nat)
    requires Can(k, w, a) && IsAbandon(w, t) && IsAbandon(Does(k, w, a), t)
    requires !(a.Person? && a.p.Abandons? && a.p.t == t)
    ensures Does(k, w, a).people[t] == w.people[t]
  {
    hide TickDoes, TickCan;
    match a
    case Cluster(c) =>
    case Ticks(e) =>
    case Person(p) => PersonWaits(k, w, p, t);
  }

  lemma PersonWaits(k: Setup, w: World, p: PersonStep, t: nat)
    requires PersonCan(k, w, p) && IsAbandon(w, t) && IsAbandon(PersonDoes(k, w, p), t)
    requires !(p.Abandons? && p.t == t)
    ensures PersonDoes(k, w, p).people[t] == w.people[t]
  {
    hide AbandonDoes, AbandonCan, Undoes;
    match p
    case Abandons(u, answered, pick, now) => AbandonAlone(k, w, u, answered, pick, now, t);
    case _ =>
  }

  lemma AbandonAlone(k: Setup, w: World, u: nat, answered: bool, pick: Key, now: nat, t: nat)
    requires IsAbandon(w, u) && AbandonCan(k, w, w.people[u].apc, pick) && IsAbandon(w, t) && t != u
    ensures IsAbandon(AbandonDoes(k, w, u, answered, pick, now), t)
    ensures AbandonDoes(k, w, u, answered, pick, now).people[t] == w.people[t]
  {
    hide OursOf, Ours, AbandonCan, Undoes;
  }

  lemma OnlyHiddenLeft(k: Setup, w: World, t: nat)
    requires ValidSetup(k) && Inv(k, w) && IsAbandon(w, t) && w.people[t].apc == Finished && Cleared(k, w, w.people[t])
    ensures w.src.present && w.src.volumes && w.src.origin.None? && w.src.backups == map[]
    ensures RunStateOf(w.src.spec) == RunStateOf(k.spec)
    ensures forall o :: Ours(k, w, o) ==> (o.Service? && !w.people[t].services) || (o.Secret? && !w.people[t].secrets)
    ensures (forall o :: !Ours(k, w, o)) <==> w.dest == k.before
  {
    assert ThreadOk(k, w, w.people[t]);
    forall o
      ensures Ours(k, w, o) <==> Own(k, w, o)
      ensures Own(k, w, o) ==> (o.Service? && !w.people[t].services) || (o.Secret? && !w.people[t].secrets)
    {
      MoveTicks.OursIsOwn(k, w, o);
      assert Own(k, w, o) ==> OwnOk(k, w, o);
    }
    if forall o :: !Ours(k, w, o) {
      assert forall o :: o in w.dest ==> !Own(k, w, o);
      assert w.dest.Keys == k.before.Keys;
      assert w.dest == k.before;
    }
  }
}
