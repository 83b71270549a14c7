/** A move only goes on when it was told that it may: what the clusters answered in a run
    that got so far. */
module MoveAnswers {
  import opened Options
  import opened MoveSource
  import opened MoveProtocol
  import opened MoveSafety
  import MoveTicks
  import MovePeople

  // ------------------------------------------------------------- what was answered

  /** Before state n a tick saw the source without a pod. */
  ghost predicate SawNoPod(ws: seq<World>, acts: seq<Step>, n: nat) {
    exists l :: 0 <= l < n && l < |acts| && l < |ws| && acts[l] == Ticks(SeesPods) && ws[l].src.pods == 0
  }

  /** Before state n a tick was told that every claim's backup is complete. */
  ghost predicate SawBackups(k: Setup, acts: seq<Step>, n: nat) {
    exists l :: 0 <= l < n && l < |acts| && acts[l].Ticks? && acts[l].e.SeesBackups? && |acts[l].e.done| == |k.claims|
  }

  /** The bucket has a backup for every row of the record that the tick works on. */
  predicate CanRestore(k: Setup, w: World) {
    RowsFit(k, w) && forall i :: 0 <= i < |k.claims| ==>
      w.tick.m.claims[i].backup.Some? && w.tick.m.claims[i].backup.value in w.bucket
  }

  /** Before state n a tick was told that the backups can be seen from here, and found each. */
  ghost predicate SawSync(k: Setup, ws: seq<World>, acts: seq<Step>, n: nat) {
    exists l :: 0 <= l < n && l < |acts| && l < |ws| && acts[l] == Ticks(Syncs(true)) && CanRestore(k, ws[l])
  }

  /** Before state n a tick was told that the workload is ready here. */
  ghost predicate SawReady(acts: seq<Step>, n: nat) {
    exists l :: 0 <= l < n && l < |acts| && acts[l] == Ticks(SeesReady(true))
  }

  /** The four together. */
  datatype Heard = Heard(noPod: bool, backups: bool, sync: bool, ready: bool)

  ghost function HeardBy(k: Setup, ws: seq<World>, acts: seq<Step>, n: nat): Heard {
    Heard(SawNoPod(ws, acts, n), SawBackups(k, acts, n), SawSync(k, ws, acts, n), SawReady(acts, n))
  }

  /** What one step adds. */
  predicate Hears(k: Setup, w: World, a: Step, h: Heard, h': Heard) {
    && (h'.noPod <==> h.noPod || (a == Ticks(SeesPods) && w.src.pods == 0))
    && (h'.backups <==> h.backups || (a.Ticks? && a.e.SeesBackups? && |a.e.done| == |k.claims|))
    && (h'.sync <==> h.sync || (a == Ticks(Syncs(true)) && CanRestore(k, w)))
    && (h'.ready <==> h.ready || a == Ticks(SeesReady(true)))
  }

  lemma HearsMore(k: Setup, ws: seq<World>, acts: seq<Step>, n: nat)
    requires n < |acts| && n < |ws|
    ensures Hears(k, ws[n], acts[n], HeardBy(k, ws, acts, n), HeardBy(k, ws, acts, n + 1))
  {
  }

  // ------------------------------------------------------------- what a record says was answered

  predicate Backed(k: Setup, h: Heard, m: Record) {
    && (Rank(m.phase) >= Rank(BackingUp) ==> h.noPod)
    && (Rank(m.phase) >= Rank(Syncing) ==> h.backups)
    && (Rank(m.phase) >= Rank(Restoring) ==> h.sync)
    && (m.phase == Done ==> h.ready || Stopped(RunStateOf(k.spec)))
  }

  ghost predicate AllBacked(k: Setup, w: World, h: Heard) {
    && (w.rec.Some? ==> Backed(k, h, w.rec.value))
    && (w.tick.Busy? ==> Backed(k, h, w.tick.m))
    && (forall t :: t in w.people ==> Backed(k, h, w.people[t].m))
    && (w.landed ==> h.noPod && h.backups && h.sync && (h.ready || Stopped(RunStateOf(k.spec))))
  }

  lemma BackedMore(k: Setup, w: World, a: Step, h: Heard, h': Heard, m: Record)
    requires Hears(k, w, a, h, h') && Backed(k, h, m)
    ensures Backed(k, h', m)
  {
  }

  /** A step counts at most one failure, and then ends the tick; a record fails only on a
      refusal or with more than 120 failures counted. */
  predicate Counts(w: World, e: TickStep, w': World)
    requires w.tick.Busy?
  {
    && w'.tick.Busy?
    && (w'.tick.m.status == Failed ==>
          w.tick.m.status == Failed || e == Faults(Refused) || w'.tick.m.failures > 120)
    && (w'.tick.m.failures <= w.tick.m.failures ||
          (w'.tick.pc == End && w'.tick.m.failures == w.tick.m.failures + 1))
  }

  predicate SamePhase(w: World, w': World)
    requires w.tick.Busy?
  {
    w'.tick.Busy? && w'.tick.m.phase == w.tick.m.phase
  }

  /** The other steps leave the phase where it is. */
  lemma PhaseStays(k: Setup, w: World, e: TickStep)
    requires TickCan(k, w, e) && !e.Reads? && !e.Stores? && w.tick.Busy?
    requires !e.Joins? && !e.SeesPods? && !e.SeesBackups? && !e.Syncs? && !e.SeesVolumes? && !e.EndsCreating?
    requires !e.CallsStart? && !e.SeesReady?
    ensures SamePhase(w, TickDoes(k, w, e))
    ensures Counts(w, e, TickDoes(k, w, e))
  {
    hide TickQuiesces, TickBacksUp, TickGetsClaim, TickPostsClaim, TickPostsObject, CanCallBackup, Handles, Leaves,
      Ours;
    match e
    case CallsQuiesce(lost) => QuiesceStays(w, lost);
    case CallsBackup(made, lost) => BackupStays(k, w, made, lost); BackupCounts(k, w, made, lost);
    case GetsClaim(wait) => ClaimStays(k, w, wait);
    case PostsClaim(lost) => PostStays(k, w, lost);
    case PostsObject(lost) => ObjectStays(k, w, lost);
    case _ =>
  }

  lemma ObjectStays(k: Setup, w: World, lost: bool)
    requires CanPostObject(w)
    ensures SamePhase(w, TickPostsObject(k, w, lost)) && Counts(w, PostsObject(lost), TickPostsObject(k, w, lost))
  {
    hide StoppedCopy;
  }

  lemma QuiesceStays(w: World, lost: bool)
    requires w.tick.Busy?
    ensures SamePhase(w, TickQuiesces(w, lost))
    ensures Counts(w, CallsQuiesce(lost), TickQuiesces(w, lost))
  {
  }

  lemma LostStays(w: World, v: World)
    requires w.tick.Busy?
    ensures SamePhase(w, Lost(v, w.tick.m))
  {
  }

  lemma BackupStays(k: Setup, w: World, made: map<Name, nat>, lost: bool)
    requires CanCallBackup(k, w, made, lost)
    ensures SamePhase(w, TickBacksUp(k, w, made, lost))
  {
    if !w.tick.m.backedUp {
      LostStays(w, w.(src := Backup(w.src, made), bucket := Stored(w.src, w.bucket, made)));
    }
    hide NameBackups, Stored, Leaves, CanBackup, Backup, Lost, Handles, PostsNothing;
  }

  lemma LostCounts(w: World, e: TickStep, v: World)
    requires w.tick.Busy?
    ensures Counts(w, e, Lost(v, w.tick.m))
  {
  }

  lemma BackupCounts(k: Setup, w: World, made: map<Name, nat>, lost: bool)
    requires CanCallBackup(k, w, made, lost)
    ensures Counts(w, CallsBackup(made, lost), TickBacksUp(k, w, made, lost))
  {
    var e := CallsBackup(made, lost);
    if w.tick.m.backedUp {
      MovesOnCounts(w, e, w, w.tick.m, AskBackups);
    } else {
      var v := w.(src := Backup(w.src, made), bucket := Stored(w.src, w.bucket, made));
      var m := w.tick.m.(claims := NameBackups(k, w.tick.m.claims, v.src.backups), backedUp := true);
      LostCounts(w, e, v);
      MovesOnCounts(w, e, v, m, AskBackups);
    }
    hide NameBackups, Stored, Leaves, CanBackup, Backup, Lost, Next, Counts, Handles, PostsNothing;
  }

  lemma MovesOnCounts(w: World, e: TickStep, v: World, m: Record, pc: Pc)
    requires w.tick.Busy? && m.failures == w.tick.m.failures && m.status == w.tick.m.status
    ensures Counts(w, e, Next(v, m, pc))
  {
  }

  lemma ClaimStays(k: Setup, w: World, wait: bool)
    requires CanGetClaim(k, w)
    ensures SamePhase(w, TickGetsClaim(k, w, wait))
    ensures Counts(w, GetsClaim(wait), TickGetsClaim(k, w, wait))
  {
    hide Leaves, Ours;
  }

  lemma PostStays(k: Setup, w: World, lost: bool)
    requires CanPostClaim(k, w)
    ensures SamePhase(w, TickPostsClaim(k, w, lost))
    ensures Counts(w, PostsClaim(lost), TickPostsClaim(k, w, lost))
  {
  }

  /** Where a phase goes, and on which answer. */
  ghost predicate Moved(k: Setup, w: World, e: TickStep, m: Record, m': Record) {
    || m'.phase == m.phase
    || m'.phase == Quiescing
    || (m'.phase == BackingUp && e.SeesPods? && w.src.pods == 0)
    || (m'.phase == Syncing && m.phase == BackingUp && e.SeesBackups? && |e.done| == |k.claims|)
    || (m'.phase == Restoring && m.phase == Syncing && e == Syncs(true) && CanRestore(k, w))
    || (m'.phase == Creating && m.phase == Restoring)
    || (m'.phase == Starting && m.phase == Creating)
    || (m'.phase == Done && m.phase == Starting && (e == SeesReady(true) || Stopped(RunStateOf(k.spec))))
  }

  lemma JoinsMove(k: Setup, w: World)
    requires At(w, Joining)
    ensures Moved(k, w, Joins, w.tick.m, TickJoins(w).tick.m)
    ensures Counts(w, Joins, TickJoins(w))
  {
  }

  lemma PodsMove(k: Setup, w: World)
    requires CanSeePods(w)
    ensures Moved(k, w, SeesPods, w.tick.m, TickSeesPods(w).tick.m)
    ensures Counts(w, SeesPods, TickSeesPods(w))
  {
  }

  lemma BackupsMove(k: Setup, w: World, done: set<Name>, p: nat)
    requires CanSeeBackups(w, done, p) && |w.tick.m.claims| == |k.claims| && PcOk(k, w, w.tick.m, w.tick.pc)
    ensures Moved(k, w, SeesBackups(done, p), w.tick.m, TickSeesBackups(w, done, p).tick.m)
  {
  }

  lemma BackupsCount(k: Setup, w: World, done: set<Name>, p: nat)
    requires CanSeeBackups(w, done, p) && |w.tick.m.claims| == |k.claims| && PcOk(k, w, w.tick.m, w.tick.pc)
    ensures Counts(w, SeesBackups(done, p), TickSeesBackups(w, done, p))
  {
  }

  lemma SyncMoves(k: Setup, w: World, visible: bool)
    requires At(w, Syncing) && |w.tick.m.claims| == |k.claims|
    ensures Moved(k, w, Syncs(visible), w.tick.m, TickSyncs(w, visible).tick.m)
    ensures Counts(w, Syncs(visible), TickSyncs(w, visible))
  {
    hide Leaves;
  }

  lemma VolumesMove(k: Setup, w: World, p: nat)
    requires CanSeeVolumes(k, w, p) && PcOk(k, w, w.tick.m, w.tick.pc)
    ensures Moved(k, w, SeesVolumes(p), w.tick.m, TickSeesVolumes(w, p).tick.m)
    ensures Counts(w, SeesVolumes(p), TickSeesVolumes(w, p))
  {
    hide AllRestored, Own, Restored;
  }

  lemma CreatingMoves(k: Setup, w: World)
    requires CanEndCreating(w) && |w.tick.m.claims| == |k.claims| && PcOk(k, w, w.tick.m, w.tick.pc)
    ensures Moved(k, w, EndsCreating, w.tick.m, TickEndsCreating(w).tick.m)
    ensures Counts(w, EndsCreating, TickEndsCreating(w))
  {
    hide KeysOk, Own;
  }

  lemma StartMoves(k: Setup, w: World, lost: bool)
    requires CanStart(w, lost) && w.tick.m.origin == RunStateOf(k.spec)
    ensures Moved(k, w, CallsStart(lost), w.tick.m, TickStarts(w, lost).tick.m)
  {
    hide Leaves, Patched;
  }

  lemma StartCounts(k: Setup, w: World, lost: bool)
    requires CanStart(w, lost) && w.tick.m.origin == RunStateOf(k.spec)
    ensures Counts(w, CallsStart(lost), TickStarts(w, lost))
  {
    var m, e := w.tick.m, CallsStart(lost);
    if !Stopped(m.origin) && !m.started {
      var o := w.dest[Workload];
      var v := w.(dest := w.dest[Workload := o.(body := Shape(Patched(o.body.spec, m.origin), true))]);
      LostCounts(w, e, v);
      MovesOnCounts(w, e, v, m.(started := true), AskReady);
      hide Lost, Next, Counts, Leaves, Patched, Handles, PostsNothing, Stopped;
    }
  }

  lemma ReadyMoves(k: Setup, w: World, ready: bool)
    requires CanSeeReady(w) && |w.tick.m.claims| == |k.claims| && PcOk(k, w, w.tick.m, w.tick.pc)
    ensures Moved(k, w, SeesReady(ready), w.tick.m, TickSeesReady(w, ready).tick.m)
    ensures Counts(w, SeesReady(ready), TickSeesReady(w, ready))
  {
  }

  lemma StaysMoved(k: Setup, w: World, e: TickStep)
    requires TickCan(k, w, e) && w.tick.Busy? && SamePhase(w, TickDoes(k, w, e))
    ensures Moved(k, w, e, w.tick.m, TickDoes(k, w, e).tick.m)
  {
    hide TickCan, TickDoes;
  }

  lemma PhaseMoves(k: Setup, w: World, e: TickStep)
    requires TickCan(k, w, e) && !e.Reads? && !e.Stores? && w.tick.Busy?
    requires |w.tick.m.claims| == |k.claims| && w.tick.m.origin == RunStateOf(k.spec) && PcOk(k, w, w.tick.m, w.tick.pc)
    ensures TickDoes(k, w, e).tick.Busy? && Moved(k, w, e, w.tick.m, TickDoes(k, w, e).tick.m)
    ensures Counts(w, e, TickDoes(k, w, e))
  {
    hide TickSeesPods, TickSeesBackups, TickSyncs, TickSeesVolumes, TickEndsCreating, TickStarts, TickSeesReady;
    hide TickJoins, TickQuiesces, TickBacksUp, TickGetsClaim, TickPostsClaim, TickSeesVolume, TickGetsDefinition;
    hide TickGetsObject, TickPostsObject, Faulted, ToClaim, Next, Leaves;
    hide PcOk, Moved, Counts, SamePhase, CanSeePods, CanSeeBackups, CanSeeVolumes, CanEndCreating, CanStart,
      CanSeeReady;
    hide CanQuiesce, CanCallBackup, CanGetClaim, CanPostClaim, CanSeeVolume, CanGetDefinition, CanGetObject;
    hide CanPostObject, CanFault, CanStore, CanRead;
    match e
    case Joins => JoinsMove(k, w);
    case SeesPods => PodsMove(k, w);
    case SeesBackups(done, p) => BackupsMove(k, w, done, p); BackupsCount(k, w, done, p);
    case Syncs(visible) => SyncMoves(k, w, visible);
    case SeesVolumes(p) => VolumesMove(k, w, p);
    case EndsCreating => CreatingMoves(k, w);
    case CallsStart(lost) => StartMoves(k, w, lost); StartCounts(k, w, lost);
    case SeesReady(ready) => ReadyMoves(k, w, ready);
    case _ => PhaseStays(k, w, e); StaysMoved(k, w, e);
  }

  lemma RecParts(k: Setup, w: World, m: Record)
    requires RecOk(k, w, m)
    ensures |m.claims| == |k.claims| && m.origin == RunStateOf(k.spec)
  {
  }

  lemma TickBacked(k: Setup, w: World, e: TickStep, h: Heard, h': Heard)
    requires Inv(k, w) && TickCan(k, w, e) && !e.Reads? && !e.Stores?
    requires AllBacked(k, w, h) && Hears(k, w, Ticks(e), h, h')
    ensures TickDoes(k, w, e).tick.Busy? && Backed(k, h', TickDoes(k, w, e).tick.m)
  {
    MovesBusy(k, w, e);
    MoveTicks.TickFacts(k, w);
    RecParts(k, w, w.tick.m);
    hide Inv, TickCan, TickDoes, RecOk, PcOk, Handles, DestOk, SourceOk;
    PhaseMoves(k, w, e);
    MovedBacked(k, w, e, h, h');
  }

  lemma MovedBacked(k: Setup, w: World, e: TickStep, h: Heard, h': Heard)
    requires TickCan(k, w, e) && w.tick.Busy? && TickDoes(k, w, e).tick.Busy?
    requires Moved(k, w, e, w.tick.m, TickDoes(k, w, e).tick.m)
    requires Backed(k, h, w.tick.m) && Hears(k, w, Ticks(e), h, h')
    ensures Backed(k, h', TickDoes(k, w, e).tick.m)
  {
    hide TickCan, TickDoes;
  }

  lemma MovesBusy(k: Setup, w: World, e: TickStep)
    requires TickCan(k, w, e) && !e.Reads?
    ensures w.tick.Busy?
  {
    hide CanBackup, FreshBackups, Ours;
  }

  lemma TickAllBacked(k: Setup, w: World, e: TickStep, h: Heard, h': Heard)
    requires Inv(k, w) && TickCan(k, w, e) && AllBacked(k, w, h) && Hears(k, w, Ticks(e), h, h')
    ensures AllBacked(k, TickDoes(k, w, e), h')
  {
    hide Inv, TickCan, TickDoes, AllBacked, Backed, Hears;
    if e.Reads? {
      ReadAllBacked(k, w, h);
      AllBackedMore(k, w, Ticks(e), TickDoes(k, w, e), h, h');
    } else if e.Stores? {
      StoreAllBacked(k, w, e.now, h);
      AllBackedMore(k, w, Ticks(e), TickDoes(k, w, e), h, h');
    } else {
      TickBacked(k, w, e, h, h');
      AllBackedMore(k, w, Ticks(e), w, h, h');
      MovesBusy(k, w, e);
      OnlyTick(k, w, TickDoes(k, w, e), h');
    }
  }

  lemma AllBackedMore(k: Setup, w: World, a: Step, v: World, h: Heard, h': Heard)
    requires Hears(k, w, a, h, h') && AllBacked(k, v, h)
    ensures AllBacked(k, v, h')
  {
    hide Backed;
    forall m | Backed(k, h, m) ensures Backed(k, h', m) { BackedMore(k, w, a, h, h', m); }
  }

  lemma OnlyTick(k: Setup, w: World, w': World, h: Heard)
    requires AllBacked(k, w, h) && w'.tick.Busy? && Backed(k, h, w'.tick.m)
    requires w'.rec == w.rec && w'.people == w.people && w'.landed == w.landed
    ensures AllBacked(k, w', h)
  {
    hide Backed;
  }

  lemma ReadAllBacked(k: Setup, w: World, h: Heard)
    requires TickCan(k, w, Reads) && AllBacked(k, w, h)
    ensures AllBacked(k, TickDoes(k, w, Reads), h)
  {
    hide Backed;
    ReadIs(k, w);
  }

  lemma StoreAllBacked(k: Setup, w: World, now: nat, h: Heard)
    requires Inv(k, w) && TickCan(k, w, Stores(now)) && AllBacked(k, w, h)
    ensures AllBacked(k, TickDoes(k, w, Stores(now)), h)
  {
    MoveTicks.TickFacts(k, w);
    StoredBacked(k, w, h, now);
    StoreIs(k, w, now);
    hide Inv, Backed, TickDoes, TickCan, RecOk, PcOk, SourceOk, DestOk;
  }

  lemma StoreIs(k: Setup, w: World, now: nat)
    requires TickCan(k, w, Stores(now))
    ensures var w' := TickDoes(k, w, Stores(now));
      && w.tick.Busy? && w.tick.pc == End && w'.tick.Idle? && w'.people == w.people
      && (w'.rec == w.rec || w'.rec == Some(w.tick.m.(updatedAt := now)))
      && (w'.landed ==> w.landed || w.tick.m.status == Succeeded)
  {
  }

  lemma ReadIs(k: Setup, w: World)
    requires TickCan(k, w, Reads)
    ensures w.rec.Some? && TickDoes(k, w, Reads) == Next(w, w.rec.value, Begin)
  {
  }

  /** A record stored as succeeded is done. */
  lemma StoredBacked(k: Setup, w: World, h: Heard, now: nat)
    requires w.tick.Busy? && RecOk(k, w, w.tick.m) && Backed(k, h, w.tick.m)
    ensures w.tick.m.status == Succeeded ==> h.noPod && h.backups && h.sync && (h.ready || Stopped(RunStateOf(k.spec)))
    ensures Backed(k, h, w.tick.m.(updatedAt := now))
  {
  }

  lemma PersonAllBacked(k: Setup, w: World, p: PersonStep, h: Heard, h': Heard)
    requires PersonCan(k, w, p) && AllBacked(k, w, h) && Hears(k, w, Person(p), h, h')
    ensures AllBacked(k, PersonDoes(k, w, p), h')
  {
    assert h' == h;
    PersonKeepsBacked(k, w, p, h);
    hide *;
  }

  lemma PersonKeepsBacked(k: Setup, w: World, p: PersonStep, h: Heard)
    requires PersonCan(k, w, p) && AllBacked(k, w, h)
    ensures AllBacked(k, PersonDoes(k, w, p), h)
  {
    hide Undoes, AbandonDeletes, AbandonNext, AbandonCan, Release, Ours, OursOf, CanRemove;
    match p
    case Abandons(t, answered, pick, now) => AbandonPhase(k, w, t, answered, pick, now);
    case _ =>
  }

  lemma AbandonPhase(k: Setup, w: World, t: nat, answered: bool, pick: Key, now: nat)
    requires IsAbandon(w, t) && AbandonCan(k, w, w.people[t].apc, pick)
    ensures AbandonNext(k, w, w.people[t], answered, pick, now).m.phase == w.people[t].m.phase
  {
    hide Ours, OursOf;
  }

  lemma ClusterAllBacked(k: Setup, w: World, c: ClusterStep, h: Heard, h': Heard)
    requires ClusterCan(k, w, c) && AllBacked(k, w, h) && Hears(k, w, Cluster(c), h, h')
    ensures AllBacked(k, ClusterDoes(k, w, c), h')
  {
    var w' := ClusterDoes(k, w, c);
    assert w'.rec == w.rec && w'.tick == w.tick && w'.people == w.people && w'.landed == w.landed;
    hide ClusterDoes, ClusterCan;
  }

  lemma StepAllBacked(k: Setup, w: World, a: Step, h: Heard, h': Heard)
    requires Inv(k, w) && Can(k, w, a) && AllBacked(k, w, h) && Hears(k, w, a, h, h')
    ensures AllBacked(k, Does(k, w, a), h')
  {
    hide Inv, TickCan, TickDoes, PersonDoes, PersonCan, ClusterDoes, ClusterCan, AllBacked;
    match a
    case Cluster(c) => ClusterAllBacked(k, w, c, h, h');
    case Ticks(e) => TickAllBacked(k, w, e, h, h');
    case Person(p) => PersonAllBacked(k, w, p, h, h');
  }

  lemma StartsBacked(k: Setup, w: World, h: Heard)
    requires Init(k, w)
    ensures AllBacked(k, w, h)
  {
  }

  lemma {:induction false} RunBacked(k: Setup, ws: seq<World>, acts: seq<Step>, n: nat)
    requires Run(k, ws, acts) && n < |ws|
    ensures AllBacked(k, ws[n], HeardBy(k, ws, acts, n))
  {
    hide *;
    RunParts(k, ws, acts);
    if n == 0 {
      StartsBacked(k, ws[0], HeardBy(k, ws, acts, 0));
    } else {
      RunBacked(k, ws, acts, n - 1);
      MovePeople.RunStep(k, ws, acts, n - 1);
      HearsMore(k, ws, acts, n - 1);
      StepAllBacked(k, ws[n - 1], acts[n - 1], HeardBy(k, ws, acts, n - 1), HeardBy(k, ws, acts, n));
    }
  }

  lemma RunParts(k: Setup, ws: seq<World>, acts: seq<Step>)
    requires Run(k, ws, acts)
    ensures |ws| == |acts| + 1 && Init(k, ws[0])
  {
  }

  // ------------------------------------------------------------- the promises

  /** A move has landed only if its workload was stopped before, or a tick of the run was told
      that it is ready here. */
  lemma LandedOnlyWhenReady(k: Setup, ws: seq<World>, acts: seq<Step>, n: nat)
    requires Run(k, ws, acts) && n < |ws| && ws[n].landed
    ensures Stopped(RunStateOf(k.spec)) || exists l :: 0 <= l < n && acts[l] == Ticks(SeesReady(true))
  {
    hide Run, Init, Can, Does;
    RunBacked(k, ws, acts, n);
  }

  /** And before that was told in the same run: no pod left, every backup complete, all of them
      to be seen from here.  So it is of the phases on the way. */
  lemma PhasesFollowAnswers(k: Setup, ws: seq<World>, acts: seq<Step>, n: nat)
    requires Run(k, ws, acts) && n < |ws| && ws[n].rec.Some?
    ensures var rank := Rank(ws[n].rec.value.phase);
      && (rank >= Rank(BackingUp) ==> exists l :: 0 <= l < n && acts[l] == Ticks(SeesPods) && ws[l].src.pods == 0)
      && (rank >= Rank(Syncing) ==>
            exists l :: 0 <= l < n && acts[l].Ticks? && acts[l].e.SeesBackups? && |acts[l].e.done| == |k.claims|)
      && (rank >= Rank(Restoring) ==> exists l :: 0 <= l < n && acts[l] == Ticks(Syncs(true)) && CanRestore(k, ws[l]))
      && (rank == Rank(Done) ==>
            Stopped(RunStateOf(k.spec)) || exists l :: 0 <= l < n && acts[l] == Ticks(SeesReady(true)))
  {
    hide Run, Init, Can, Does;
    RunBacked(k, ws, acts, n);
  }

  /** The source is only removed after that. */
  lemma RemovedOnlyWhenReady(k: Setup, ws: seq<World>, acts: seq<Step>, n: nat, t: nat, volumes: bool)
    requires Run(k, ws, acts) && n < |acts| && acts[n] == Person(Removes(t, volumes))
    ensures Stopped(RunStateOf(k.spec)) || exists l :: 0 <= l < n && acts[l] == Ticks(SeesReady(true))
  {
    hide Run, Inv, TickCan;
    MovePeople.RunStep(k, ws, acts, n);
    FinishHasLanded(k, ws[n], t);
    LandedOnlyWhenReady(k, ws, acts, n);
  }

  lemma FinishHasLanded(k: Setup, w: World, t: nat)
    requires Inv(k, w) && t in w.people && w.people[t].Finish?
    ensures w.landed
  {
    hide SourceOk, DestOk, TickOk, StoredOk, LandedOk;
    assert ThreadOk(k, w, w.people[t]);
  }

  /** From step n on to step m nobody but the clusters and people acts, and nothing crashes. */
  predicate TickWaits(acts: seq<Step>, n: nat, m: nat) {
    n < m < |acts| && forall l :: n < l < m ==> !acts[l].Ticks? && acts[l] != Person(Crashes)
  }

  lemma {:induction false} TickStands(k: Setup, ws: seq<World>, acts: seq<Step>, n: nat, m: nat)
    requires Follows(k, ws, acts) && TickWaits(acts, n, m) && ws[n + 1].tick.Busy?
    ensures ws[m].tick == ws[n + 1].tick
    decreases m
  {
    hide Can, Does;
    if n + 1 < m {
      TickStands(k, ws, acts, n, m - 1);
      var w, a := ws[m - 1], acts[m - 1];
      assert Can(k, w, a) && ws[m - 1 + 1] == Does(k, w, a);
      OthersKeepTick(k, w, a);
    }
  }

  lemma OthersKeepTick(k: Setup, w: World, a: Step)
    requires Can(k, w, a) && !a.Ticks? && a != Person(Crashes)
    ensures Does(k, w, a).tick == w.tick
  {
    hide Undoes, AbandonDoes, AbandonCan, CanRemove, Ours;
    if a.Person? && a.p.Abandons? {
      AbandonKeepsTick(k, w, a.p);
    }
  }

  lemma AbandonKeepsTick(k: Setup, w: World, p: PersonStep)
    requires PersonCan(k, w, p) && p.Abandons?
    ensures PersonDoes(k, w, p).tick == w.tick
  {
    hide Undoes, AbandonNext, AbandonDeletes, AbandonCan, Release;
  }

  /** A tick that was told whether the workload is ready, and whose record is then stored over
      one that still runs: the move has succeeded if it was told so, and goes on waiting if
      it was told not. */
  lemma ToldLands(k: Setup, ws: seq<World>, acts: seq<Step>, n: nat, m: nat, ready: bool, now: nat)
    requires Run(k, ws, acts) && TickWaits(acts, n, m)
    requires acts[n] == Ticks(SeesReady(ready)) && acts[m] == Ticks(Stores(now))
    requires ws[m].rec.Some? && ws[m].rec.value.status == Running && ws[m].rec.value.updatedAt <= now
    ensures ws[m + 1].rec.Some? && ws[m + 1].rec.value.status == (if ready then Succeeded else Running)
    ensures ws[m + 1].rec.value.phase == (if ready then Done else Starting)
    ensures ws[m + 1].landed <==> ready
  {
    hide Inv, Can, Does, Run, Init, Follows;
    RunFollows(k, ws, acts);
    MovePeople.RunStep(k, ws, acts, n);
    MovePeople.RunStep(k, ws, acts, m);
    TellsReady(k, ws[n], ready);
    TickStands(k, ws, acts, n, m);
    StoresTold(k, ws[m], now);
  }

  lemma RunFollows(k: Setup, ws: seq<World>, acts: seq<Step>)
    requires Run(k, ws, acts)
    ensures Follows(k, ws, acts) && |ws| == |acts| + 1
  {
    hide Can, Does, Init;
  }

  lemma TellsReady(k: Setup, w: World, ready: bool)
    requires Inv(k, w) && Can(k, w, Ticks(SeesReady(ready)))
    ensures var t := Does(k, w, Ticks(SeesReady(ready))).tick;
      && t.Busy? && t.m.status == (if ready then Succeeded else Running)
      && t.m.phase == (if ready then Done else Starting)
  {
    MoveTicks.TickFacts(k, w);
    hide Inv, DestOk, SourceOk, RecOk;
  }

  lemma StoresTold(k: Setup, w: World, now: nat)
    requires Inv(k, w) && Can(k, w, Ticks(Stores(now))) && w.rec.Some? && w.rec.value.status == Running
    requires w.rec.value.updatedAt <= now
    ensures var w' := Does(k, w, Ticks(Stores(now)));
      w'.rec == Some(w.tick.m.(updatedAt := now)) && (w'.landed <==> w.tick.m.status == Succeeded)
  {
    MoveTicks.TickFacts(k, w);
    hide Inv, DestOk, SourceOk, RecOk, PcOk;
  }

  // ------------------------------------------------------------- what finish takes away

  /** The source's workload is gone only after it was removed, and its claims only after they
      were asked to be removed with it. */
  lemma {:induction false} ClaimsGoWhenAsked(k: Setup, ws: seq<World>, acts: seq<Step>, n: nat)
    requires Run(k, ws, acts) && n <= |acts|
    ensures n < |ws|
    ensures ws[n].src.present <==> !exists l :: 0 <= l < n && acts[l].Person? && acts[l].p.Removes?
    ensures ws[n].src.volumes <==> !exists l :: 0 <= l < n && acts[l].Person? && acts[l].p.Removes? && acts[l].p.volumes
  {
    hide Run, Can, Does, Inv;
    RunParts(k, ws, acts);
    if n > 0 {
      ClaimsGoWhenAsked(k, ws, acts, n - 1);
      MovePeople.RunStep(k, ws, acts, n - 1);
      RemovesIs(k, ws[n - 1], acts[n - 1]);
    }
  }

  lemma RemovesIs(k: Setup, w: World, a: Step)
    requires Can(k, w, a)
    ensures var w', removes := Does(k, w, a), a.Person? && a.p.Removes?;
      && (w'.src.present <==> w.src.present && !removes)
      && (w'.src.volumes <==> w.src.volumes && !(removes && a.p.volumes))
  {
    hide TickDoes, TickCan, PersonDoes, PersonCan, ClusterDoes, ClusterCan;
    match a
    case Cluster(c) => ClusterKeepsObject(k, w, c);
    case Ticks(e) => TickKeepsObject(k, w, e);
    case Person(p) => PersonRemoves(k, w, p);
  }

  lemma ClusterKeepsObject(k: Setup, w: World, c: ClusterStep)
    requires ClusterCan(k, w, c)
    ensures ClusterDoes(k, w, c).src.present == w.src.present && ClusterDoes(k, w, c).src.volumes == w.src.volumes
  {
    hide Ours;
  }

  lemma TickKeepsObject(k: Setup, w: World, e: TickStep)
    requires TickCan(k, w, e)
    ensures TickDoes(k, w, e).src.present == w.src.present && TickDoes(k, w, e).src.volumes == w.src.volumes
  {
    hide TickDoes, TickCan;
  }

  lemma PersonRemoves(k: Setup, w: World, p: PersonStep)
    requires PersonCan(k, w, p)
    ensures var w' := PersonDoes(k, w, p);
      && (w'.src.present <==> w.src.present && !p.Removes?)
      && (w'.src.volumes <==> w.src.volumes && !(p.Removes? && p.volumes))
  {
    hide Undoes, AbandonNext, AbandonDeletes, AbandonCan, Ours, Patched;
  }
}
