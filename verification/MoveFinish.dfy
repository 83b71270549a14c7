/** A move can always be brought to its end: from any state, whatever was lost on the way,
    exactly when nothing at the destination stands in its place. */
module MoveFinish {
  import opened Options
  import opened MoveSource
  import opened MoveProtocol
  import opened MoveSafety
  import opened MovePutBack
  import MoveTicks
  import MovePeople
  import MoveTheorems

  /** None of the move's own names was taken at the destination before. */
  ghost predicate Free(k: Setup) {
    Workload !in k.before && forall i :: 0 <= i < |k.claims| ==> Pvc(k.claims[i]) !in k.before
  }

  /** Some continuation lands the move. */
  ghost predicate CanLand(k: Setup, w: World) { exists v :: Reaches(k, w, v) && v.landed }

  /** Between two ticks, in a phase. */
  predicate Rests(w: World, phase: Phase) {
    w.tick.Idle? && w.rec.Some? && w.rec.value.status == Running && w.rec.value.phase == phase
  }

  /** What a tick holds of a move that runs on. */
  predicate Works(w: World, pc: Pc, phase: Phase) {
    && w.tick.Busy? && w.tick.pc == pc && w.tick.m.status == Running && w.tick.m.phase == phase
    && w.rec.Some? && w.rec.value.status == Running
  }

  ghost predicate Gets(k: Setup, w0: World, w: World) {
    ValidSetup(k) && Free(k) && Inv(k, w) && Reaches(k, w0, w)
  }

  lemma Goes(k: Setup, w0: World, w: World, a: Step)
    requires Gets(k, w0, w) && Can(k, w, a)
    ensures Gets(k, w0, Does(k, w, a))
  {
    hide Inv, ValidSetup, Free, Reaches, Can, Does;
    MovePeople.StepInv(k, w, a);
    Then(k, w0, w, a);
  }

  lemma Ticked(k: Setup, w0: World, w: World, e: TickStep)
    requires Gets(k, w0, w) && TickCan(k, w, e)
    ensures Gets(k, w0, TickDoes(k, w, e))
  {
    hide Gets, TickCan, TickDoes;
    Goes(k, w0, w, Ticks(e));
  }

  /** What is known along the way. */
  lemma Underway(k: Setup, w0: World, w: World)
    requires Gets(k, w0, w) && w.rec.Some? && w.rec.value.status == Running
    ensures !w.landed && !w.released && w.src.present && SourceOk(k, w.src, w.bucket) && DestOk(k, w)
    ensures w.tick.Idle? ==> RecOk(k, w, w.rec.value)
    ensures w.tick.Busy? ==> RecOk(k, w, w.tick.m) && |w.tick.m.claims| == |k.claims| && PcOk(k, w, w.tick.m, w.tick.pc)
    ensures Free(k) && ValidSetup(k)
  {
    hide SourceOk, DestOk, RecOk, PcOk, PeopleOk, Reaches, ValidSetup;
    if w.tick.Busy? {
      MoveTicks.TickFacts(k, w);
    }
  }

  ghost predicate Makes(k: Setup, w: World, e: TickStep, w': World) { TickCan(k, w, e) && TickDoes(k, w, e) == w' }

  lemma TickedTo(k: Setup, w0: World, w: World, e: TickStep, w': World)
    requires Gets(k, w0, w) && Makes(k, w, e, w')
    ensures Gets(k, w0, w')
  {
    hide Gets, TickCan, TickDoes;
    Ticked(k, w0, w, e);
  }

  /** The step of the call coming next. */
  lemma TheStep(k: Setup, w: World)
    ensures CanGetClaim(k, w) ==> Makes(k, w, GetsClaim(false), TickGetsClaim(k, w, false))
    ensures CanPostClaim(k, w) ==> Makes(k, w, PostsClaim(false), TickPostsClaim(k, w, false))
    ensures CanSeeVolume(k, w) ==> Makes(k, w, SeesVolume, TickSeesVolume(k, w))
  {
    hide CanGetClaim, CanPostClaim, CanSeeVolume, TickGetsClaim, TickPostsClaim, TickSeesVolume;
  }

  lemma TheCreatingStep(k: Setup, w: World)
    ensures CanGetObject(k, w, false) ==> Makes(k, w, GetsObject(false), TickGetsObject(w, false))
    ensures CanPostObject(w) ==> Makes(k, w, PostsObject(false), TickPostsObject(k, w, false))
    ensures CanStart(w, false) ==> Makes(k, w, CallsStart(false), TickStarts(w, false))
  {
    hide CanGetObject, CanPostObject, CanStart, TickGetsObject, TickPostsObject, TickStarts;
  }

  lemma TheBackupsStep(k: Setup, w: World, done: set<Name>)
    requires CanSeeBackups(w, done, 50)
    ensures Makes(k, w, SeesBackups(done, 50), TickSeesBackups(w, done, 50))
  {
    hide TickSeesBackups;
  }

  lemma Stored1(k: Setup, w0: World, w: World, phase: Phase) returns (v: World)
    requires Gets(k, w0, w) && Works(w, End, phase)
    ensures Gets(k, w0, v) && Rests(v, phase)
  {
    hide Gets;
    var e := Stores(w.rec.value.updatedAt);
    assert TickCan(k, w, e);
    Ticked(k, w0, w, e);
    v := TickDoes(k, w, e);
  }

  lemma Read(k: Setup, w0: World, w: World, phase: Phase) returns (v: World)
    requires Gets(k, w0, w) && Rests(w, phase)
    ensures Gets(k, w0, v) && Works(v, Begin, phase)
  {
    hide Gets;
    Ticked(k, w0, w, Reads);
    v := TickDoes(k, w, Reads);
  }

  // ------------------------------------------------------------- the source comes to rest

  lemma Joins1(k: Setup, w0: World, w: World) returns (v: World)
    requires Gets(k, w0, w) && Rests(w, Joining)
    ensures Gets(k, w0, v) && Rests(v, Quiescing)
  {
    hide Gets;
    var u := Read(k, w0, w, Joining);
    Ticked(k, w0, u, Joins);
    v := Stored1(k, w0, TickDoes(k, u, Joins), Quiescing);
  }

  lemma Stops(k: Setup, w0: World, w: World) returns (v: World)
    requires Gets(k, w0, w) && Works(w, Begin, Quiescing)
    ensures Gets(k, w0, v) && Works(v, AskStatus, Quiescing)
  {
    Underway(k, w0, w);
    hide Gets, SourceOk, DestOk, RecOk, PcOk;
    Ticked(k, w0, w, CallsQuiesce(false));
    v := TickDoes(k, w, CallsQuiesce(false));
  }

  lemma AsksStopped(k: Setup, w0: World, w: World)
    requires Gets(k, w0, w) && Works(w, AskStatus, Quiescing)
    ensures w.src.present && Stopped(RunStateOf(w.src.spec))
  {
    Underway(k, w0, w);
    hide Gets, DestOk, BackupsAtRest;
  }

  lemma {:induction false} Drains(k: Setup, w0: World, w: World) returns (v: World)
    requires Gets(k, w0, w) && Works(w, AskStatus, Quiescing)
    ensures Gets(k, w0, v) && Works(v, AskStatus, Quiescing) && v.src.pods == 0 && v.src.present
    decreases w.src.pods
  {
    AsksStopped(k, w0, w);
    hide Gets, Stopped;
    v := w;
    if w.src.pods > 0 {
      Goes(k, w0, w, Cluster(PodGoes));
      v := Drains(k, w0, ClusterDoes(k, w, PodGoes));
    }
  }

  lemma Quiesces1(k: Setup, w0: World, w: World) returns (v: World)
    requires Gets(k, w0, w) && Rests(w, Quiescing)
    ensures Gets(k, w0, v) && Rests(v, BackingUp)
  {
    hide Gets;
    v := Read(k, w0, w, Quiescing);
    v := Stops(k, w0, v);
    v := Drains(k, w0, v);
    Ticked(k, w0, v, SeesPods);
    v := Stored1(k, w0, TickDoes(k, v, SeesPods), BackingUp);
  }

  // ------------------------------------------------------------- it is backed up

  lemma {:induction false} Unused(used: set<nat>, n: nat) returns (b: nat)
    ensures b !in used && b >= n
    decreases |used|
  {
    b := n;
    if n in used {
      b := Unused(used - {n}, n + 1);
    }
  }

  /** New backups of the first n claims that have none. */
  lemma {:induction false} Choose(k: Setup, s: Source, bucket: Bucket, n: nat) returns (made: map<Name, nat>)
    requires ValidSetup(k) && n <= |k.claims| && forall i :: 0 <= i < |k.claims| ==> k.claims[i] in s.data
    ensures FreshBackups(s, bucket, k.claims, made)
    ensures forall i :: 0 <= i < n ==> k.claims[i] in s.backups || k.claims[i] in made
  {
    made := map[];
    if n > 0 {
      made := Choose(k, s, bucket, n - 1);
      var c := k.claims[n - 1];
      if c !in s.backups && c !in made {
        var b := Unused(bucket.Keys + made.Values, 0);
        var more := made[c := b];
        assert forall d :: d in made ==> made[d] in made.Values;
        assert FreshBackups(s, bucket, k.claims, more);
        made := more;
      }
    }
  }

  lemma BacksUp(k: Setup, w0: World, w: World) returns (v: World)
    requires Gets(k, w0, w) && Works(w, Begin, BackingUp)
    ensures Gets(k, w0, v) && Works(v, AskBackups, BackingUp)
  {
    Underway(k, w0, w);
    AtRest(k, w, w.tick.m);
    var made: map<Name, nat> := map[];
    if !w.tick.m.backedUp {
      made := Choose(k, w.src, w.bucket, |k.claims|);
    }
    hide Gets, SourceOk, DestOk, RecOk, PcOk, ValidSetup, FreshBackups, Stored, NameBackups;
    Ticked(k, w0, w, CallsBackup(made, false));
    v := TickDoes(k, w, CallsBackup(made, false));
  }

  lemma AtRest(k: Setup, w: World, m: Record)
    requires RecOk(k, w, m) && SourceOk(k, w.src, w.bucket) && !w.released && m.phase == BackingUp
    ensures w.src.origin.Some? && w.src.pods == 0 && |m.claims| == |k.claims|
    ensures forall i :: 0 <= i < |k.claims| ==> k.claims[i] in w.src.data
    ensures m.backedUp ==> forall i :: 0 <= i < |k.claims| ==> k.claims[i] in w.src.backups
  {
  }

  lemma BacksUp1(k: Setup, w0: World, w: World) returns (v: World)
    requires Gets(k, w0, w) && Rests(w, BackingUp)
    ensures Gets(k, w0, v) && Rests(v, Syncing)
  {
    hide Gets, TickDoes, TickCan;
    v := Read(k, w0, w, BackingUp);
    v := BacksUp(k, w0, v);
    v := AllDone(k, w0, v);
    v := Stored1(k, w0, v, Syncing);
  }

  lemma AllDone(k: Setup, w0: World, w: World) returns (v: World)
    requires Gets(k, w0, w) && Works(w, AskBackups, BackingUp)
    ensures Gets(k, w0, v) && Works(v, End, Syncing)
  {
    hide Gets, Makes;
    var done := EveryBackup(k, w0, w);
    TheBackupsStep(k, w, done);
    TickedTo(k, w0, w, SeesBackups(done, 50), TickSeesBackups(w, done, 50));
    v := TickSeesBackups(w, done, 50);
  }

  lemma EveryBackup(k: Setup, w0: World, w: World) returns (done: set<Name>)
    requires Gets(k, w0, w) && Works(w, AskBackups, BackingUp)
    ensures CanSeeBackups(w, done, 50) && |done| == |w.tick.m.claims|
  {
    Underway(k, w0, w);
    AtRest(k, w, w.tick.m);
    done := set i | 0 <= i < |k.claims| :: k.claims[i];
    MoveTicks.DistinctCount(k.claims);
    hide Gets, SourceOk, DestOk, RecOk;
  }

  lemma Readable(k: Setup, w: World, m: Record)
    requires RecOk(k, w, m) && SourceOk(k, w.src, w.bucket) && !w.released && m.phase == Syncing
    ensures BackupsReadable(w, m)
  {
  }

  lemma Syncs1(k: Setup, w0: World, w: World) returns (v: World)
    requires Gets(k, w0, w) && Rests(w, Syncing)
    ensures Gets(k, w0, v) && Rests(v, Restoring)
  {
    var u := Read(k, w0, w, Syncing);
    Underway(k, w0, u);
    Readable(k, u, u.tick.m);
    hide Gets, SourceOk, DestOk, RecOk, PcOk, ValidSetup, BackupsReadable;
    Ticked(k, w0, u, Syncs(true));
    v := Stored1(k, w0, TickDoes(k, u, Syncs(true)), Restoring);
  }

  // ------------------------------------------------------------- its claims are restored

  predicate Restoring1(w: World, i: nat, n: nat) {
    Works(w, if i < n then RestoreGet(i) else CheckRestored(0), Restoring)
  }

  lemma OursIfHere(k: Setup, w0: World, w: World, o: Key)
    requires Gets(k, w0, w) && w.rec.Some? && w.rec.value.status == Running
    ensures o in w.dest ==> Ours(k, w, o) || o in k.before
    ensures Workload !in k.before && forall i :: 0 <= i < |k.claims| ==> Pvc(k.claims[i]) !in k.before
  {
    Underway(k, w0, w);
    MoveTicks.OursIsOwn(k, w, o);
    hide Gets, SourceOk, DestOk, RecOk, ValidSetup, Ours;
  }

  lemma GetsOne(k: Setup, w0: World, w: World, i: nat) returns (v: World)
    requires Gets(k, w0, w) && i < |k.claims| && Works(w, RestoreGet(i), Restoring)
    ensures Gets(k, w0, v) && (Works(v, RestorePost(i), Restoring) || Restoring1(v, i + 1, |k.claims|))
    ensures v.tick.pc == RestorePost(i) ==> Pvc(k.claims[i]) !in v.dest
  {
    hide Gets, Ours, Makes;
    Rows(k, w0, w);
    OursIfHere(k, w0, w, Pvc(k.claims[i]));
    TheStep(k, w);
    TickedTo(k, w0, w, GetsClaim(false), TickGetsClaim(k, w, false));
    v := TickGetsClaim(k, w, false);
  }

  lemma PostsOne(k: Setup, w0: World, w: World, i: nat) returns (v: World)
    requires Gets(k, w0, w) && i < |k.claims| && Works(w, RestorePost(i), Restoring) && Pvc(k.claims[i]) !in w.dest
    ensures Gets(k, w0, v) && Restoring1(v, i + 1, |k.claims|)
  {
    Underway(k, w0, w);
    IsNamed(k, w, w.tick.m);
    hide Gets, SourceOk, DestOk, RecOk, PcOk, ValidSetup, Makes;
    TheStep(k, w);
    TickedTo(k, w0, w, PostsClaim(false), TickPostsClaim(k, w, false));
    v := TickPostsClaim(k, w, false);
  }

  lemma IsNamed(k: Setup, w: World, m: Record)
    requires RecOk(k, w, m) && m.phase == Restoring
    ensures Named(m)
  {
  }

  lemma {:induction false} MakesClaims(k: Setup, w0: World, w: World, i: nat) returns (v: World)
    requires Gets(k, w0, w) && i <= |k.claims| && Restoring1(w, i, |k.claims|)
    ensures Gets(k, w0, v) && Works(v, CheckRestored(0), Restoring)
    decreases |k.claims| - i
  {
    hide Gets;
    v := w;
    if i < |k.claims| {
      v := GetsOne(k, w0, w, i);
      if v.tick.pc == RestorePost(i) {
        v := PostsOne(k, w0, v, i);
      }
      v := MakesClaims(k, w0, v, i + 1);
    }
  }

  /** The first n claims here are filled. */
  predicate FilledUpTo(k: Setup, w: World, n: nat)
    requires n <= |k.claims|
  {
    forall i :: 0 <= i < n ==> Filled(w, k.claims[i])
  }

  lemma {:induction false} Fills(k: Setup, w0: World, w: World, n: nat) returns (v: World)
    requires Gets(k, w0, w) && Works(w, CheckRestored(0), Restoring) && n <= |k.claims|
    ensures Gets(k, w0, v) && Works(v, CheckRestored(0), Restoring) && FilledUpTo(k, v, n)
  {
    hide Gets;
    v := w;
    if n > 0 {
      v := Fills(k, w0, w, n - 1);
      v := FillsOne(k, w0, v, n - 1);
    }
  }

  lemma FillsOne(k: Setup, w0: World, w: World, n: nat) returns (v: World)
    requires Gets(k, w0, w) && Works(w, CheckRestored(0), Restoring) && n < |k.claims| && FilledUpTo(k, w, n)
    ensures Gets(k, w0, v) && Works(v, CheckRestored(0), Restoring) && FilledUpTo(k, v, n + 1)
  {
    hide Gets, Ours;
    OwnVolume(k, w0, w, n);
    var a := VolumeFills(k.claims[n]);
    Goes(k, w0, w, Cluster(a));
    v := ClusterDoes(k, w, a);
  }

  lemma OwnVolume(k: Setup, w0: World, w: World, n: nat)
    requires Gets(k, w0, w) && Works(w, CheckRestored(0), Restoring) && n < |k.claims|
    ensures Ours(k, w, Pvc(k.claims[n])) && w.dest[Pvc(k.claims[n])].body.Volume?
  {
    Underway(k, w0, w);
    hide Gets, SourceOk, RecOk, ValidSetup;
    assert OwnOk(k, w, Pvc(k.claims[n]));
  }

  /** The first n rows say so. */
  predicate SaidUpTo(w: World, n: nat) {
    w.tick.Busy? && n <= |w.tick.m.claims| && forall i :: 0 <= i < n ==> w.tick.m.claims[i].restored
  }

  lemma {:induction false} SeesAll(k: Setup, w0: World, w: World, n: nat) returns (v: World)
    requires Gets(k, w0, w) && Works(w, CheckRestored(0), Restoring) && FilledUpTo(k, w, |k.claims|) && n <= |k.claims|
    ensures Gets(k, w0, v) && Works(v, CheckRestored(n), Restoring) && FilledUpTo(k, v, |k.claims|) && SaidUpTo(v, n)
  {
    hide Gets;
    v := w;
    if n > 0 {
      v := SeesAll(k, w0, w, n - 1);
      v := SeesOne(k, w0, v, n - 1);
    }
  }

  lemma SeesOne(k: Setup, w0: World, w: World, n: nat) returns (v: World)
    requires Gets(k, w0, w) && n < |k.claims| && Works(w, CheckRestored(n), Restoring)
    requires FilledUpTo(k, w, |k.claims|) && SaidUpTo(w, n)
    ensures Gets(k, w0, v) && Works(v, CheckRestored(n + 1), Restoring)
    ensures FilledUpTo(k, v, |k.claims|) && SaidUpTo(v, n + 1)
  {
    hide Gets, Filled, Makes;
    Rows(k, w0, w);
    TheStep(k, w);
    TickedTo(k, w0, w, SeesVolume, TickSeesVolume(k, w));
    v := TickSeesVolume(k, w);
    SameFilled(w, v);
  }

  lemma Rows(k: Setup, w0: World, w: World)
    requires Gets(k, w0, w) && w.rec.Some? && w.rec.value.status == Running && w.tick.Busy?
    ensures RowsFit(k, w)
  {
    hide Gets, SourceOk, DestOk, RecOk, PcOk, ValidSetup;
    Underway(k, w0, w);
  }

  lemma SameFilled(w: World, v: World)
    requires v.dest == w.dest
    ensures forall c :: Filled(v, c) <==> Filled(w, c)
  {
  }

  lemma BeginsClaims(k: Setup, w0: World, w: World) returns (v: World)
    requires Gets(k, w0, w) && Rests(w, Restoring)
    ensures Gets(k, w0, v) && Restoring1(v, 0, |k.claims|)
  {
    hide Gets;
    var u := Read(k, w0, w, Restoring);
    Ticked(k, w0, u, BeginsRestore);
    v := TickDoes(k, u, BeginsRestore);
  }

  lemma EndsClaims(k: Setup, w0: World, w: World) returns (v: World)
    requires Gets(k, w0, w) && Works(w, CheckRestored(|k.claims|), Restoring) && SaidUpTo(w, |k.claims|)
    ensures Gets(k, w0, v) && Rests(v, Creating)
  {
    Underway(k, w0, w);
    hide Gets, SourceOk, DestOk, RecOk, PcOk, ValidSetup;
    Ticked(k, w0, w, SeesVolumes(85));
    v := Stored1(k, w0, TickDoes(k, w, SeesVolumes(85)), Creating);
  }

  lemma Restores1(k: Setup, w0: World, w: World) returns (v: World)
    requires Gets(k, w0, w) && Rests(w, Restoring)
    ensures Gets(k, w0, v) && Rests(v, Creating)
  {
    hide *;
    v := BeginsClaims(k, w0, w);
    v := MakesClaims(k, w0, v, 0);
    v := Fills(k, w0, v, |k.claims|);
    v := SeesAll(k, w0, v, |k.claims|);
    v := EndsClaims(k, w0, v);
  }

  // ------------------------------------------------------------- it is created and started

  const ONLY := [Workload]

  lemma Defines(k: Setup, w0: World, w: World) returns (v: World)
    requires Gets(k, w0, w) && Rests(w, Creating)
    ensures Gets(k, w0, v) && v.tick.Busy? && v.tick.pc.CreateGet? &&
      Works(v, CreateGet(ONLY, 0, v.tick.pc.origin), Creating)
  {
    var u := Read(k, w0, w, Creating);
    Underway(k, w0, u);
    hide Gets, SourceOk, DestOk, RecOk, PcOk, ValidSetup;
    Ticked(k, w0, u, GetsDefinition([]));
    v := TickDoes(k, u, GetsDefinition([]));
    assert [] + [Workload] == ONLY;
  }

  lemma Creates(k: Setup, w0: World, w: World) returns (v: World)
    requires Gets(k, w0, w) && w.tick.Busy? && w.tick.pc.CreateGet? &&
      Works(w, CreateGet(ONLY, 0, w.tick.pc.origin), Creating)
    ensures Gets(k, w0, v) && v.tick.Busy? && v.tick.pc.CreateGet? &&
      Works(v, CreateGet(ONLY, 1, v.tick.pc.origin), Creating)
  {
    hide Gets, Ours, StoppedCopy, Makes;
    OursIfHere(k, w0, w, Workload);
    TheCreatingStep(k, w);
    TickedTo(k, w0, w, GetsObject(false), TickGetsObject(w, false));
    v := TickGetsObject(w, false);
    if Workload !in w.dest {
      TheCreatingStep(k, v);
      TickedTo(k, w0, v, PostsObject(false), TickPostsObject(k, v, false));
      v := TickPostsObject(k, v, false);
    }
  }

  lemma Creates1(k: Setup, w0: World, w: World) returns (v: World)
    requires Gets(k, w0, w) && Rests(w, Creating)
    ensures Gets(k, w0, v) && Rests(v, Starting)
  {
    hide Gets;
    v := Defines(k, w0, w);
    v := Creates(k, w0, v);
    Ticked(k, w0, v, EndsCreating);
    v := Stored1(k, w0, TickDoes(k, v, EndsCreating), Starting);
  }

  /** A tick about to store that the move succeeded. */
  predicate AboutToLand(w: World) {
    w.tick.Busy? && w.tick.pc == End && w.tick.m.status == Succeeded && w.rec.Some? && w.rec.value.status == Running
  }

  lemma Lands(k: Setup, w0: World, w: World) returns (v: World)
    requires Gets(k, w0, w) && AboutToLand(w)
    ensures Gets(k, w0, v) && v.landed && !v.released
  {
    Underway(k, w0, w);
    hide Gets, SourceOk, DestOk, RecOk, PcOk, ValidSetup;
    Ticked(k, w0, w, Stores(w.rec.value.updatedAt));
    v := TickDoes(k, w, Stores(w.rec.value.updatedAt));
  }

  lemma OwnShape(k: Setup, w: World, m: Record)
    requires RecOk(k, w, m) && DestOk(k, w) && !w.released && m.phase == Starting
    ensures Workload in w.dest && w.dest[Workload].body.Shape?
  {
    assert OwnOk(k, w, Workload);
  }

  lemma StartsIt(k: Setup, w0: World, w: World) returns (v: World)
    requires Gets(k, w0, w) && Works(w, Begin, Starting)
    ensures Gets(k, w0, v) && (AboutToLand(v) || Works(v, AskReady, Starting))
  {
    Underway(k, w0, w);
    OwnShape(k, w, w.tick.m);
    hide Gets, SourceOk, DestOk, RecOk, PcOk, ValidSetup, Patched, Makes;
    TheCreatingStep(k, w);
    TickedTo(k, w0, w, CallsStart(false), TickStarts(w, false));
    v := TickStarts(w, false);
  }

  lemma Starts1(k: Setup, w0: World, w: World) returns (v: World)
    requires Gets(k, w0, w) && Rests(w, Starting)
    ensures Gets(k, w0, v) && v.landed && !v.released
  {
    hide Gets;
    v := Read(k, w0, w, Starting);
    v := StartsIt(k, w0, v);
    if !AboutToLand(v) {
      Ticked(k, w0, v, SeesReady(true));
      v := TickDoes(k, v, SeesReady(true));
    }
    v := Lands(k, w0, v);
  }

  // ------------------------------------------------------------- all the way

  lemma {:induction false} RunsOn(k: Setup, w0: World, w: World, phase: Phase) returns (v: World)
    requires Gets(k, w0, w) && Rests(w, phase) && phase != Done
    ensures Gets(k, w0, v) && v.landed && !v.released
    decreases 7 - Rank(phase)
  {
    hide Gets, Rests;
    match phase
    case Joining => v := Joins1(k, w0, w); v := RunsOn(k, w0, v, Quiescing);
    case Quiescing => v := Quiesces1(k, w0, w); v := RunsOn(k, w0, v, BackingUp);
    case BackingUp => v := BacksUp1(k, w0, w); v := RunsOn(k, w0, v, Syncing);
    case Syncing => v := Syncs1(k, w0, w); v := RunsOn(k, w0, v, Restoring);
    case Restoring => v := Restores1(k, w0, w); v := RunsOn(k, w0, v, Creating);
    case Creating => v := Creates1(k, w0, w); v := RunsOn(k, w0, v, Starting);
    case Starting => v := Starts1(k, w0, w);
  }

  predicate Unfinished(w: World) { w.rec.Some? && w.rec.value.status in {Running, Failed} }

  /** A crash, and a retry if the move had failed: then it is between two ticks. */
  lemma StartsOver(k: Setup, w0: World, w: World) returns (v: World)
    requires Gets(k, w0, w) && Unfinished(w)
    ensures Gets(k, w0, v) && v.rec.Some? && v.rec.value.phase != Done && Rests(v, v.rec.value.phase)
  {
    hide Gets;
    Goes(k, w0, w, Person(Crashes));
    v := PersonDoes(k, w, Crashes);
    if v.rec.value.status == Failed {
      Goes(k, w0, v, Person(Retries(0)));
      v := PersonDoes(k, v, Retries(0));
    }
    Underway(k, w0, v);
    NotDone(k, v);
  }

  lemma NotDone(k: Setup, w: World)
    requires w.rec.Some? && w.rec.value.status == Running && RecOk(k, w, w.rec.value)
    ensures w.rec.value.phase != Done
  {
  }

  lemma LandsFrom(k: Setup, w: World)
    requires ValidSetup(k) && Free(k) && Inv(k, w) && Unfinished(w)
    ensures CanLand(k, w)
  {
    Stays(k, w);
    hide Inv, ValidSetup, Free, Reaches, Unfinished, Rests;
    var v := StartsOver(k, w, w);
    v := RunsOn(k, w, v, v.rec.value.phase);
  }

  // ------------------------------------------------------------- and only then

  /** What landing takes, in the step that does it. */
  lemma LandingStep(k: Setup, w: World, a: Step)
    requires ValidSetup(k) && Inv(k, w) && Can(k, w, a) && !w.landed && Does(k, w, a).landed
    ensures Unfinished(w) && Free(k)
  {
    MovePeople.StepInv(k, w, a);
    var w' := Does(k, w, a);
    LandingRuns(k, w, a);
    NotPutBack(k, w, a);
    hide Can, Does, SourceOk, DestOk, TickOk, StoredOk, PeopleOk, ValidSetup;
    assert Complete(k, w');
  }

  lemma LandingRuns(k: Setup, w: World, a: Step)
    requires Can(k, w, a) && !w.landed && Does(k, w, a).landed
    ensures a.Ticks? && a.e.Stores? && w.rec.Some? && w.rec.value.status == Running
    ensures Does(k, w, a).released == w.released
  {
    hide TickDoes, TickCan, PersonDoes, PersonCan;
  }

  lemma NotPutBack(k: Setup, w: World, a: Step)
    requires Inv(k, w) && w.rec.Some? && w.rec.value.status == Running
    ensures !w.released
  {
    hide SourceOk, DestOk, TickOk, PeopleOk, LandedOk, RecOk;
  }

  lemma {:induction false} LandsOnly(k: Setup, ws: seq<World>, acts: seq<Step>, n: nat)
    requires ValidSetup(k) && Follows(k, ws, acts) && n < |ws| && Inv(k, ws[0]) && !ws[0].landed
    ensures Inv(k, ws[n])
    ensures ws[n].landed ==> Free(k) && Unfinished(ws[0])
    ensures !ws[n].landed && Unfinished(ws[n]) ==> Unfinished(ws[0])
  {
    hide *;
    if n > 0 {
      FollowsAt(k, ws, acts, n);
      LandsOnly(k, ws, acts, n - 1);
      MovePeople.StepInv(k, ws[n - 1], acts[n - 1]);
      if !ws[n - 1].landed {
        if ws[n].landed {
          LandingStep(k, ws[n - 1], acts[n - 1]);
        } else {
          SettledStays(k, ws[n - 1], acts[n - 1]);
        }
      }
    }
  }

  lemma SettledStays(k: Setup, w: World, a: Step)
    requires Inv(k, w) && Can(k, w, a) && !w.landed
    ensures Unfinished(Does(k, w, a)) ==> Unfinished(w)
  {
    IsSettled(k, w);
    hide Inv, Can, Does;
    if MoveTheorems.Settled(w) {
      MoveTheorems.SettledStep(k, w, a);
    }
  }

  lemma IsSettled(k: Setup, w: World)
    requires Inv(k, w) && !w.landed
    ensures Unfinished(w) <==> !MoveTheorems.Settled(w)
  {
    hide SourceOk, DestOk, TickOk, PeopleOk, LandedOk, RecOk;
  }

  /** A move that has not landed can still be brought to its end exactly when its record runs
      or has failed, and nothing stood at the destination where its workload and its claims
      go.  So a crash, a lost reply, a refusal or a put-back that died before its first store
      never makes a move impossible. */
  lemma CanAlwaysFinish(k: Setup, w: World)
    requires ValidSetup(k) && Inv(k, w) && !w.landed
    ensures CanLand(k, w) <==> Free(k) && Unfinished(w)
  {
    hide Inv, ValidSetup, Free, Reaches, Unfinished;
    if CanLand(k, w) {
      var v :| Reaches(k, w, v) && v.landed;
      LandedFrom(k, w, v);
    }
    if Free(k) && Unfinished(w) {
      LandsFrom(k, w);
    }
  }

  lemma LandedFrom(k: Setup, w: World, v: World)
    requires ValidSetup(k) && Inv(k, w) && !w.landed && Reaches(k, w, v) && v.landed
    ensures Free(k) && Unfinished(w)
  {
    var ws, acts :| Follows(k, ws, acts) && ws[0] == w && ws[|ws| - 1] == v;
    hide Inv, ValidSetup, Free, Unfinished;
    LandsOnly(k, ws, acts, |ws| - 1);
  }

  /** A fresh move in particular. */
  lemma FreshCanFinish(k: Setup, w: World)
    requires Init(k, w)
    ensures CanLand(k, w) <==> Free(k)
  {
    InitInv(k, w);
    hide Inv, ValidSetup, Free, CanLand;
    CanAlwaysFinish(k, w);
  }

  /** A move that runs or has failed is never cleared from the list: its workload is stopped
      at the source, and only a put-back or its success lets it be. */
  lemma NeverCleared(k: Setup, ws: seq<World>, acts: seq<Step>, n: nat)
    requires Run(k, ws, acts) && n < |acts| && n + 1 < |ws| && Unfinished(ws[n])
    ensures ws[n + 1].rec.Some?
    ensures ws[n + 1].rec.value.status == Cancelled ==> acts[n].Person? && acts[n].p.Abandons?
  {
    hide Run, Inv, ValidSetup;
    MovePeople.RunStep(k, ws, acts, n);
    StaysListed(k, ws[n], acts[n]);
  }

  predicate Listed(w: World, a: Step) {
    w.rec.Some? && (w.rec.value.status == Cancelled ==> a.Person? && a.p.Abandons?)
  }

  lemma StaysListed(k: Setup, w: World, a: Step)
    requires Inv(k, w) && Can(k, w, a) && Unfinished(w)
    ensures Listed(Does(k, w, a), a)
  {
    FinishIsDone(k, w);
    hide Inv, TickDoes, TickCan, PersonDoes, PersonCan, ClusterDoes, ClusterCan;
    match a
    case Cluster(c) => ClusterKeepsRecord(k, w, c);
    case Ticks(e) => TickListed(k, w, e);
    case Person(p) => PersonListed(k, w, p);
  }

  lemma ClusterKeepsRecord(k: Setup, w: World, c: ClusterStep)
    requires ClusterCan(k, w, c)
    ensures ClusterDoes(k, w, c).rec == w.rec
  {
    hide Ours;
  }

  lemma TickListed(k: Setup, w: World, e: TickStep)
    requires Inv(k, w) && TickCan(k, w, e) && Unfinished(w)
    ensures Listed(TickDoes(k, w, e), Ticks(e))
  {
    if w.tick.Busy? {
      MoveTicks.TickFacts(k, w);
    }
    hide Inv, TickDoes, TickCan, SourceOk, DestOk, RecOk, PcOk;
  }

  lemma PersonListed(k: Setup, w: World, p: PersonStep)
    requires PersonCan(k, w, p) && Unfinished(w) && forall t :: t in w.people ==> !w.people[t].Finish?
    ensures Listed(PersonDoes(k, w, p), Person(p))
  {
    hide Undoes, AbandonNext, AbandonDeletes, AbandonCan;
  }

  /** Nobody is finishing a move that has not landed. */
  lemma FinishIsDone(k: Setup, w: World)
    requires Inv(k, w) && Unfinished(w)
    ensures forall t :: t in w.people ==> !w.people[t].Finish?
  {
    hide SourceOk, DestOk, TickOk, RecOk, LandedOk;
    forall t | t in w.people ensures !w.people[t].Finish? {
      assert ThreadOk(k, w, w.people[t]);
    }
  }

  // ------------------------------------------------------------- clearing up at the source

  /** A move that landed, and was not put back, can always be finished: the source agrees to
      remove what it stopped, with its claims if they are to go too, and the record says so. */
  lemma FinishEnds(k: Setup, w: World, t: nat, volumes: bool) returns (v: World)
    requires ValidSetup(k) && Inv(k, w) && w.landed && !w.released && w.src.present && t !in w.people
    requires w.rec.Some? && w.rec.value.status == Succeeded && !w.rec.value.sourceRemoved
    ensures Reaches(k, w, v) && Inv(k, v) && !v.src.present && (v.src.volumes <==> w.src.volumes && !volumes)
    ensures v.rec.Some? && v.rec.value.sourceRemoved && v.rec.value.status == Succeeded && v.dest == w.dest
  {
    hide Inv, ValidSetup, Reaches, TickCan, TickDoes, ClusterCan, ClusterDoes, AbandonCan, AbandonDoes, Undoes;
    hide CanRemove;
    AtRestWhenLanded(k, w);
    Stays(k, w);
    var u := Asks(k, w, w, Person(BeginsFinish(t)));
    var x := Asks(k, w, u, Person(Removes(t, volumes)));
    v := Asks(k, w, x, Person(StoresRemoved(t, 0)));
  }

  lemma Asks(k: Setup, w0: World, w: World, a: Step) returns (v: World)
    requires ValidSetup(k) && Inv(k, w) && Reaches(k, w0, w) && Can(k, w, a)
    ensures v == Does(k, w, a) && Inv(k, v) && Reaches(k, w0, v)
  {
    hide Inv, ValidSetup, Reaches, Can, Does;
    v := Does(k, w, a);
    MovePeople.StepInv(k, w, a);
    Then(k, w0, w, a);
  }

  lemma AtRestWhenLanded(k: Setup, w: World)
    requires Inv(k, w) && w.landed && !w.released && w.src.present
    ensures CanRemove(w.src)
  {
    hide SourceOk, DestOk, TickOk, StoredOk, PeopleOk, Complete;
  }
}
