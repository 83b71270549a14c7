/** The engine's steps keep the invariant. */
module MoveTicks {
  import opened Options
  import opened MoveSource
  import opened MoveProtocol
  import opened MoveSafety

  /** A step of the handler that only changes the copy and where the tick stands. */
  lemma LocalStep(k: Setup, w: World, m: Record, pc: Pc)
    requires Inv(k, w) && w.tick.Busy?
    requires RecOk(k, w, m) && PcOk(k, w, m, pc)
    requires m.status != Cancelled && (pc != End ==> m.status == Running)
    requires Rank(w.tick.m.phase) <= Rank(m.phase) && w.tick.m.progress <= m.progress
    ensures Inv(k, Next(w, m, pc))
  {
    var w' := Next(w, m, pc);
    assert Grows(k, w, w');
    Kept(k, w, w');
    RecGrows(k, w, w', m);
    PcGrows(k, w, w', m, pc);
    forall o | o in w'.dest && o !in k.before
      ensures OwnOk(k, w', o)
    {
      assert OwnOk(k, w, o);
    }
  }

  /** A call that changed a cluster, then the copy. */
  lemma EffectStep(k: Setup, w: World, v: World, m: Record, pc: Pc)
    requires Inv(k, w) && w.tick.Busy?
    requires v.tick == w.tick && Quiet(w, v) && Grows(k, w, v) && SourceOk(k, v.src, v.bucket) && DestOk(k, v)
    requires RecOk(k, v, m) && PcOk(k, v, m, pc)
    requires m.status != Cancelled && (pc != End ==> m.status == Running)
    requires Rank(w.tick.m.phase) <= Rank(m.phase) && w.tick.m.progress <= m.progress
    ensures Inv(k, Next(v, m, pc))
  {
    TickKept(k, w, v);
    Kept(k, w, v);
    LocalStep(k, v, m, pc);
  }

  /** What the invariant says of a tick in flight. */
  lemma TickFacts(k: Setup, w: World)
    requires Inv(k, w) && w.tick.Busy?
    ensures RecOk(k, w, w.tick.m) && |w.tick.m.claims| == |k.claims| && PcOk(k, w, w.tick.m, w.tick.pc)
    ensures !w.landed && w.tick.m.status != Cancelled && w.tick.m.progress <= 100
    ensures w.tick.pc != End ==> w.tick.m.status == Running
    ensures SourceOk(k, w.src, w.bucket) && DestOk(k, w)
  {
  }

  /** A fault touches the status and the failure count only. */
  lemma FaultedOk(k: Setup, w: World, m: Record, f: Fault)
    requires RecOk(k, w, m) && m.status == Running
    ensures RecOk(k, w, Faulted(m, f)) && Faulted(m, f).status in {Running, Failed}
    ensures Faulted(m, f).phase == m.phase && Faulted(m, f).progress == m.progress
  {
  }

  lemma LostStep(k: Setup, w: World, v: World, m: Record)
    requires Inv(k, w) && w.tick.Busy? && m.status == Running
    requires v.tick == w.tick && Quiet(w, v) && Grows(k, w, v) && SourceOk(k, v.src, v.bucket) && DestOk(k, v)
    requires RecOk(k, v, m)
    requires Rank(w.tick.m.phase) <= Rank(m.phase) && w.tick.m.progress <= m.progress
    ensures Inv(k, Lost(v, m))
  {
    FaultedOk(k, v, m, Unreachable);
    EffectStep(k, w, v, Faulted(m, Unreachable), End);
  }

  // ------------------------------------------------------------- one lemma a call

  lemma QuiesceEffect(k: Setup, w: World, m: Record)
    requires SourceOk(k, w.src, w.bucket) && DestOk(k, w) && RecOk(k, w, m) && m.phase == Quiescing
    requires !w.landed && w.src.present
    ensures var v := w.(src := Quiesce(w.src));
      SourceOk(k, v.src, v.bucket) && DestOk(k, v) && Grows(k, w, v) && Quiet(w, v)
    ensures RecOk(k, w.(src := Quiesce(w.src)), m) && RecOk(k, w.(src := Quiesce(w.src)), m.(quiesced := true))
  {
    var v := w.(src := Quiesce(w.src));
    forall o | o in v.dest && o !in k.before
      ensures OwnOk(k, v, o)
    {
      assert OwnOk(k, w, o);
    }
    RecGrows(k, w, v, m);
  }

  lemma QuiesceInv(k: Setup, w: World, lost: bool)
    requires ValidSetup(k) && Inv(k, w) && CanQuiesce(w, lost)
    ensures Inv(k, TickQuiesces(w, lost))
  {
    hide Inv, TickOk, StoredOk, PeopleOk, LandedOk, Handles, SourceOk, DestOk, RecOk, Grows, Quiet, Quiesce, Rank;
    TickFacts(k, w);
    var m := w.tick.m;
    if m.quiesced {
      ClaimRows(k, w, m);
      LocalStep(k, w, m, AskStatus);
    } else {
      var v := w.(src := Quiesce(w.src));
      QuiesceEffect(k, w, m);
      ClaimRows(k, v, m.(quiesced := true));
      if lost {
        LostStep(k, w, v, m);
      } else {
        EffectStep(k, w, v, m.(quiesced := true), AskStatus);
      }
    }
  }

  lemma BackupAtRest(k: Setup, s: Source, bucket: Bucket, made: map<Name, nat>)
    requires SourceOk(k, s, bucket) && CanBackup(s) && FreshBackups(s, bucket, k.claims, made)
    ensures SourceOk(k, Backup(s, made), Stored(s, bucket, made))
  {
    var s', bucket' := Backup(s, made), Stored(s, bucket, made);
    StoredKeepsContent(s, bucket, k.claims, made);
    hide Stored;
    forall c | c in s'.backups
      ensures c in k.claims && c in s'.data && s'.backups[c] in bucket' && bucket'[s'.backups[c]] == s'.data[c]
    {
      if c in made {
        assert s'.backups[c] == made[c];
      } else {
        assert c in s.backups && s'.backups[c] == s.backups[c];
      }
    }
  }

  /** More backups recorded, nothing else: everything told so far still holds. */
  lemma MoreBackups(k: Setup, w: World, v: World)
    requires DestOk(k, w) && v == w.(src := w.src.(backups := v.src.backups), bucket := v.bucket)
    requires forall c :: c in w.src.backups ==> c in v.src.backups && v.src.backups[c] == w.src.backups[c]
    requires !w.landed
    ensures DestOk(k, v) && Grows(k, w, v) && Quiet(w, v)
  {
    forall o | o in v.dest && o !in k.before
      ensures OwnOk(k, v, o)
    {
      assert OwnOk(k, w, o);
    }
  }

  lemma NamedOk(k: Setup, w: World, m: Record)
    requires RecOk(k, w, m) && m.phase == BackingUp
    requires forall i :: 0 <= i < |k.claims| ==> k.claims[i] in w.src.backups
    ensures RecOk(k, w, m.(claims := NameBackups(k, m.claims, w.src.backups), backedUp := true))
  {
  }

  lemma BackupEffect(k: Setup, w: World, made: map<Name, nat>, v: World)
    requires SourceOk(k, w.src, w.bucket) && DestOk(k, w) && !w.landed
    requires CanBackup(w.src) && FreshBackups(w.src, w.bucket, k.claims, made)
    requires v == w.(src := Backup(w.src, made), bucket := Stored(w.src, w.bucket, made))
    ensures SourceOk(k, v.src, v.bucket) && DestOk(k, v) && Grows(k, w, v) && Quiet(w, v)
  {
    BackupAtRest(k, w.src, w.bucket, made);
    assert forall c :: c in w.src.backups ==> c in v.src.backups && v.src.backups[c] == w.src.backups[c];
    hide *;
    MoreBackups(k, w, v);
  }

  lemma BackupCallInv(k: Setup, w: World, v: World)
    requires Inv(k, w) && w.tick.Busy? && RowsFit(k, w)
    requires w.tick.m.phase == BackingUp && w.tick.pc == Begin
    requires v.tick == w.tick && Quiet(w, v) && Grows(k, w, v) && SourceOk(k, v.src, v.bucket) && DestOk(k, v)
    ensures Inv(k, Lost(v, w.tick.m))
    ensures (forall i :: 0 <= i < |k.claims| ==> k.claims[i] in v.src.backups) ==>
      Inv(k, Next(v, w.tick.m.(claims := NameBackups(k, w.tick.m.claims, v.src.backups), backedUp := true), AskBackups))
  {
    hide Inv, TickOk, StoredOk, PeopleOk, LandedOk, Handles, DestOk, SourceOk;
    TickFacts(k, w);
    var m := w.tick.m;
    RecGrows(k, w, v, m);
    LostStep(k, w, v, m);
    if forall i :: 0 <= i < |k.claims| ==> k.claims[i] in v.src.backups {
      NamedOk(k, v, m);
      EffectStep(k, w, v, m.(claims := NameBackups(k, m.claims, v.src.backups), backedUp := true), AskBackups);
    }
  }

  lemma BackupInv(k: Setup, w: World, made: map<Name, nat>, lost: bool)
    requires ValidSetup(k) && Inv(k, w) && CanCallBackup(k, w, made, lost)
    ensures Inv(k, TickBacksUp(k, w, made, lost))
  {
    hide Inv, TickOk, StoredOk, PeopleOk, LandedOk, Handles, Leaves, DestOk, SourceOk, RecOk;
    hide Grows, Quiet, Rank, Stored;
    hide CanBackup, NameBackups, Backup, Lost;
    var m := w.tick.m;
    TickFacts(k, w);
    if m.backedUp {
      ClaimRows(k, w, m);
      LocalStep(k, w, m, AskBackups);
    } else {
      var v := w.(src := Backup(w.src, made), bucket := Stored(w.src, w.bucket, made));
      BackupEffect(k, w, made, v);
      BackupCallInv(k, w, v);
    }
  }

  /** As many completed backups as claims means a backup of every claim. */
  lemma EveryClaimDone(k: Setup, w: World, done: set<Name>)
    requires ValidSetup(k) && SourceOk(k, w.src, w.bucket)
    requires done <= w.src.backups.Keys && |done| == |k.claims|
    ensures forall i :: 0 <= i < |k.claims| ==> k.claims[i] in w.src.backups
  {
    var all := set i | 0 <= i < |k.claims| :: k.claims[i];
    DistinctCount(k.claims);
    assert done <= all;
    SameSize(done, all);
  }

  lemma {:induction false} DistinctCount(s: seq<Name>)
    requires forall i, j :: 0 <= i < j < |s| ==> s[i] != s[j]
    ensures |set i | 0 <= i < |s| :: s[i]| == |s|
  {
    if s != [] {
      var n := |s| - 1;
      DistinctCount(s[..n]);
      assert (set i | 0 <= i < |s| :: s[i]) == (set i | 0 <= i < n :: s[..n][i]) + {s[n]};
    }
  }

  lemma SameSize<T>(a: set<T>, b: set<T>)
    requires a <= b && |a| == |b|
    ensures a == b
  {
    assert b == a + (b - a);
    assert |b - a| == 0;
  }

  lemma SeesBackupsInv(k: Setup, w: World, done: set<Name>, p: nat)
    requires ValidSetup(k) && Inv(k, w) && CanSeeBackups(w, done, p)
    ensures Inv(k, TickSeesBackups(w, done, p))
  {
    hide Inv, TickOk, StoredOk, PeopleOk, LandedOk, Handles, DestOk, SourceOk;
    TickFacts(k, w);
    var m := w.tick.m;
    if |done| == |m.claims| {
      EveryClaimDone(k, w, done);
      LocalStep(k, w, Advance(m, Syncing, 50).(failures := 0), End);
    } else {
      LocalStep(k, w, Note(m, p).(failures := 0), End);
    }
  }

  lemma OursIsOwn(k: Setup, w: World, o: Key)
    requires ValidSetup(k) && DestOk(k, w)
    ensures Ours(k, w, o) <==> Own(k, w, o)
  {
    assert o in w.dest && o !in k.before ==> OwnOk(k, w, o);
  }

  /** One row is marked as created, and its claim is here: on to the next one. */
  lemma CreatedOk(k: Setup, w: World, m: Record, i: nat, pc: Pc)
    requires RecOk(k, w, m) && i < |k.claims| && (pc == RestoreGet(i) || pc == RestorePost(i)) && PcOk(k, w, m, pc)
    requires !w.released ==> Own(k, w, Pvc(k.claims[i]))
    ensures var m' := m.(claims := m.claims[i := m.claims[i].(created := true)]);
      RecOk(k, w, m') && PcOk(k, w, m', if i + 1 < |k.claims| then RestoreGet(i + 1) else CheckRestored(0))
  {
  }

  /** A row already marked as created says that its claim is here. */
  lemma CreatedIsOwn(k: Setup, w: World, m: Record, i: nat)
    requires RecOk(k, w, m) && i < |k.claims| && m.claims[i].created && !w.released
    ensures Own(k, w, Pvc(k.claims[i]))
  {
  }

  /** The claim is here: on to the next one. */
  lemma HasClaim(k: Setup, w: World, i: nat)
    requires Inv(k, w) && w.tick.Busy? && w.tick.pc == RestoreGet(i) && i < |k.claims| == |w.tick.m.claims|
    requires w.tick.m.claims[i].created || Own(k, w, Pvc(k.claims[i]))
    ensures var m := w.tick.m;
      Inv(k, ToClaim(k, w, m.(claims := m.claims[i := m.claims[i].(created := true)]), i + 1))
  {
    hide Inv, TickOk, StoredOk, PeopleOk, LandedOk, DestOk, SourceOk, RecOk, Grows, Quiet, Own, Rank;
    TickFacts(k, w);
    var m := w.tick.m;
    if m.claims[i].created && !w.released {
      CreatedIsOwn(k, w, m, i);
    }
    CreatedOk(k, w, m, i, RestoreGet(i));
    var m' := m.(claims := m.claims[i := m.claims[i].(created := true)]);
    LocalStep(k, w, m', if i + 1 < |k.claims| then RestoreGet(i + 1) else CheckRestored(0));
  }

  lemma WaitsForImage(k: Setup, w: World)
    requires Inv(k, w) && w.tick.Busy? && w.tick.pc.RestoreGet?
    ensures Inv(k, Ends(w, Note(w.tick.m, 56)))
  {
    hide Inv, TickOk, StoredOk, PeopleOk, LandedOk, DestOk, SourceOk, Grows, Quiet, Own;
    TickFacts(k, w);
    LocalStep(k, w, Note(w.tick.m, 56).(failures := 0), End);
  }

  lemma GetsClaimInv(k: Setup, w: World, wait: bool)
    requires ValidSetup(k) && Inv(k, w) && CanGetClaim(k, w)
    ensures Inv(k, TickGetsClaim(k, w, wait))
  {
    hide Inv, TickOk, StoredOk, PeopleOk, LandedOk, Handles, DestOk, SourceOk, RecOk, Own, Ours, Next, Ends, ToClaim;
    TickFacts(k, w);
    var i, m := w.tick.pc.i, w.tick.m;
    OursIsOwn(k, w, Pvc(k.claims[i]));
    if m.claims[i].created || Pvc(k.claims[i]) in w.dest {
      HasClaim(k, w, i);
      assert m.claims[i].created ==> m.(claims := m.claims[i := m.claims[i].(created := true)]) == m;
    } else if wait {
      WaitsForImage(k, w);
    } else {
      LocalStep(k, w, m, RestorePost(i));
    }
  }

  /** A new object of this move, of the right shape, where nothing was. */
  lemma PostOk(k: Setup, w: World, o: Key, body: Body)
    requires DestOk(k, w) && o !in w.dest
    requires o.Workload? ==> CopyOk(k, body) && !body.asked
    requires o.Pvc? ==> o.claim in k.claims && body.Volume?
    requires o.Pvc? && !w.released ==> o.claim in w.src.backups && body.backup == w.src.backups[o.claim]
    ensures DestOk(k, Posted(k, w, o, body)) && Grows(k, w, Posted(k, w, o, body)) && Own(k, Posted(k, w, o, body), o)
  {
    var v := Posted(k, w, o, body);
    forall p | p in v.dest && p !in k.before
      ensures OwnOk(k, v, p)
    {
      assert p != o ==> OwnOk(k, w, p);
    }
  }

  lemma PostsClaimInv(k: Setup, w: World, lost: bool)
    requires ValidSetup(k) && Inv(k, w) && CanPostClaim(k, w)
    ensures Inv(k, TickPostsClaim(k, w, lost))
  {
    hide Inv, TickOk, StoredOk, PeopleOk, LandedOk, Handles, DestOk, SourceOk;
    TickFacts(k, w);
    var i, m := w.tick.pc.i, w.tick.m;
    var body := Volume(m.claims[i].backup.value, false);
    var v := Posted(k, w, Pvc(k.claims[i]), body);
    PostOk(k, w, Pvc(k.claims[i]), body);
    RecGrows(k, w, v, m);
    PcGrows(k, w, v, m, w.tick.pc);
    if lost {
      LostStep(k, w, v, m);
    } else {
      var to := if i + 1 < |k.claims| then RestoreGet(i + 1) else CheckRestored(0);
      CreatedOk(k, v, m, i, RestorePost(i));
      EffectStep(k, w, v, m.(claims := m.claims[i := m.claims[i].(created := true)]), to);
    }
  }

  /** A row is marked by what the cluster answered of its claim. */
  lemma FilledOk(k: Setup, w: World, m: Record, i: nat, filled: bool)
    requires RecOk(k, w, m) && PcOk(k, w, m, CheckRestored(i)) && i < |k.claims|
    requires !w.released && filled ==> Restored(k, w, k.claims[i])
    ensures var m' := m.(claims := m.claims[i := m.claims[i].(restored := filled)]);
      RecOk(k, w, m') && PcOk(k, w, m', CheckRestored(i + 1))
  {
  }

  lemma FilledIsRestored(k: Setup, w: World, i: nat)
    requires w.tick.Busy? && w.tick.pc == CheckRestored(i) && i < |k.claims| && !w.released
    requires RecOk(k, w, w.tick.m) && PcOk(k, w, w.tick.m, w.tick.pc)
    ensures Filled(w, k.claims[i]) ==> Restored(k, w, k.claims[i])
  {
    hide RecOk;
    assert Own(k, w, Pvc(k.claims[i]));
  }

  lemma SeesVolumeInv(k: Setup, w: World)
    requires Inv(k, w) && CanSeeVolume(k, w)
    ensures Inv(k, TickSeesVolume(k, w))
  {
    hide Inv, TickOk, StoredOk, PeopleOk, LandedOk, Handles, Leaves, DestOk, SourceOk, RecOk, PcOk, Filled, Restored;
    hide Grows, Quiet, Rank;
    TickFacts(k, w);
    var i, m := w.tick.pc.i, w.tick.m;
    var filled := Filled(w, k.claims[i]);
    if !w.released {
      FilledIsRestored(k, w, i);
    }
    FilledOk(k, w, m, i, filled);
    LocalStep(k, w, m.(claims := m.claims[i := m.claims[i].(restored := filled)]), CheckRestored(i + 1));
  }

  lemma SeesVolumesInv(k: Setup, w: World, p: nat)
    requires ValidSetup(k) && Inv(k, w) && CanSeeVolumes(k, w, p)
    ensures Inv(k, TickSeesVolumes(w, p))
  {
    hide Inv, TickOk, StoredOk, PeopleOk, LandedOk, Handles;
    TickFacts(k, w);
    var m := w.tick.m;
    if AllRestored(m) {
      LocalStep(k, w, Advance(m, Creating, 86).(failures := 0), End);
    } else {
      LocalStep(k, w, Note(m, p).(failures := 0), End);
    }
  }

  lemma GetsDefinitionInv(k: Setup, w: World, extras: seq<Key>)
    requires ValidSetup(k) && Inv(k, w) && CanGetDefinition(w, extras)
    ensures Inv(k, TickGetsDefinition(w, extras))
  {
    hide Inv, TickOk, StoredOk, PeopleOk, LandedOk, Handles, DestOk;
    TickFacts(k, w);
    LocalStep(k, w, w.tick.m, CreateGet(extras + [Workload], 0,
                                        if w.src.origin.Some? then w.src.origin.value else RunStateOf(w.src.spec)));
  }

  /** An object that is here is passed over; only a Service may be left out. */
  lemma PassedOk(k: Setup, w: World, m: Record, pc: Pc, skip: bool)
    requires RecOk(k, w, m) && pc.CreateGet? && pc.j < |pc.keys| && PcOk(k, w, m, pc)
    requires pc.keys[pc.j] in w.dest || skip ==> Own(k, w, pc.keys[pc.j]) || pc.keys[pc.j].Service?
    ensures pc.keys[pc.j] in w.dest || skip ==> PcOk(k, w, m, CreateGet(pc.keys, pc.j + 1, pc.origin))
    ensures PcOk(k, w, m, CreatePost(pc.keys, pc.j, pc.origin))
  {
  }

  lemma GetsObjectInv(k: Setup, w: World, skip: bool)
    requires ValidSetup(k) && Inv(k, w) && CanGetObject(k, w, skip)
    ensures Inv(k, TickGetsObject(w, skip))
  {
    hide Inv, TickOk, StoredOk, PeopleOk, LandedOk, Handles, DestOk, SourceOk, RecOk, PcOk, Own, Grows, Quiet, Leaves;
    hide ValidSetup, Rank;
    TickFacts(k, w);
    var m, pc := w.tick.m, w.tick.pc;
    ClaimRows(k, w, m);
    OursIsOwn(k, w, pc.keys[pc.j]);
    PassedOk(k, w, m, pc, skip);
    if pc.keys[pc.j] in w.dest || skip {
      LocalStep(k, w, m, CreateGet(pc.keys, pc.j + 1, pc.origin));
    } else {
      LocalStep(k, w, m, CreatePost(pc.keys, pc.j, pc.origin));
    }
  }

  lemma ClaimRows(k: Setup, w: World, m: Record)
    requires RecOk(k, w, m)
    ensures |m.claims| == |k.claims|
  {
  }

  lemma EndsCreatingInv(k: Setup, w: World)
    requires ValidSetup(k) && Inv(k, w) && CanEndCreating(w)
    ensures Inv(k, TickEndsCreating(w))
  {
    hide Inv, TickOk, StoredOk, PeopleOk, LandedOk, Handles, DestOk, SourceOk;
    TickFacts(k, w);
    LocalStep(k, w, Advance(w.tick.m.(origin := w.tick.pc.origin), Starting, 90).(failures := 0), End);
  }

  /** The object posted was the next of the list; the workload is the last. */
  lemma PostedOk(k: Setup, w: World, m: Record, pc: Pc)
    requires RecOk(k, w, m) && pc.CreatePost? && PcOk(k, w, m, pc) && Own(k, w, pc.keys[pc.j])
    ensures PcOk(k, w, m, CreateGet(pc.keys, pc.j + 1, pc.origin))
  {
  }

  /** What is posted, and what the tick knows then. */
  lemma PostObjectEffect(k: Setup, w: World, pc: Pc, o: Key, v: World)
    requires SourceOk(k, w.src, w.bucket) && DestOk(k, w) && w.tick.Busy? && w.tick.pc == pc
    requires !w.landed && RecOk(k, w, w.tick.m) && pc.CreatePost? && PcOk(k, w, w.tick.m, pc) && o == pc.keys[pc.j] &&
      o !in w.dest
    requires v == Posted(k, w, o, if o.Workload? then Shape(StoppedCopy(w.src.spec), false) else Plain)
    ensures DestOk(k, v) && Grows(k, w, v) && Quiet(w, v) && SourceOk(k, v.src, v.bucket)
    ensures RecOk(k, v, w.tick.m) && PcOk(k, v, w.tick.m, CreateGet(pc.keys, pc.j + 1, pc.origin))
  {
    var m := w.tick.m;
    NotAClaim(pc.keys, pc.j);
    SameCopy(k, w);
    hide SourceOk, DestOk, RecOk, PcOk, Grows, OwnOk, StoppedCopy, KeysOk;
    PostOk(k, w, o, if o.Workload? then Shape(StoppedCopy(w.src.spec), false) else Plain);
    RecGrows(k, w, v, m);
    ClaimRows(k, w, m);
    PcGrows(k, w, v, m, pc);
    PostedOk(k, v, m, pc);
  }

  lemma NotAClaim(keys: seq<Key>, j: nat)
    requires KeysOk(keys) && j < |keys|
    ensures keys[j].Workload? || IsExtra(keys[j])
  {
  }

  lemma SameCopy(k: Setup, w: World)
    requires SourceOk(k, w.src, w.bucket)
    ensures StoppedCopy(w.src.spec) == StoppedCopy(k.spec)
  {
  }

  lemma PostsObjectInv(k: Setup, w: World, lost: bool)
    requires ValidSetup(k) && Inv(k, w) && CanPostObject(w)
    ensures Inv(k, TickPostsObject(k, w, lost))
  {
    hide Inv, TickOk, StoredOk, PeopleOk, LandedOk, Handles, DestOk, SourceOk, OwnOk, Own, Grows, Quiet, RecOk, PcOk;
    hide StoppedCopy, Rank;
    TickFacts(k, w);
    var m, pc := w.tick.m, w.tick.pc;
    var o := pc.keys[pc.j];
    var v := Posted(k, w, o, if o.Workload? then Shape(StoppedCopy(w.src.spec), false) else Plain);
    PostObjectEffect(k, w, pc, o, v);
    ClaimRows(k, v, m);
    if lost {
      LostStep(k, w, v, m);
    } else {
      EffectStep(k, w, v, m, CreateGet(pc.keys, pc.j + 1, pc.origin));
    }
  }

  lemma StartsInv(k: Setup, w: World, lost: bool)
    requires ValidSetup(k) && Inv(k, w) && CanStart(w, lost)
    ensures Inv(k, TickStarts(w, lost))
  {
    hide Inv, TickOk, StoredOk, PeopleOk, LandedOk, Handles, DestOk, SourceOk;
    TickFacts(k, w);
    var m := w.tick.m;
    if Stopped(m.origin) {
      SucceedInv(k, w);
    } else if m.started {
      LocalStep(k, w, m, AskReady);
    } else {
      var o := w.dest[Workload];
      var v := w.(dest := w.dest[Workload := o.(body := Shape(Patched(o.body.spec, m.origin), true))]);
      assert Workload !in k.before;
      PatchOk(k, w, m.origin);
      RecGrows(k, w, v, m);
      StartedOk(k, v, m);
      assert Quiet(w, v);
      if lost {
        LostStep(k, w, v, m);
      } else {
        EffectStep(k, w, v, m.(started := true), AskReady);
      }
    }
  }

  lemma StartedOk(k: Setup, w: World, m: Record)
    requires RecOk(k, w, m) && Asked(k, w)
    ensures RecOk(k, w, m.(started := true)) && |m.claims| == |k.claims|
  {
  }

  /** The workload is there: stopped as it was, or ready. */
  lemma SucceedInv(k: Setup, w: World)
    requires Inv(k, w) && w.tick.Busy? && w.tick.m.phase == Starting
    requires Stopped(w.tick.m.origin) || w.tick.m.started
    ensures Inv(k, Ends(w, Succeed(w.tick.m)))
  {
    hide Inv, TickOk, StoredOk, PeopleOk, LandedOk, Handles, DestOk, SourceOk;
    TickFacts(k, w);
    LocalStep(k, w, Succeed(w.tick.m).(failures := 0), End);
  }

  /** The start patch changes how the move's own workload is asked to run, nothing else. */
  lemma PatchOk(k: Setup, w: World, to: RunState)
    requires DestOk(k, w) && Workload !in k.before && Workload in w.dest && w.dest[Workload].body.Shape?
    requires !w.released ==> w.src.origin.Some?
    requires to == RunStateOf(k.spec) && !Stopped(to)
    ensures var o := w.dest[Workload];
      var v := w.(dest := w.dest[Workload := o.(body := Shape(Patched(o.body.spec, to), true))]);
      DestOk(k, v) && Grows(k, w, v) && Asked(k, v)
  {
    var o := w.dest[Workload];
    var v := w.(dest := w.dest[Workload := o.(body := Shape(Patched(o.body.spec, to), true))]);
    assert OwnOk(k, w, Workload);
    PatchedCopy(k, o.body);
    forall p | p in v.dest && p !in k.before
      ensures OwnOk(k, v, p)
    {
      assert OwnOk(k, w, p);
    }
  }

  /** Sent once or again, the start patch gives the same. */
  lemma PatchedCopy(k: Setup, body: Body)
    requires CopyOk(k, body) && !Stopped(RunStateOf(k.spec))
    ensures CopyOk(k, Shape(Patched(body.spec, RunStateOf(k.spec)), true))
  {
  }

  lemma ReadsInv(k: Setup, w: World)
    requires Inv(k, w) && CanRead(w)
    ensures Inv(k, Next(w, w.rec.value, Begin))
  {
    var w' := Next(w, w.rec.value, Begin);
    assert Grows(k, w, w');
    Kept(k, w, w');
    RecGrows(k, w, w', w.rec.value);
    assert forall o :: o in w.dest && o !in k.before ==> OwnOk(k, w, o);
  }

  /** Nothing but the record, the tick and the history changes. */
  lemma ClustersSame(k: Setup, w: World, w': World)
    requires SourceOk(k, w.src, w.bucket) && DestOk(k, w)
    requires w'.src == w.src && w'.bucket == w.bucket && w'.dest == w.dest && w'.released == w.released
    ensures SourceOk(k, w'.src, w'.bucket) && DestOk(k, w') && Grows(k, w, w')
  {
    forall o | o in w'.dest && o !in k.before
      ensures OwnOk(k, w', o)
    {
      assert OwnOk(k, w, o);
    }
  }

  lemma StoresInv(k: Setup, w: World, now: nat)
    requires Inv(k, w) && CanStore(w)
    ensures Inv(k, TickStores(w, w.tick.m.(updatedAt := now)))
  {
    var m := w.tick.m.(updatedAt := now);
    var w' := TickStores(w, m);
    ClustersSame(k, w, w');
    StoreKeepsPeople(k, w, m);
    hide SourceOk, DestOk, PeopleOk;
    assert RecOk(k, w, m);
    RecGrows(k, w, w', m);
    if w'.rec == w.rec {
      hide RecOk;
      Kept(k, w, w');
    } else {
      StoredNew(k, w, m);
    }
  }

  /** Stored over a record that runs. */
  lemma StoredNew(k: Setup, w: World, m: Record)
    requires TickOk(k, w) && StoredOk(k, w) && LandedOk(k, w) && CanStore(w) && m == w.tick.m.(updatedAt := m.updatedAt)
    requires var w' := TickStores(w, m); w'.rec != w.rec && RecOk(k, w', m)
    ensures var w' := TickStores(w, m); TickOk(k, w') && StoredOk(k, w') && LandedOk(k, w')
  {
  }

  lemma StoreKeepsPeople(k: Setup, w: World, m: Record)
    requires PeopleOk(k, w) && w.tick.Busy? && !w.landed
    ensures PeopleOk(k, TickStores(w, m))
  {
    var w' := TickStores(w, m);
    forall t | t in w'.people
      ensures ThreadOk(k, w', w'.people[t])
    {
      assert ThreadOk(k, w, w.people[t]);
    }
  }

  // ------------------------------------------------------------- the whole tick

  lemma JoinsInv(k: Setup, w: World)
    requires Inv(k, w) && At(w, Joining)
    ensures Inv(k, TickJoins(w))
  {
    hide Inv, TickOk, StoredOk, PeopleOk, LandedOk, Handles, DestOk, SourceOk;
    TickFacts(k, w);
    var m := w.tick.m;
    LocalStep(k, w, Advance(m, Quiescing, 4).(failures := 0), End);
  }

  lemma SeesPodsInv(k: Setup, w: World)
    requires Inv(k, w) && CanSeePods(w)
    ensures Inv(k, TickSeesPods(w))
  {
    hide Inv, TickOk, StoredOk, PeopleOk, LandedOk, Handles, DestOk, SourceOk;
    TickFacts(k, w);
    var m := w.tick.m;
    if w.src.pods > 0 {
      LocalStep(k, w, Note(m, 6).(failures := 0), End);
    } else {
      LocalStep(k, w, Advance(m, BackingUp, 10).(failures := 0), End);
    }
  }

  lemma SyncsInv(k: Setup, w: World, visible: bool)
    requires Inv(k, w) && At(w, Syncing)
    ensures Inv(k, TickSyncs(w, visible))
  {
    hide Inv, TickOk, StoredOk, PeopleOk, LandedOk, Handles, Leaves, DestOk, SourceOk, Grows, Quiet, RecOk;
    TickFacts(k, w);
    var m := w.tick.m;
    ClaimRows(k, w, m);
    if visible && BackupsReadable(w, m) {
      SyncedOk(k, w, m);
      LocalStep(k, w, Advance(m, Restoring, 55).(failures := 0), End);
    } else {
      NotedOk(k, w, m, 52);
      LocalStep(k, w, Note(m, 52).(failures := 0), End);
    }
  }

  lemma SeesReadyInv(k: Setup, w: World, ready: bool)
    requires Inv(k, w) && CanSeeReady(w)
    ensures Inv(k, TickSeesReady(w, ready))
  {
    hide Inv, TickOk, StoredOk, PeopleOk, LandedOk, Handles, DestOk, SourceOk;
    TickFacts(k, w);
    var m := w.tick.m;
    if ready {
      SucceedInv(k, w);
    } else {
      LocalStep(k, w, Note(m, 95).(failures := 0), End);
    }
  }

  lemma NotedOk(k: Setup, w: World, m: Record, progress: nat)
    requires RecOk(k, w, m) && m.phase != Done && progress <= 100
    ensures RecOk(k, w, Note(m, progress).(failures := 0))
  {
  }

  lemma SyncedOk(k: Setup, w: World, m: Record)
    requires RecOk(k, w, m) && m.phase == Syncing
    ensures RecOk(k, w, Advance(m, Restoring, 55).(failures := 0)) && |m.claims| == |k.claims|
  {
  }

  lemma FaultsInv(k: Setup, w: World, f: Fault)
    requires Inv(k, w) && CanFault(w)
    ensures Inv(k, Next(w, Faulted(w.tick.m, f), End))
  {
    hide Inv, TickOk, StoredOk, PeopleOk, LandedOk, Handles, DestOk, SourceOk;
    TickFacts(k, w);
    FaultedOk(k, w, w.tick.m, f);
    LocalStep(k, w, Faulted(w.tick.m, f), End);
  }

  lemma BeginsRestoreInv(k: Setup, w: World)
    requires Inv(k, w) && At(w, Restoring)
    ensures Inv(k, ToClaim(k, w, w.tick.m, 0))
  {
    hide Inv, TickOk, StoredOk, PeopleOk, LandedOk, Handles, DestOk, SourceOk;
    TickFacts(k, w);
    LocalStep(k, w, w.tick.m, if 0 < |k.claims| then RestoreGet(0) else CheckRestored(0));
  }

  lemma TickInv(k: Setup, w: World, a: TickStep)
    requires ValidSetup(k) && Inv(k, w) && TickCan(k, w, a)
    ensures Inv(k, TickDoes(k, w, a))
  {
    hide Inv, ValidSetup, Handles, At, RowsFit, Next, Faulted, ToClaim;
    hide CanRead, CanFault, CanStore, CanQuiesce, CanSeePods, CanCallBackup, CanSeeBackups, CanGetClaim, CanPostClaim;
    hide CanSeeVolume, CanSeeVolumes, CanGetDefinition, CanGetObject, CanPostObject, CanEndCreating;
    hide CanStart, CanSeeReady;
    hide TickStores, TickJoins, TickQuiesces, TickSeesPods, TickBacksUp, TickSeesBackups, TickSyncs, TickGetsClaim;
    hide TickPostsClaim, TickSeesVolume, TickSeesVolumes, TickGetsDefinition, TickGetsObject, TickPostsObject;
    hide TickEndsCreating, TickStarts, TickSeesReady;
    match a
    case Reads => ReadsInv(k, w);
    case Faults(f) => FaultsInv(k, w, f);
    case Stores(now) => StoresInv(k, w, now);
    case Joins => JoinsInv(k, w);
    case CallsQuiesce(lost) => QuiesceInv(k, w, lost);
    case SeesPods => SeesPodsInv(k, w);
    case CallsBackup(made, lost) => BackupInv(k, w, made, lost);
    case SeesBackups(done, p) => SeesBackupsInv(k, w, done, p);
    case Syncs(visible) => SyncsInv(k, w, visible);
    case BeginsRestore => BeginsRestoreInv(k, w);
    case GetsClaim(wait) => GetsClaimInv(k, w, wait);
    case PostsClaim(lost) => PostsClaimInv(k, w, lost);
    case SeesVolume => SeesVolumeInv(k, w);
    case SeesVolumes(p) => SeesVolumesInv(k, w, p);
    case GetsDefinition(extras) => GetsDefinitionInv(k, w, extras);
    case GetsObject(skip) => GetsObjectInv(k, w, skip);
    case PostsObject(lost) => PostsObjectInv(k, w, lost);
    case EndsCreating => EndsCreatingInv(k, w);
    case CallsStart(lost) => StartsInv(k, w, lost);
    case SeesReady(ready) => SeesReadyInv(k, w, ready);
  }
}
