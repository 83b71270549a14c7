/** What every reachable state of a move keeps. */
module MoveSafety {
  import opened Options
  import opened MoveSource
  import opened MoveProtocol

  // ------------------------------------------------------------- the source

  ghost predicate SourceOk(k: Setup, s: Source, bucket: Bucket) {
    && (s.spec.Vm? <==> k.spec.Vm?)
    && (s.spec.Vm? ==> (s.spec.strategy.Some? <==> k.spec.strategy.Some?))
    && (forall i :: 0 <= i < |k.claims| ==> k.claims[i] in s.data)
    && (s.origin.Some? ==> s.origin.value == RunStateOf(k.spec) && Stopped(RunStateOf(s.spec)))
    && (s.origin.None? ==> RunStateOf(s.spec) == RunStateOf(k.spec) && s.backups == map[])
    && (s.backups != map[] ==> s.pods == 0)
    && (!s.present ==> s.origin.Some? && s.pods == 0)
    && (!s.volumes ==> !s.present)
    && BackupsAtRest(k, s, bucket)
  }

  /** Each recorded backup holds what its claim holds. */
  ghost predicate BackupsAtRest(k: Setup, s: Source, bucket: Bucket) {
    forall c :: c in s.backups ==>
      c in k.claims && c in s.data && s.backups[c] in bucket && bucket[s.backups[c]] == s.data[c]
  }

  // ------------------------------------------------------------- the destination

  /** What was there before is untouched, everything else is this move's own. */
  ghost predicate DestOk(k: Setup, w: World) {
    && (forall o :: o in k.before ==> o in w.dest && w.dest[o] == k.before[o])
    && (forall o :: o in w.dest && o !in k.before ==> OwnOk(k, w, o))
  }

  /** The copy is the workload stopped, or with the start patch that follows. */
  predicate CopyOk(k: Setup, body: Body) {
    && body.Shape?
    && (!body.asked ==> body.spec == StoppedCopy(k.spec))
    && (body.asked ==> !Stopped(RunStateOf(k.spec)) && body.spec == Patched(StoppedCopy(k.spec), RunStateOf(k.spec)))
  }

  ghost predicate OwnOk(k: Setup, w: World, o: Key)
    requires o in w.dest
  {
    && w.dest[o].stamp == Some(k.id)
    && (o.Workload? ==> CopyOk(k, w.dest[o].body) && (w.dest[o].body.asked && !w.released ==> w.src.origin.Some?))
    && (o.Pvc? ==> o.claim in k.claims && w.dest[o].body.Volume?)
    && (o.Pvc? && !w.released ==> o.claim in w.src.backups && w.dest[o].body.backup == w.src.backups[o.claim])
  }

  ghost predicate Own(k: Setup, w: World, o: Key) { o in w.dest && o !in k.before }

  ghost predicate Restored(k: Setup, w: World, c: Name) {
    Own(k, w, Pvc(c)) && w.dest[Pvc(c)].body.Volume? && w.dest[Pvc(c)].body.restored
  }

  /** The copy was sent the start patch. */
  ghost predicate Asked(k: Setup, w: World) {
    Own(k, w, Workload) && w.dest[Workload].body.Shape? && w.dest[Workload].body.asked
  }

  // ------------------------------------------------------------- the record

  /** What a record says of the two clusters, as long as nothing was put back. */
  ghost predicate Told(k: Setup, w: World, m: Record)
    requires |m.claims| == |k.claims|
  {
    && (m.quiesced || Rank(m.phase) >= Rank(BackingUp) ==> w.src.origin.Some?)
    && (Rank(m.phase) >= Rank(BackingUp) ==> w.src.pods == 0)
    && (m.backedUp || Rank(m.phase) >= Rank(Syncing) ==> forall i :: 0 <= i < |k.claims| ==>
          k.claims[i] in w.src.backups && m.claims[i].backup == Some(w.src.backups[k.claims[i]]))
    && (forall i :: 0 <= i < |k.claims| && m.claims[i].created ==> Own(k, w, Pvc(k.claims[i])))
    && (Rank(m.phase) >= Rank(Creating) ==> forall i :: 0 <= i < |k.claims| ==> Restored(k, w, k.claims[i]))
    && (Rank(m.phase) >= Rank(Starting) ==> Own(k, w, Workload))
    && (m.started || m.status == Succeeded ==> Stopped(RunStateOf(k.spec)) || Asked(k, w))
  }

  /** Every claim has the name of its backup. */
  predicate Named(m: Record) { forall i :: 0 <= i < |m.claims| ==> m.claims[i].backup.Some? }

  ghost predicate RecOk(k: Setup, w: World, m: Record) {
    && |m.claims| == |k.claims|
    && m.origin == RunStateOf(k.spec)
    && !m.sourceRemoved && m.progress <= 100
    && (Rank(m.phase) >= Rank(Starting) ==> Workload !in k.before)
    && (m.status == Succeeded <==> m.phase == Done)
    && (m.backedUp || Rank(m.phase) >= Rank(Syncing) ==> Named(m))
    && (m.phase == Done ==> m.progress == 100)
    && (!w.released ==> Told(k, w, m))
  }

  /** The object comes last, so by then everything it needs is there. */
  predicate KeysOk(keys: seq<Key>) {
    |keys| > 0 && keys[|keys| - 1] == Workload && forall j :: 0 <= j < |keys| - 1 ==> IsExtra(keys[j])
  }

  ghost predicate PcOk(k: Setup, w: World, m: Record, pc: Pc)
    requires |m.claims| == |k.claims|
  {
    match pc
    case Begin => true
    case AskStatus => m.phase == Quiescing && m.quiesced
    case AskBackups => m.phase == BackingUp && m.backedUp
    case RestoreGet(i) =>
      m.phase == Restoring && i < |k.claims| &&
      (!w.released ==> forall j :: 0 <= j < i ==> Own(k, w, Pvc(k.claims[j])))
    case RestorePost(i) =>
      m.phase == Restoring && i < |k.claims| &&
      (!w.released ==> forall j :: 0 <= j < i ==> Own(k, w, Pvc(k.claims[j])))
    case CheckRestored(i) =>
      m.phase == Restoring && i <= |k.claims| &&
      (!w.released ==> forall j :: 0 <= j < |k.claims| ==> Own(k, w, Pvc(k.claims[j]))) &&
      (!w.released ==> forall j :: 0 <= j < i && m.claims[j].restored ==> Restored(k, w, k.claims[j]))
    case CreateGet(keys, j, origin) =>
      m.phase == Creating && KeysOk(keys) && j <= |keys| && origin == RunStateOf(k.spec) &&
      (j == |keys| ==> Workload !in k.before && (!w.released ==> Own(k, w, Workload)))
    case CreatePost(keys, j, origin) =>
      m.phase == Creating && KeysOk(keys) && j < |keys| && origin == RunStateOf(k.spec)
    case AskReady => m.phase == Starting && m.started
    case End => true
  }

  ghost predicate TickOk(k: Setup, w: World) {
    w.tick.Busy? ==>
      && !w.landed
      && RecOk(k, w, w.tick.m)
      && PcOk(k, w, w.tick.m, w.tick.pc)
      && w.tick.m.status != Cancelled
      && (w.tick.pc != End ==> w.tick.m.status == Running)
      && (w.rec.Some? ==> w.rec.value.status != Failed)
      && (w.rec.Some? && w.rec.value.status == Running ==>
            Rank(w.rec.value.phase) <= Rank(w.tick.m.phase) && w.rec.value.progress <= w.tick.m.progress)
  }

  /** An `abandon` has won: the record is gone or cancelled, or the move had landed. */
  ghost predicate Over(w: World) { w.landed || w.rec.None? || w.rec.value.status == Cancelled }

  ghost predicate StoredOk(k: Setup, w: World) {
    && (w.rec.Some? && w.rec.value.status in {Running, Failed} ==>
          !w.landed && !w.released && RecOk(k, w, w.rec.value))
    && (w.rec.Some? && w.rec.value.status == Succeeded ==>
          w.landed && w.rec.value.phase == Done && w.rec.value.progress == 100)
    && (w.released ==> Over(w) && w.src.present)
  }

  // ------------------------------------------------------------- people

  ghost predicate ThreadOk(k: Setup, w: World, th: Thread) {
    match th
    case Finish(m, removed) => 
      w.landed && m.status == Succeeded && m.phase == Done && m.progress == 100 && (removed ==> !w.src.present)
    case Abandon(m, apc, _, _) =>
      && (apc != StoreCancelled ==> Over(w) && m.status == Cancelled)
      && (apc != StoreCancelled && apc != CallRelease ==> w.released)
      && (match apc
          case DeleteWorkload => Workload !in k.before
          case DeleteServices(left) => left !! k.before.Keys
          case DeleteSecrets(left) => left !! k.before.Keys
          case GetClaim(i) => i <= |k.claims|
          case DeleteClaim(i) => i < |k.claims| && Pvc(k.claims[i]) !in k.before
          case _ => true)
  }

  ghost predicate PeopleOk(k: Setup, w: World) {
    forall t :: t in w.people ==> ThreadOk(k, w, w.people[t])
  }

  // ------------------------------------------------------------- landed

  /** The workload is here with every claim filled, and asked to run if it ran. */
  ghost predicate Complete(k: Setup, w: World) {
    Own(k, w, Workload) && (Stopped(RunStateOf(k.spec)) || Asked(k, w)) && forall i :: 0 <= i < |k.claims| ==>
      Restored(k, w, k.claims[i])
  }

  ghost predicate LandedOk(k: Setup, w: World) {
    && (w.landed ==> w.tick.Idle?)
    && (w.landed && !w.released ==> Complete(k, w) && w.src.origin.Some? && w.src.pods == 0)
    && (w.landed && w.released ==> w.src.origin.None?)
    && (!w.src.present ==> w.landed && !w.released)
  }

  ghost predicate Inv(k: Setup, w: World) {
    && SourceOk(k, w.src, w.bucket)
    && DestOk(k, w)
    && TickOk(k, w)
    && StoredOk(k, w)
    && PeopleOk(k, w)
    && LandedOk(k, w)
  }

  // ------------------------------------------------------------- framing

  /** Until something is put back, what a record told stays so. */
  ghost predicate Grows(k: Setup, w: World, w': World) {
    && (w.released ==> w'.released)
    && (!w'.released ==>
          && (w.src.origin.Some? ==> w'.src.origin.Some?)
          && (w.src.origin.Some? && w.src.pods == 0 ==> w'.src.pods == 0)
          && (forall c :: c in w.src.backups ==> c in w'.src.backups && w'.src.backups[c] == w.src.backups[c])
          && (forall o :: Own(k, w, o) ==> Own(k, w', o))
          && (Asked(k, w) ==> Asked(k, w'))
          && (forall c :: Restored(k, w, c) ==> Restored(k, w', c)))
  }

  lemma RecGrows(k: Setup, w: World, w': World, m: Record)
    requires Grows(k, w, w') && RecOk(k, w, m)
    ensures RecOk(k, w', m)
  {
  }

  lemma PcGrows(k: Setup, w: World, w': World, m: Record, pc: Pc)
    requires Grows(k, w, w') && |m.claims| == |k.claims| && PcOk(k, w, m, pc)
    ensures PcOk(k, w', m, pc)
  {
  }

  /** A step that leaves the record, the people and the history alone. */
  ghost predicate Quiet(w: World, w': World) {
    && w'.rec == w.rec && w'.people == w.people && w'.landed == w.landed && w'.released == w.released
    && w'.src.present == w.src.present && w'.src.volumes == w.src.volumes
    && (w.landed ==> w'.tick.Idle? && w'.src.origin == w.src.origin)
  }

  lemma Kept(k: Setup, w: World, w': World)
    requires Inv(k, w) && Grows(k, w, w') && Quiet(w, w')
    ensures StoredOk(k, w') && PeopleOk(k, w') && LandedOk(k, w')
  {
    if w.rec.Some? && w.rec.value.status in {Running, Failed} {
      RecGrows(k, w, w', w.rec.value);
    }
    forall t | t in w'.people
      ensures ThreadOk(k, w', w'.people[t])
    {
      assert ThreadOk(k, w, w.people[t]);
    }
  }

  lemma TickKept(k: Setup, w: World, w': World)
    requires TickOk(k, w) && Grows(k, w, w') && w'.tick == w.tick && w'.rec == w.rec && w'.landed == w.landed
    ensures TickOk(k, w')
  {
    if w.tick.Busy? {
      RecGrows(k, w, w', w.tick.m);
      PcGrows(k, w, w', w.tick.m, w.tick.pc);
    }
  }

  lemma InitInv(k: Setup, w: World)
    requires Init(k, w)
    ensures Inv(k, w)
  {
  }

  // ------------------------------------------------------------- the clusters

  lemma ClusterInv(k: Setup, w: World, a: ClusterStep)
    requires ValidSetup(k) && Inv(k, w) && ClusterCan(k, w, a)
    ensures Inv(k, ClusterDoes(k, w, a))
  {
    var w' := ClusterDoes(k, w, a);
    assert Grows(k, w, w');
    Kept(k, w, w');
    TickKept(k, w, w');
    match a
    case VolumeFills(c) =>
      forall o | o in w'.dest && o !in k.before
        ensures OwnOk(k, w', o)
      {
        assert OwnOk(k, w, o);
      }
    case _ =>
      forall o | o in w'.dest && o !in k.before
        ensures OwnOk(k, w', o)
      {
        assert OwnOk(k, w, o);
      }
  }
}
