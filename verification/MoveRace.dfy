/** Two runs in which putting back does not restore everything: a tick in flight stops the
    source once more, and a listing that fails hides what it should have shown. */
module MoveRace {
  import opened Options
  import opened MoveSource
  import opened MoveProtocol
  import opened MovePutBack

  /** A container of one replica, without claims. */
  const SETUP := Setup("id", [], Deployment(Some(1)), map[])
  const SOURCE := Source(true, true, Deployment(Some(1)), None, map[], 0, map[])
  const QUEUED := Record(Running, Joining, 1, false, false, false, [], Replicas(1), 0, false, 0)
  const JOINED := QUEUED.(phase := Quiescing, progress := 4)
  const CALLED := JOINED.(status := Cancelled)

  function Start(): World { World(SOURCE, map[], map[], Some(QUEUED), Idle, map[], false, false) }

  /** A tick has read the record and is about to ask the source to stop. */
  function AboutToStop(): World { Start().(rec := Some(JOINED), tick := Busy(JOINED, Begin)) }

  /** Meanwhile `abandon` cancelled the record and released the source. */
  function PutBackFirst(): World {
    AboutToStop().(rec := Some(CALLED), released := true,
                   people := map[0 := Abandon(CALLED, GetWorkload, false, false)])
  }

  /** The tick asks all the same, and drops what it learnt. */
  function StoppedAgain(): World {
    PutBackFirst().(tick := Idle, src := Quiesce(SOURCE))
  }

  lemma TickReads(w0: World)
    requires Reaches(SETUP, w0, Start())
    ensures Reaches(SETUP, w0, AboutToStop())
  {
    var w1 := Start().(tick := Busy(QUEUED, Begin));
    var w2 := Start().(tick := Busy(JOINED, End));
    var w3 := Start().(rec := Some(JOINED));
    Then(SETUP, w0, Start(), Ticks(Reads));
    Then(SETUP, w0, w1, Ticks(Joins));
    Then(SETUP, w0, w2, Ticks(Stores(0)));
    Then(SETUP, w0, w3, Ticks(Reads));
  }

  lemma AbandonReleases(w0: World)
    requires Reaches(SETUP, w0, AboutToStop())
    ensures Reaches(SETUP, w0, PutBackFirst())
  {
    var w1 := AboutToStop().(people := map[0 := Abandon(JOINED, StoreCancelled, false, false)]);
    var w2 := AboutToStop().(rec := Some(CALLED), people := map[0 := Abandon(CALLED, CallRelease, false, false)]);
    Then(SETUP, w0, AboutToStop(), Person(BeginsAbandon(0)));
    assert PersonDoes(SETUP, AboutToStop(), BeginsAbandon(0)) == w1;
    Then(SETUP, w0, w1, Person(Abandons(0, true, Workload, 0)));
    assert AbandonDoes(SETUP, w1, 0, true, Workload, 0) == w2;
    Then(SETUP, w0, w2, Person(Abandons(0, true, Workload, 0)));
    assert AbandonDoes(SETUP, w2, 0, true, Workload, 0) == PutBackFirst();
  }

  lemma TickStops(w0: World)
    requires Reaches(SETUP, w0, PutBackFirst())
    ensures Reaches(SETUP, w0, StoppedAgain())
  {
    var asked := JOINED.(quiesced := true);
    var w1 := PutBackFirst().(src := Quiesce(SOURCE), tick := Busy(asked, AskStatus));
    var w2 := w1.(tick := Busy(Advance(asked, BackingUp, 10), End));
    Then(SETUP, w0, PutBackFirst(), Ticks(CallsQuiesce(false)));
    Then(SETUP, w0, w1, Ticks(SeesPods));
    Then(SETUP, w0, w2, Ticks(Stores(0)));
  }

  /** A move just started, a tick that read its record before `abandon` cancelled it: the
      put-back releases the source, then the tick stops it again.  The record says
      cancelled, nothing is in flight but the rest of the `abandon`, which never looks at
      the source again: the workload that ran is stopped until somebody puts it back once
      more. */
  lemma TickInFlightStopsAgain()
    ensures Init(SETUP, Start()) && !Stopped(RunStateOf(Start().src.spec))
    ensures Reaches(SETUP, Start(), StoppedAgain())
    ensures var w := StoppedAgain();
      && w.rec.Some? && w.rec.value.status == Cancelled && w.released && w.tick.Idle?
      && IsAbandon(w, 0) && w.people[0].apc == GetWorkload
      && Stopped(RunStateOf(w.src.spec)) && w.src.origin.Some?
  {
    assert Fresh(SETUP, 0).claims == [];
    assert Start().rec == Some(Fresh(SETUP, 0));
    Stays(SETUP, Start());
    TickReads(Start());
    AbandonReleases(Start());
    TickStops(Start());
  }

  // ------------------------------------------------------------- a listing that fails

  const STOPPED := Quiesce(SOURCE)
  const COPIED := JOINED.(quiesced := true, backedUp := true)
  const KEYS := [Service("web"), Workload]
  const CREATING := Advance(COPIED, Creating, 86)
  const FAILED := CREATING.(failures := 1)
  const PUTTING_BACK := FAILED.(status := Cancelled)

  /** A tick of the move, at its beginning, over a source asked to stop. */
  function Working(m: Record): World { World(STOPPED, map[], map[], Some(m), Busy(m, Begin), map[], false, false) }

  /** A tick has posted a service of the workload, and then failed. */
  function ServicePosted(): World {
    Working(FAILED).(tick := Idle, dest := map[Service("web") := Obj(Some("id"), Plain)])
  }

  function PuttingBack(apc: APc): World {
    ServicePosted().(rec := Some(PUTTING_BACK), people := map[0 := Abandon(PUTTING_BACK, apc, false, false)])
  }

  /** The put-back has ended, and its listing of services was not answered. */
  function HiddenStays(): World {
    PuttingBack(Finished).(src := SOURCE, released := true,
                           people := map[0 := Abandon(PUTTING_BACK, Finished, false, true)])
  }

  /** A tick stores what it has, and the next one reads it. */
  lemma StoredAndRead(w0: World, w: World, m: Record)
    requires Reaches(SETUP, w0, w) && w.tick == Busy(m, End) && w.rec.Some? && w.rec.value.status == Running
    requires w.rec.value.updatedAt == 0 && m.updatedAt == 0 && m.status == Running
    ensures Reaches(SETUP, w0, w.(rec := Some(m), tick := Busy(m, Begin)))
  {
    hide Reaches;
    Then(SETUP, w0, w, Ticks(Stores(0)));
    Then(SETUP, w0, w.(rec := Some(m), tick := Idle), Ticks(Reads));
  }

  lemma Goes(w0: World, w: World, e: TickStep, w': World)
    requires Reaches(SETUP, w0, w) && TickCan(SETUP, w, e) && TickDoes(SETUP, w, e) == w'
    ensures Reaches(SETUP, w0, w')
  {
    hide Reaches, TickCan, TickDoes;
    Then(SETUP, w0, w, Ticks(e));
  }

  lemma Quiesces(w0: World)
    requires Reaches(SETUP, w0, AboutToStop())
    ensures Reaches(SETUP, w0, Working(Advance(JOINED.(quiesced := true), BackingUp, 10)))
  {
    hide Reaches;
    var asked := JOINED.(quiesced := true);
    var m := Advance(asked, BackingUp, 10);
    var w1 := Working(JOINED).(tick := Busy(asked, AskStatus));
    Goes(w0, AboutToStop(), CallsQuiesce(false), w1);
    Goes(w0, w1, SeesPods, w1.(tick := Busy(m, End)));
    StoredAndRead(w0, w1.(tick := Busy(m, End)), m);
  }

  lemma Backups(w0: World)
    requires Reaches(SETUP, w0, Working(Advance(JOINED.(quiesced := true), BackingUp, 10)))
    ensures Reaches(SETUP, w0, Working(Advance(COPIED, Syncing, 50)))
  {
    hide Reaches;
    var m := Advance(JOINED.(quiesced := true), BackingUp, 10);
    var w1 := Working(m).(tick := Busy(m.(backedUp := true), AskBackups));
    var next := Advance(COPIED, Syncing, 50);
    BackupOfNothing(m);
    Goes(w0, Working(m), CallsBackup(map[], false), w1);
    Goes(w0, w1, SeesBackups({}, 0), w1.(tick := Busy(next, End)));
    StoredAndRead(w0, w1.(tick := Busy(next, End)), next);
  }

  lemma BackupOfNothing(m: Record)
    requires At(Working(m), BackingUp) && !m.backedUp && m.claims == []
    ensures TickCan(SETUP, Working(m), CallsBackup(map[], false))
    ensures TickDoes(SETUP, Working(m), CallsBackup(map[], false)) ==
      Working(m).(tick := Busy(m.(backedUp := true), AskBackups))
  {
    assert NameBackups(SETUP, m.claims, STOPPED.backups) == [];
    assert Backup(STOPPED, map[]) == STOPPED && Stored(STOPPED, map[], map[]) == map[];
  }

  lemma Copies(w0: World)
    requires Reaches(SETUP, w0, Working(Advance(COPIED, Syncing, 50)))
    ensures Reaches(SETUP, w0, Working(CREATING))
  {
    hide Reaches;
    var m, next := Advance(COPIED, Syncing, 50), Advance(COPIED, Restoring, 55);
    var w1 := Working(next).(tick := Busy(next, CheckRestored(0)));
    Goes(w0, Working(m), Syncs(true), Working(m).(tick := Busy(next, End)));
    StoredAndRead(w0, Working(m).(tick := Busy(next, End)), next);
    Goes(w0, Working(next), BeginsRestore, w1);
    Goes(w0, w1, SeesVolumes(0), Working(next).(tick := Busy(CREATING, End)));
    StoredAndRead(w0, Working(next).(tick := Busy(CREATING, End)), CREATING);
  }

  /** Creating, with a call of it coming next. */
  function Creates(w: World, pc: Pc): World { w.(rec := Some(CREATING), tick := Busy(CREATING, pc)) }

  lemma GetsService(w0: World)
    requires Reaches(SETUP, w0, Working(CREATING))
    ensures Reaches(SETUP, w0, Creates(Working(CREATING), CreatePost(KEYS, 0, Replicas(1))))
  {
    hide Reaches;
    var w1 := Creates(Working(CREATING), CreateGet(KEYS, 0, Replicas(1)));
    assert [Service("web")] + [Workload] == KEYS;
    Goes(w0, Working(CREATING), GetsDefinition([Service("web")]), w1);
    Goes(w0, w1, GetsObject(false), Creates(Working(CREATING), CreatePost(KEYS, 0, Replicas(1))));
  }

  lemma Posts(w0: World)
    requires Reaches(SETUP, w0, Creates(Working(CREATING), CreatePost(KEYS, 0, Replicas(1))))
    ensures Reaches(SETUP, w0, ServicePosted())
  {
    hide Reaches;
    var w1 := Creates(Working(CREATING), CreatePost(KEYS, 0, Replicas(1)));
    var w2 := Creates(ServicePosted(), CreateGet(KEYS, 1, Replicas(1)));
    Goes(w0, w1, PostsObject(false), w2);
    Goes(w0, w2, Faults(Http), w2.(tick := Busy(FAILED, End)));
    Goes(w0, w2.(tick := Busy(FAILED, End)), Stores(0), ServicePosted());
  }

  lemma BeginsToPutBack(w0: World)
    requires Reaches(SETUP, w0, ServicePosted())
    ensures Reaches(SETUP, w0, PuttingBack(CallRelease))
  {
    hide Reaches;
    var w1 := ServicePosted().(people := map[0 := Abandon(FAILED, StoreCancelled, false, false)]);
    Then(SETUP, w0, ServicePosted(), Person(BeginsAbandon(0)));
    assert PersonDoes(SETUP, ServicePosted(), BeginsAbandon(0)) == w1;
    Then(SETUP, w0, w1, Person(Abandons(0, true, Workload, 0)));
    assert AbandonDoes(SETUP, w1, 0, true, Workload, 0) == PuttingBack(CallRelease);
  }

  /** One more call of the put-back. */
  lemma Call(w0: World, w: World, answered: bool, w': World)
    requires Reaches(SETUP, w0, w) && IsAbandon(w, 0) && AbandonCan(SETUP, w, w.people[0].apc, Workload)
    requires AbandonDoes(SETUP, w, 0, answered, Workload, 0) == w'
    ensures Reaches(SETUP, w0, w')
  {
    hide Reaches, AbandonDoes, AbandonCan;
    Then(SETUP, w0, w, Person(Abandons(0, answered, Workload, 0)));
  }

  /** After the release, with a listing answered or not. */
  function After(apc: APc, secrets: bool): World {
    HiddenStays().(people := map[0 := Abandon(PUTTING_BACK, apc, false, secrets)])
  }

  lemma ListsNothing(w0: World)
    requires Reaches(SETUP, w0, PuttingBack(CallRelease))
    ensures Reaches(SETUP, w0, After(ListSecrets, false))
  {
    hide Reaches, Undoes, OursOf;
    Call(w0, PuttingBack(CallRelease), true, After(GetWorkload, false));
    Call(w0, After(GetWorkload, false), true, After(ListServices, false));
    Call(w0, After(ListServices, false), false, After(DeleteServices({}), false));
    Call(w0, After(DeleteServices({}), false), true, After(ListSecrets, false));
  }

  lemma MissesTheService(w0: World)
    requires Reaches(SETUP, w0, After(ListSecrets, false))
    ensures Reaches(SETUP, w0, After(GetClaim(0), true))
  {
    NoSecrets();
    hide Reaches, Undoes, OursOf;
    Call(w0, After(ListSecrets, false), true, After(DeleteSecrets({}), true));
    Call(w0, After(DeleteSecrets({}), true), true, After(GetClaim(0), true));
  }

  lemma EndsAllTheSame(w0: World)
    requires Reaches(SETUP, w0, After(GetClaim(0), true))
    ensures Reaches(SETUP, w0, HiddenStays())
  {
    hide Reaches, Undoes, OursOf;
    Call(w0, After(GetClaim(0), true), true, After(StoreMessage, true));
    Call(w0, After(StoreMessage, true), true, HiddenStays());
  }

  lemma NoSecrets()
    ensures OursOf(SETUP, After(ListSecrets, false), false) == {}
  {
  }

  /** A move that got as far as posting one service, and an `abandon` straight after with
      no tick in flight, whose listing of services is not answered: it ends as if all were
      undone, and the service stays. */
  lemma HiddenServiceStays()
    ensures Init(SETUP, Start()) && Reaches(SETUP, Start(), PuttingBack(CallRelease))
    ensures PuttingBack(CallRelease).tick.Idle? && Ours(SETUP, PuttingBack(CallRelease), Service("web"))
    ensures Reaches(SETUP, PuttingBack(CallRelease), HiddenStays())
    ensures var w := HiddenStays();
      && w.src == SOURCE && w.tick.Idle? && IsAbandon(w, 0) && w.people[0].apc == Finished
      && !w.people[0].services && w.people[0].secrets && Ours(SETUP, w, Service("web")) && w.dest != SETUP.before
  {
    assert Fresh(SETUP, 0).claims == [];
    assert Start().rec == Some(Fresh(SETUP, 0));
    var w := PuttingBack(CallRelease);
    Stays(SETUP, Start());
    Stays(SETUP, w);
    hide Reaches;
    TickReads(Start());
    Quiesces(Start());
    Backups(Start());
    Copies(Start());
    GetsService(Start());
    Posts(Start());
    BeginsToPutBack(Start());
    ListsNothing(w);
    MissesTheService(w);
    EndsAllTheSame(w);
    assert Service("web") in HiddenStays().dest;
  }
}
