/** What people ask for keeps the invariant too, hence so does every run. */
module MovePeople {
  import opened Options
  import opened MoveSource
  import opened MoveProtocol
  import opened MoveSafety
  import MoveTicks

  /** The destination may only lose objects that are this move's own, after a release. */
  lemma DeletedOk(k: Setup, w: World, w': World, o: Key)
    requires Inv(k, w) && w.released && o !in k.before
    requires w'.dest == w.dest - {o} || w'.dest == w.dest
    requires w'.src == w.src && w'.bucket == w.bucket && w'.rec == w.rec && w'.tick == w.tick
    requires w'.landed == w.landed && w'.released
    ensures SourceOk(k, w'.src, w'.bucket) && DestOk(k, w') && TickOk(k, w') && StoredOk(k, w') && LandedOk(k, w')
  {
    forall p | p in w'.dest && p !in k.before
      ensures OwnOk(k, w', p)
    {
      assert OwnOk(k, w, p);
    }
    TickKept(k, w, w');
  }

  /** Everybody else's request stands where it stood. */
  lemma OthersOk(k: Setup, w: World, w': World, t: nat)
    requires PeopleOk(k, w) && t in w'.people
    requires forall u :: u in w'.people && u != t ==> u in w.people && w'.people[u] == w.people[u]
    requires w.landed ==> w'.landed
    requires Over(w) ==> Over(w')
    requires w.released ==> w'.released
    requires !w.src.present ==> !w'.src.present
    requires ThreadOk(k, w', w'.people[t])
    ensures PeopleOk(k, w')
  {
    forall u | u in w'.people && u != t
      ensures ThreadOk(k, w', w'.people[u])
    {
      assert ThreadOk(k, w, w.people[u]);
    }
  }

  lemma ReleasePutsBack(k: Setup, s: Source, bucket: Bucket)
    requires SourceOk(k, s, bucket) && s.present
    ensures SourceOk(k, Release(s), bucket) && Release(s).origin.None? && Release(s).present
  {
  }

  /** A release, seen by the destination, by a tick in flight and by the records. */
  lemma ReleaseKeeps(k: Setup, w: World, w': World)
    requires Inv(k, w) && w.src.present && Over(w)
    requires w' == w.(src := Release(w.src), people := w'.people, released := true)
    ensures SourceOk(k, w'.src, w'.bucket) && DestOk(k, w') && TickOk(k, w')
    ensures StoredOk(k, w') && LandedOk(k, w')
  {
    ReleasePutsBack(k, w.src, w.bucket);
    hide SourceOk;
    forall p | p in w'.dest && p !in k.before
      ensures OwnOk(k, w', p)
    {
      assert OwnOk(k, w, p);
    }
    TickKept(k, w, w');
  }

  lemma ReleaseInv(k: Setup, w: World, t: nat, answered: bool, pick: Key, now: nat)
    requires Inv(k, w) && IsAbandon(w, t) && w.people[t].apc == CallRelease && w.src.present
    ensures Inv(k, AbandonDoes(k, w, t, answered, pick, now))
  {
    var w' := AbandonDoes(k, w, t, answered, pick, now);
    assert PeopleOk(k, w) && ThreadOk(k, w, w.people[t]);
    assert w'.dest == w.dest;
    hide SourceOk, DestOk, TickOk, StoredOk, LandedOk, Release;
    ReleaseKeeps(k, w, w');
    ReleaseThread(k, w, w', t);
  }

  lemma ReleaseThread(k: Setup, w: World, w': World, t: nat)
    requires PeopleOk(k, w) && IsAbandon(w, t) && ThreadOk(k, w, w.people[t]) && w.people[t].apc == CallRelease
    requires w' == w.(src := w'.src, people := w.people[t := w.people[t].(apc := GetWorkload)], released := true)
    requires w.src.present && w'.src.present
    ensures PeopleOk(k, w')
  {
    OthersOk(k, w, w', t);
  }

  /** A record stored by a person is cancelled, or is that of a landed move. */
  lemma StoredByPerson(k: Setup, w: World, w': World)
    requires Inv(k, w)
    requires w' == w.(rec := w'.rec, people := w'.people)
    requires w'.rec.None? || w'.rec.value.status == Cancelled
          || (w.landed && w'.rec.value.status == Succeeded && w'.rec.value.phase == Done &&
            w'.rec.value.progress == 100)
    ensures SourceOk(k, w'.src, w'.bucket) && DestOk(k, w') && TickOk(k, w') && StoredOk(k, w') && LandedOk(k, w')
  {
    MoveTicks.ClustersSame(k, w, w');
    if w'.tick.Busy? {
      RecGrows(k, w, w', w.tick.m);
      PcGrows(k, w, w', w.tick.m, w.tick.pc);
    }
  }

  /** A step that moves only one request on. */
  lemma OnlyPeople(k: Setup, w: World, w': World)
    requires Inv(k, w) && w' == w.(people := w'.people)
    ensures SourceOk(k, w'.src, w'.bucket) && DestOk(k, w') && TickOk(k, w') && StoredOk(k, w') && LandedOk(k, w')
  {
    MoveTicks.ClustersSame(k, w, w');
    TickKept(k, w, w');
    if w.rec.Some? && w.rec.value.status in {Running, Failed} {
      RecGrows(k, w, w', w.rec.value);
    }
  }

  lemma AbandonInv(k: Setup, w: World, t: nat, answered: bool, pick: Key, now: nat)
    requires ValidSetup(k) && Inv(k, w) && IsAbandon(w, t) && AbandonCan(k, w, w.people[t].apc, pick)
    ensures Inv(k, AbandonDoes(k, w, t, answered, pick, now))
  {
    var apc := w.people[t].apc;
    if apc.CallRelease? {
      ReleaseInv(k, w, t, answered, pick, now);
    } else if apc.DeleteWorkload? || apc.DeleteClaim? || apc.DeleteServices? || apc.DeleteSecrets? {
      AbandonDeletesInv(k, w, t, answered, pick, now);
    } else {
      AbandonLooksInv(k, w, t, answered, pick, now);
    }
  }

  lemma AbandonDeletesInv(k: Setup, w: World, t: nat, answered: bool, pick: Key, now: nat)
    requires Inv(k, w) && IsAbandon(w, t) && AbandonCan(k, w, w.people[t].apc, pick)
    requires var apc := w.people[t].apc;
      apc.DeleteWorkload? || apc.DeleteClaim? || apc.DeleteServices? || apc.DeleteSecrets?
    ensures Inv(k, AbandonDoes(k, w, t, answered, pick, now))
  {
    var w' := AbandonDoes(k, w, t, answered, pick, now);
    var apc := w.people[t].apc;
    assert PeopleOk(k, w) && ThreadOk(k, w, w.people[t]);
    var o := match apc
      case DeleteWorkload => Workload
      case DeleteClaim(i) => Pvc(k.claims[i])
      case DeleteServices(left) => if left == {} then Workload else pick
      case DeleteSecrets(left) => if left == {} then Workload else pick;
    if w'.dest == w.dest {
      OnlyPeople(k, w, w');
    } else {
      DeletedOk(k, w, w', o);
    }
    hide SourceOk, DestOk, TickOk, StoredOk, LandedOk;
    OthersOk(k, w, w', t);
  }

  lemma AbandonLooksInv(k: Setup, w: World, t: nat, answered: bool, pick: Key, now: nat)
    requires ValidSetup(k) && Inv(k, w) && IsAbandon(w, t) && AbandonCan(k, w, w.people[t].apc, pick)
    requires var apc := w.people[t].apc;
      apc.StoreCancelled? || apc.StoreMessage? || apc.GetWorkload? || apc.GetClaim? ||
        apc.ListServices? || apc.ListSecrets?
    ensures Inv(k, AbandonDoes(k, w, t, answered, pick, now))
  {
    var w' := AbandonDoes(k, w, t, answered, pick, now);
    var apc := w.people[t].apc;
    assert PeopleOk(k, w) && ThreadOk(k, w, w.people[t]) && DestOk(k, w);
    hide SourceOk, DestOk, TickOk, StoredOk, LandedOk, Ours, OursOf, ValidSetup, ThreadOk;
    LooksThread(k, w, t, answered, pick, now);
    if apc.StoreCancelled? || apc.StoreMessage? {
      StoresCancelled(k, w, t);
      StoredByPerson(k, w, w');
    } else {
      OnlyPeople(k, w, w');
    }
    OthersOk(k, w, w', t);
  }

  lemma StoresCancelled(k: Setup, w: World, t: nat)
    requires IsAbandon(w, t) && ThreadOk(k, w, w.people[t])
    ensures w.people[t].apc.StoreMessage? ==> w.people[t].m.status == Cancelled
  {
  }

  /** The request that looked, or stored its record, knows what it has to. */
  lemma LooksThread(k: Setup, w: World, t: nat, answered: bool, pick: Key, now: nat)
    requires ValidSetup(k) && DestOk(k, w) && IsAbandon(w, t) && ThreadOk(k, w, w.people[t])
    requires var apc := w.people[t].apc;
      apc.StoreCancelled? || apc.StoreMessage? || apc.GetWorkload? || apc.GetClaim? ||
        apc.ListServices? || apc.ListSecrets?
    requires AbandonCan(k, w, w.people[t].apc, pick)
    ensures var w' := AbandonDoes(k, w, t, answered, pick, now);
      ThreadOk(k, w', w'.people[t]) && (Over(w) ==> Over(w'))
  {
    var apc := w.people[t].apc;
    ListedOurs(k, w);
    MoveTicks.OursIsOwn(k, w, Workload);
    if apc.GetClaim? && apc.i < |k.claims| {
      MoveTicks.OursIsOwn(k, w, Pvc(k.claims[apc.i]));
    }
    hide DestOk, Ours, OursOf, ValidSetup, Undoes;
  }

  lemma ListedOurs(k: Setup, w: World)
    requires ValidSetup(k) && DestOk(k, w)
    ensures OursOf(k, w, true) !! k.before.Keys && OursOf(k, w, false) !! k.before.Keys
    ensures forall o :: o in OursOf(k, w, true) <==> Own(k, w, o) && o.Service?
    ensures forall o :: o in OursOf(k, w, false) <==> Own(k, w, o) && o.Secret?
  {
    forall o ensures Ours(k, w, o) <==> Own(k, w, o) { MoveTicks.OursIsOwn(k, w, o); }
  }

  lemma FinishInv(k: Setup, w: World, a: PersonStep)
    requires Inv(k, w) && PersonCan(k, w, a) && (a.Removes? || a.StoresRemoved?)
    ensures Inv(k, PersonDoes(k, w, a))
  {
    var w' := PersonDoes(k, w, a);
    assert ThreadOk(k, w, w.people[a.t]);
    match a
    case Removes(t, _) =>
      assert Grows(k, w, w');
      OthersOk(k, w, w', t);
      forall p | p in w'.dest && p !in k.before
        ensures OwnOk(k, w', p)
      {
        assert OwnOk(k, w, p);
      }
    case StoresRemoved(t, _) =>
      StoredByPerson(k, w, w');
      forall u | u in w'.people
        ensures ThreadOk(k, w', w'.people[u])
      {
        assert ThreadOk(k, w, w.people[u]);
      }
  }

  lemma RetriesInv(k: Setup, w: World, now: nat)
    requires Inv(k, w) && PersonCan(k, w, Retries(now))
    ensures Inv(k, PersonDoes(k, w, Retries(now)))
  {
    var w' := PersonDoes(k, w, Retries(now));
    MoveTicks.ClustersSame(k, w, w');
    RecGrows(k, w, w', w.rec.value);
    forall u | u in w'.people
      ensures ThreadOk(k, w', w'.people[u])
    {
      assert ThreadOk(k, w, w.people[u]);
    }
  }

  lemma PersonInv(k: Setup, w: World, a: PersonStep)
    requires ValidSetup(k) && Inv(k, w) && PersonCan(k, w, a)
    ensures Inv(k, PersonDoes(k, w, a))
  {
    var w' := PersonDoes(k, w, a);
    assert StoredOk(k, w) && PeopleOk(k, w) && LandedOk(k, w);
    hide Inv, SourceOk, DestOk, TickOk, StoredOk, LandedOk;
    match a
    case Retries(now) => RetriesInv(k, w, now);
    case Abandons(t, answered, pick, now) => AbandonInv(k, w, t, answered, pick, now);
    case Removes(_, _) => FinishInv(k, w, a);
    case StoresRemoved(_, _) => FinishInv(k, w, a);
    case BeginsAbandon(t) => BeginsInv(k, w, a);
    case BeginsFinish(t) => BeginsInv(k, w, a);
    case Dismisses => EndsInv(k, w, a);
    case Dies(t) => EndsInv(k, w, a);
    case Crashes => EndsInv(k, w, a);
  }

  lemma BeginsInv(k: Setup, w: World, a: PersonStep)
    requires Inv(k, w) && PersonCan(k, w, a) && (a.BeginsAbandon? || a.BeginsFinish?)
    ensures Inv(k, PersonDoes(k, w, a))
  {
    var w' := PersonDoes(k, w, a);
    OnlyPeople(k, w, w');
    OthersOk(k, w, w', a.t);
  }

  lemma EndsInv(k: Setup, w: World, a: PersonStep)
    requires Inv(k, w) && PersonCan(k, w, a) && (a.Dismisses? || a.Dies? || a.Crashes?)
    ensures Inv(k, PersonDoes(k, w, a))
  {
    var w' := PersonDoes(k, w, a);
    forall u | u in w'.people
      ensures ThreadOk(k, w', w'.people[u])
    {
      assert ThreadOk(k, w, w.people[u]);
    }
    match a
    case Dismisses => StoredByPerson(k, w, w');
    case Dies(t) => OnlyPeople(k, w, w');
    case Crashes =>
      MoveTicks.ClustersSame(k, w, w');
      if w.rec.Some? && w.rec.value.status in {Running, Failed} {
        RecGrows(k, w, w', w.rec.value);
      }
  }

  // ------------------------------------------------------------- runs

  lemma StepInv(k: Setup, w: World, a: Step)
    requires ValidSetup(k) && Inv(k, w) && Can(k, w, a)
    ensures Inv(k, Does(k, w, a))
  {
    hide Inv, TickDoes, TickCan, PersonDoes, PersonCan, ClusterDoes, ClusterCan, ValidSetup;
    match a
    case Cluster(c) => ClusterInv(k, w, c);
    case Ticks(e) => MoveTicks.TickInv(k, w, e);
    case Person(p) => PersonInv(k, w, p);
  }

  lemma {:induction false} FollowsInv(k: Setup, ws: seq<World>, acts: seq<Step>, i: nat)
    requires ValidSetup(k) && Follows(k, ws, acts) && Inv(k, ws[0]) && i < |ws|
    ensures Inv(k, ws[i])
  {
    hide Inv, Does, Can, ValidSetup;
    if i > 0 {
      FollowsInv(k, ws, acts, i - 1);
      StepInv(k, ws[i - 1], acts[i - 1]);
    }
  }

  lemma RunInv(k: Setup, ws: seq<World>, acts: seq<Step>, i: nat)
    requires Run(k, ws, acts) && i < |ws|
    ensures ValidSetup(k) && Inv(k, ws[i])
  {
    InitInv(k, ws[0]);
    FollowsInv(k, ws, acts, i);
  }

  /** One step of a run, with what holds before and after it. */
  lemma RunStep(k: Setup, ws: seq<World>, acts: seq<Step>, i: nat)
    requires Run(k, ws, acts) && i < |acts|
    ensures |ws| == |acts| + 1 && ValidSetup(k) && Inv(k, ws[i]) && Inv(k, ws[i + 1])
    ensures Can(k, ws[i], acts[i]) && ws[i + 1] == Does(k, ws[i], acts[i])
  {
    hide Inv, ValidSetup, Can, Does, Init;
    RunInv(k, ws, acts, i);
    RunInv(k, ws, acts, i + 1);
  }
}
