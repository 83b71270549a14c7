/** When a put-back holds: exactly when no tick in flight can still undo it. */
module MovePutBack {
  import opened Options
  import opened MoveSource
  import opened MoveProtocol
  import opened MoveSafety
  import opened MoveTheorems
  import MoveTicks
  import MovePeople

  // ------------------------------------------------------------- a tick in flight

  /** It is about to ask the source to stop. */
  predicate WillStop(w: World) { At(w, Quiescing) && !w.tick.m.quiesced }

  /** The first claim from i on that it has not made is not one that was here before. */
  predicate NextUnmade(k: Setup, m: Record, i: nat) {
    |m.claims| == |k.claims| &&
    exists j :: i <= j < |k.claims| && !m.claims[j].created && Pvc(k.claims[j]) !in k.before &&
      forall l :: i <= l < j ==> m.claims[l].created
  }

  /** It can still post something here. */
  predicate WillPost(k: Setup, w: World) {
    w.tick.Busy? &&
    match w.tick.pc
    case Begin => At(w, Creating) || (At(w, Restoring) && NextUnmade(k, w.tick.m, 0))
    case RestoreGet(i) => NextUnmade(k, w.tick.m, i)
    case RestorePost(i) => i < |k.claims| && Pvc(k.claims[i]) !in k.before
    case CreateGet(keys, j, _) => j < |keys| && keys[j] !in k.before
    case CreatePost(keys, j, _) => j < |keys| && keys[j] !in k.before
    case _ => false
  }

  /** Once an `abandon` has stored its record, no tick begins anew. */
  lemma NoNewTick(k: Setup, w: World)
    requires Inv(k, w) && Over(w)
    ensures !CanRead(w)
  {
    hide SourceOk, DestOk, TickOk, PeopleOk, LandedOk, RecOk;
    assert StoredOk(k, w);
  }

  lemma BeforeIsHere(k: Setup, w: World)
    requires ValidSetup(k) && DestOk(k, w)
    ensures k.before.Keys <= w.dest.Keys
    ensures forall o :: Ours(k, w, o) ==> o !in k.before
  {
    forall o | Ours(k, w, o) ensures o !in k.before { MoveTicks.OursIsOwn(k, w, o); }
  }

  lemma InvDest(k: Setup, w: World)
    requires Inv(k, w)
    ensures DestOk(k, w) && SourceOk(k, w.src, w.bucket) && StoredOk(k, w) && PeopleOk(k, w)
  {
    hide DestOk, SourceOk, StoredOk, PeopleOk, TickOk, LandedOk;
  }

  // ------------------------------------------------------------- it stays as harmless as it is

  /** After any step but a read a tick no longer stands at its beginning. */
  lemma StopStays(k: Setup, w: World, a: Step)
    requires Inv(k, w) && Over(w) && Can(k, w, a) && !WillStop(w)
    ensures !WillStop(Does(k, w, a))
    ensures w.src.origin.None? ==> Does(k, w, a).src.origin.None?
  {
    NoNewTick(k, w);
    hide Inv, Over, PersonDoes, PersonCan, TickCan, TickDoes, ClusterDoes, ClusterCan;
    match a
    case Cluster(c) => ClusterAddsNothing(k, w, c);
    case Ticks(e) => TickStopStays(k, w, e);
    case Person(p) =>
  }

  lemma TickStopStays(k: Setup, w: World, e: TickStep)
    requires TickCan(k, w, e) && !CanRead(w) && !WillStop(w)
    ensures !WillStop(TickDoes(k, w, e))
    ensures w.src.origin.None? ==> TickDoes(k, w, e).src.origin.None?
  {
    hide TickDoes, TickStores;
    TickIs(k, w, e);
    TickFrame(k, w, e);
  }

  /** What a step of a tick leaves alone. */
  lemma TickFrame(k: Setup, w: World, e: TickStep)
    requires TickCan(k, w, e)
    ensures !e.Stores? && !e.Reads? ==> TickDoes(k, w, e).tick.Busy? && TickDoes(k, w, e).tick.pc != Begin
    ensures !e.CallsQuiesce? || w.tick.m.quiesced ==> TickDoes(k, w, e).src.origin == w.src.origin
    ensures !e.PostsClaim? && !e.PostsObject? ==> TickDoes(k, w, e).dest.Keys == w.dest.Keys
  {
    hide TickJoins, TickQuiesces, TickSeesPods, TickBacksUp, TickSeesBackups, TickSyncs, TickGetsClaim;
    hide TickPostsClaim, TickSeesVolume, TickSeesVolumes, TickGetsDefinition, TickGetsObject, TickPostsObject;
    hide TickEndsCreating, TickStarts, TickSeesReady, Faulted, FreshBackups, CanBackup, Ours, Stored;
    match e
    case _ =>
  }

  /** The few things about a step that matter here. */
  lemma TickIs(k: Setup, w: World, e: TickStep)
    requires TickCan(k, w, e)
    ensures e.Reads? ==> CanRead(w)
    ensures e.CallsQuiesce? ==> At(w, Quiescing)
    ensures e.Stores? ==> TickDoes(k, w, e).tick.Idle?
  {
    hide TickDoes, CanCallBackup, CanSeeBackups, CanGetClaim, CanPostClaim, CanSeeVolume, CanSeeVolumes;
    hide CanGetDefinition;
    hide CanGetObject, CanPostObject, CanEndCreating, CanStart, CanSeeReady, CanFault, CanSeePods, CanRead;
  }

  lemma ClusterAddsNothing(k: Setup, w: World, c: ClusterStep)
    requires ClusterCan(k, w, c)
    ensures ClusterDoes(k, w, c).tick == w.tick && ClusterDoes(k, w, c).dest.Keys == w.dest.Keys
    ensures ClusterDoes(k, w, c).src.origin == w.src.origin
  {
  }

  /** A tick that cannot post still cannot after its next step, and that step adds nothing. */
  lemma PostStays(k: Setup, w: World, a: Step)
    requires ValidSetup(k) && Inv(k, w) && Over(w) && Can(k, w, a) && !WillPost(k, w)
    ensures !WillPost(k, Does(k, w, a)) && Does(k, w, a).dest.Keys <= w.dest.Keys
    ensures !(a.Person? && a.p.Abandons?) ==> Does(k, w, a).dest.Keys == w.dest.Keys
  {
    NoNewTick(k, w);
    InvDest(k, w);
    hide Inv, Over, DestOk, SourceOk, StoredOk, PeopleOk, PersonDoes, PersonCan, TickDoes, TickCan;
    hide ClusterDoes, ClusterCan;
    hide WillPost, ValidSetup, CanRead;
    match a
    case Cluster(c) => ClusterAddsNothing(k, w, c); SameTick(k, w, ClusterDoes(k, w, c));
    case Ticks(e) => TickPostStays(k, w, e);
    case Person(p) => PersonAddsNothing(k, w, p); SameTick(k, w, PersonDoes(k, w, p));
  }

  lemma SameTick(k: Setup, w: World, w': World)
    requires !WillPost(k, w) && (w'.tick.Busy? ==> w'.tick == w.tick)
    ensures !WillPost(k, w')
  {
    hide NextUnmade;
  }

  lemma PersonAddsNothing(k: Setup, w: World, p: PersonStep)
    requires PersonCan(k, w, p)
    ensures PersonDoes(k, w, p).dest.Keys <= w.dest.Keys
    ensures PersonDoes(k, w, p).tick.Busy? ==> PersonDoes(k, w, p).tick == w.tick
    ensures !p.Abandons? ==> PersonDoes(k, w, p).dest.Keys == w.dest.Keys
  {
    hide AbandonDoes, AbandonCan, CanRemove;
  }

  lemma TickPostStays(k: Setup, w: World, e: TickStep)
    requires ValidSetup(k) && DestOk(k, w) && TickCan(k, w, e) && !CanRead(w) && !WillPost(k, w)
    ensures !WillPost(k, TickDoes(k, w, e)) && TickDoes(k, w, e).dest.Keys == w.dest.Keys
  {
    BeforeIsHere(k, w);
    TickFrame(k, w, e);
    hide DestOk, ValidSetup, NextUnmade, Stored, TickBacksUp, TickSyncs, TickSeesBackups, TickSeesPods, TickSeesReady;
    hide CanCallBackup, CanSeeBackups, CanSeeVolumes, TickStarts, CanStart, TickQuiesces, TickJoins, TickSeesVolume;
    hide TickSeesVolumes, TickEndsCreating, TickStores, TickGetsClaim, TickGetsObject, Ours, Faulted;
    match e
    case GetsClaim(wait) => ClaimPostStays(k, w, wait);
    case GetsObject(skip) => NextIsPosted(k, w, skip);
    case PostsObject(lost) =>
    case PostsClaim(lost) =>
    case _ => OtherPostStays(k, w, e);
  }

  /** The other steps lead to no call that posts. */
  lemma OtherPostStays(k: Setup, w: World, e: TickStep)
    requires TickCan(k, w, e) && !CanRead(w) && !WillPost(k, w)
    requires !e.GetsClaim? && !e.GetsObject? && !e.PostsObject? && !e.PostsClaim?
    ensures !WillPost(k, TickDoes(k, w, e))
  {
    hide NextUnmade, TickJoins, TickQuiesces, TickSeesPods, TickBacksUp, TickSeesBackups, TickSyncs, TickSeesVolume;
    hide TickSeesVolumes, TickEndsCreating, TickStarts, TickSeesReady, Faulted, Stored, FreshBackups, Leaves;
    match e
    case Stores(now) => TickIs(k, w, e);
    case _ =>
  }

  /** An object that comes next and is nobody else's is one to post. */
  lemma NextIsPosted(k: Setup, w: World, skip: bool)
    requires CanGetObject(k, w, skip)
    requires k.before.Keys <= w.dest.Keys && forall o :: Ours(k, w, o) ==> o !in k.before
    ensures WillPost(k, w)
  {
  }

  lemma ClaimPostStays(k: Setup, w: World, wait: bool)
    requires CanGetClaim(k, w) && !WillPost(k, w)
    requires k.before.Keys <= w.dest.Keys && forall o :: Ours(k, w, o) ==> o !in k.before
    ensures !WillPost(k, TickGetsClaim(k, w, wait))
  {
    var i, m := w.tick.pc.i, w.tick.m;
    UnmadeHere(k, m, i);
    hide NextUnmade, Note;
  }

  lemma UnmadeHere(k: Setup, m: Record, i: nat)
    requires |m.claims| == |k.claims| && i < |k.claims|
    ensures NextUnmade(k, m, i) <==>
      if m.claims[i].created then NextUnmade(k, m, i + 1) else Pvc(k.claims[i]) !in k.before
  {
    if m.claims[i].created && NextUnmade(k, m, i + 1) {
      var j :| i + 1 <= j < |k.claims| && !m.claims[j].created && Pvc(k.claims[j]) !in k.before &&
        forall l :: i + 1 <= l < j ==> m.claims[l].created;
      assert forall l :: i <= l < j ==> m.claims[l].created;
    }
  }

  // ------------------------------------------------------------- whatever follows

  ghost predicate Reaches(k: Setup, w: World, w': World) {
    exists ws, acts :: Follows(k, ws, acts) && ws[0] == w && ws[|ws| - 1] == w'
  }

  lemma Stays(k: Setup, w: World)
    ensures Reaches(k, w, w)
  {
    assert Follows(k, [w], []) && [w][0] == w;
  }

  lemma Then(k: Setup, w: World, v: World, a: Step)
    requires Reaches(k, w, v) && Can(k, v, a)
    ensures Reaches(k, w, Does(k, v, a))
  {
    var ws, acts :| Follows(k, ws, acts) && ws[0] == w && ws[|ws| - 1] == v;
    var ws', acts' := ws + [Does(k, v, a)], acts + [a];
    hide Can, Does;
    assert Follows(k, ws', acts') by {
      forall i | 0 <= i < |acts'|
        ensures Can(k, ws'[i], acts'[i]) && ws'[i + 1] == Does(k, ws'[i], acts'[i])
      {
        if i < |acts| {
          assert ws'[i] == ws[i] && ws'[i + 1] == ws[i + 1] && acts'[i] == acts[i];
        }
      }
    }
    assert ws'[0] == w && ws'[|ws'| - 1] == Does(k, v, a);
  }

  /** One step of anybody after an `abandon` stored its record. */
  lemma StepOn(k: Setup, w: World, a: Step)
    requires ValidSetup(k) && Inv(k, w) && Over(w) && Can(k, w, a)
    ensures Inv(k, Does(k, w, a)) && Over(Does(k, w, a))
    ensures !WillStop(w) ==> !WillStop(Does(k, w, a)) && (w.src.origin.None? ==> Does(k, w, a).src.origin.None?)
    ensures !WillPost(k, w) ==> !WillPost(k, Does(k, w, a)) && Does(k, w, a).dest.Keys <= w.dest.Keys
  {
    hide *;
    MovePeople.StepInv(k, w, a);
    OverStays(k, w, a);
    if !WillStop(w) { StopStays(k, w, a); }
    if !WillPost(k, w) { PostStays(k, w, a); }
  }

  lemma FollowsAt(k: Setup, ws: seq<World>, acts: seq<Step>, n: nat)
    requires Follows(k, ws, acts) && 0 < n < |ws|
    ensures n - 1 < |acts| && Can(k, ws[n - 1], acts[n - 1]) && ws[n] == Does(k, ws[n - 1], acts[n - 1])
  {
    hide Can, Does;
    assert ws[n - 1 + 1] == ws[n];
  }

  lemma {:induction false} StepsOn(k: Setup, ws: seq<World>, acts: seq<Step>, i: nat, n: nat)
    requires ValidSetup(k) && Follows(k, ws, acts) && i <= n < |ws| && Inv(k, ws[i]) && Over(ws[i])
    ensures Inv(k, ws[n]) && Over(ws[n])
    ensures !WillStop(ws[i]) ==> !WillStop(ws[n]) && (ws[i].src.origin.None? ==> ws[n].src.origin.None?)
    ensures !WillPost(k, ws[i]) ==> !WillPost(k, ws[n]) && ws[n].dest.Keys <= ws[i].dest.Keys
    decreases n
  {
    hide *;
    if i < n {
      FollowsAt(k, ws, acts, n);
      StepsOn(k, ws, acts, i, n - 1);
      StepOn(k, ws[n - 1], acts[n - 1]);
    }
  }

  /** No step of anybody, ever, stops the source again. */
  ghost predicate SourceStays(k: Setup, w: World) {
    forall ws: seq<World>, acts: seq<Step>, n :: Follows(k, ws, acts) && ws[0] == w && 0 <= n < |ws| ==>
      ws[n].src.origin.None?
  }

  /** And nothing of the move ever appears here again either. */
  ghost predicate AllStays(k: Setup, w: World) {
    forall ws: seq<World>, acts: seq<Step>, n :: Follows(k, ws, acts) && ws[0] == w && 0 <= n < |ws| ==>
      ws[n].src.origin.None? && ws[n].dest == k.before
  }

  lemma AllIsSource(k: Setup, w: World)
    ensures AllStays(k, w) ==> SourceStays(k, w)
  {
    hide Follows;
  }

  lemma TwoStates(k: Setup, w: World, a: Step)
    requires Can(k, w, a)
    ensures Follows(k, [w, Does(k, w, a)], [a])
  {
  }

  lemma TickStopsAgain(k: Setup, w: World)
    requires Inv(k, w) && w.released && WillStop(w)
    ensures var a := Ticks(CallsQuiesce(false)); Can(k, w, a) && Does(k, w, a).src.origin.Some?
  {
    InvDest(k, w);
    hide Inv, DestOk, SourceOk, PeopleOk, RecOk, Over;
  }

  /** A released source stays released, whatever anybody does, exactly when no tick in flight
      is about to ask it to stop. */
  lemma SourceStaysBack(k: Setup, w: World)
    requires ValidSetup(k) && Inv(k, w) && w.released && w.src.origin.None?
    ensures SourceStays(k, w) <==> !WillStop(w)
  {
    ReleasedIsOver(k, w);
    hide Inv, ValidSetup, Follows, WillStop, WillPost, Over, Can, Does;
    if WillStop(w) {
      TickStopsAgain(k, w);
      var a := Ticks(CallsQuiesce(false));
      TwoStates(k, w, a);
      assert [w, Does(k, w, a)][1].src.origin.Some?;
    } else {
      forall ws: seq<World>, acts: seq<Step>, n | Follows(k, ws, acts) && ws[0] == w && 0 <= n < |ws|
        ensures ws[n].src.origin.None?
      {
        StepsOn(k, ws, acts, 0, n);
      }
    }
  }

  lemma ReleasedIsOver(k: Setup, w: World)
    requires Inv(k, w) && w.released
    ensures Over(w) && w.src.present
  {
    InvDest(k, w);
    hide Inv, DestOk, SourceOk, PeopleOk, RecOk, Over;
  }

  lemma NothingElse(k: Setup, w: World)
    requires DestOk(k, w) && w.dest.Keys <= k.before.Keys
    ensures w.dest == k.before
  {
    assert w.dest.Keys == k.before.Keys;
  }

  // ------------------------------------------------------------- what a tick can still post

  lemma {:induction false} Letters(n: nat) returns (s: string)
    ensures |s| == n
  {
    if n == 0 { s := ""; } else { var t := Letters(n - 1); s := t + "x"; }
  }

  /** No finite set has the name of every service. */
  lemma {:induction false} UnusedService(used: set<Key>, n: nat) returns (o: Key)
    ensures o.Service? && o !in used && |o.name| >= n
    decreases |used|
  {
    var s := Letters(n);
    o := Service(s);
    if o in used {
      var more := UnusedService(used - {o}, n + 1);
      o := more;
    }
  }

  /** What a tick knows of a record it works on. */
  lemma TickKnows(k: Setup, w: World)
    requires Inv(k, w) && w.tick.Busy?
    ensures RowsFit(k, w) && PcOk(k, w, w.tick.m, w.tick.pc)
    ensures w.tick.m.phase == Restoring ==> Named(w.tick.m)
  {
    MoveTicks.TickFacts(k, w);
  }

  ghost predicate Posts(k: Setup, w0: World) { exists v :: Reaches(k, w0, v) && v.dest != k.before }

  lemma PostAdds(k: Setup, w0: World, w: World, a: Step)
    requires Reaches(k, w0, w) && Can(k, w, a) && Does(k, w, a).dest != k.before
    ensures Posts(k, w0)
  {
    Then(k, w0, w, a);
  }

  lemma ClaimIsPosted(k: Setup, w0: World, w: World)
    requires Inv(k, w) && Reaches(k, w0, w) && w.dest == k.before && w.tick.Busy? && w.tick.pc.RestorePost?
    requires WillPost(k, w)
    ensures Posts(k, w0)
  {
    TickKnows(k, w);
    hide Inv, Reaches, Follows;
    var a, o := Ticks(PostsClaim(false)), Pvc(k.claims[w.tick.pc.i]);
    assert Can(k, w, a) && o in Does(k, w, a).dest;
    PostAdds(k, w0, w, a);
  }

  lemma ObjectIsPosted(k: Setup, w0: World, w: World)
    requires Reaches(k, w0, w) && w.dest == k.before && w.tick.Busy? && w.tick.pc.CreatePost? && WillPost(k, w)
    ensures Posts(k, w0)
  {
    hide Reaches, Follows;
    var a, o := Ticks(PostsObject(false)), w.tick.pc.keys[w.tick.pc.j];
    assert Can(k, w, a) && o in Does(k, w, a).dest;
    PostAdds(k, w0, w, a);
  }

  lemma GetsThenPosts(k: Setup, w0: World, w: World)
    requires Reaches(k, w0, w) && w.dest == k.before && w.tick.Busy? && w.tick.pc.CreateGet? && WillPost(k, w)
    ensures Posts(k, w0)
  {
    hide Reaches, Follows;
    var a := Ticks(GetsObject(false));
    var v := Next(w, w.tick.m, CreatePost(w.tick.pc.keys, w.tick.pc.j, w.tick.pc.origin));
    assert Can(k, w, a) && Does(k, w, a) == v;
    Then(k, w0, w, a);
    ObjectIsPosted(k, w0, v);
  }

  lemma DefinesThenPosts(k: Setup, w0: World, w: World)
    requires Reaches(k, w0, w) && w.dest == k.before && At(w, Creating) && w.src.present
    ensures Posts(k, w0)
  {
    hide Reaches, Follows;
    var o := UnusedService(k.before.Keys, 0);
    var a := Ticks(GetsDefinition([o]));
    var v := TickGetsDefinition(w, [o]);
    assert Can(k, w, a) && Does(k, w, a) == v;
    assert v.tick.pc.keys[0] == o;
    Then(k, w0, w, a);
    GetsThenPosts(k, w0, v);
  }

  lemma {:induction false} ClaimsThenPosts(k: Setup, w0: World, w: World)
    requires ValidSetup(k) && Inv(k, w) && Reaches(k, w0, w) && w.dest == k.before
    requires w.tick.Busy? && w.tick.pc.RestoreGet? && WillPost(k, w)
    ensures Posts(k, w0)
    decreases |k.claims| - w.tick.pc.i
  {
    TickKnows(k, w);
    var i, m := w.tick.pc.i, w.tick.m;
    UnmadeHere(k, m, i);
    var a, v := Ticks(GetsClaim(false)), TickGetsClaim(k, w, false);
    GetsNext(k, w);
    hide Inv, Reaches, Follows, NextUnmade, ValidSetup, Can, Does;
    Then(k, w0, w, a);
    MovePeople.StepInv(k, w, a);
    if m.claims[i].created {
      NoneAfterLast(k, m, i + 1);
      ClaimsThenPosts(k, w0, v);
    } else {
      ClaimIsPosted(k, w0, v);
    }
  }

  lemma GetsNext(k: Setup, w: World)
    requires RowsFit(k, w) && w.tick.pc.RestoreGet? && w.tick.pc.i < |k.claims| && w.dest == k.before && WillPost(k, w)
    ensures Can(k, w, Ticks(GetsClaim(false))) && Does(k, w, Ticks(GetsClaim(false))) == TickGetsClaim(k, w, false)
  {
    UnmadeHere(k, w.tick.m, w.tick.pc.i);
    hide NextUnmade, Ours, Follows;
  }

  lemma NoneAfterLast(k: Setup, m: Record, i: nat)
    requires NextUnmade(k, m, i)
    ensures i < |k.claims|
  {
  }

  lemma RestoreBegins(k: Setup, w: World)
    requires At(w, Restoring)
    ensures Can(k, w, Ticks(BeginsRestore)) && Does(k, w, Ticks(BeginsRestore)) == ToClaim(k, w, w.tick.m, 0)
  {
  }

  lemma RestoresThenPosts(k: Setup, w0: World, w: World)
    requires ValidSetup(k) && Inv(k, w) && Reaches(k, w0, w) && w.dest == k.before
    requires At(w, Restoring) && NextUnmade(k, w.tick.m, 0)
    ensures Posts(k, w0)
  {
    NoneAfterLast(k, w.tick.m, 0);
    RestoreBegins(k, w);
    hide Inv, Reaches, Follows, NextUnmade, ValidSetup, Can, Does;
    Then(k, w0, w, Ticks(BeginsRestore));
    MovePeople.StepInv(k, w, Ticks(BeginsRestore));
    ClaimsThenPosts(k, w0, ToClaim(k, w, w.tick.m, 0));
  }

  lemma TickPosts(k: Setup, w0: World, w: World)
    requires ValidSetup(k) && Inv(k, w) && Reaches(k, w0, w) && w.dest == k.before && w.src.present && WillPost(k, w)
    ensures Posts(k, w0)
  {
    hide Inv, Reaches, Follows, NextUnmade, ValidSetup, Posts;
    match w.tick.pc
    case Begin => if At(w, Creating) { DefinesThenPosts(k, w0, w); } else { RestoresThenPosts(k, w0, w); }
    case RestoreGet(_) => ClaimsThenPosts(k, w0, w);
    case RestorePost(_) => ClaimIsPosted(k, w0, w);
    case CreateGet(_, _, _) => GetsThenPosts(k, w0, w);
    case CreatePost(_, _, _) => ObjectIsPosted(k, w0, w);
  }

  /** A finished put-back holds for good, on both sides, exactly when no tick in flight is
      about to stop the source or can still post here. */
  lemma PutBackStays(k: Setup, w: World)
    requires ValidSetup(k) && Inv(k, w) && w.released && w.src.origin.None? && w.dest == k.before
    ensures AllStays(k, w) <==> !WillStop(w) && !WillPost(k, w)
  {
    ReleasedIsOver(k, w);
    SourceStaysBack(k, w);
    hide Inv, ValidSetup, Follows, WillStop, WillPost, Over, Can, Does;
    if !WillStop(w) && !WillPost(k, w) {
      forall ws: seq<World>, acts: seq<Step>, n | Follows(k, ws, acts) && ws[0] == w && 0 <= n < |ws|
        ensures ws[n].src.origin.None? && ws[n].dest == k.before
      {
        StepsOn(k, ws, acts, 0, n);
        InvDest(k, ws[n]);
        NothingElse(k, ws[n]);
      }
    }
    if WillPost(k, w) {
      Stays(k, w);
      TickPosts(k, w, w);
      var v :| Reaches(k, w, v) && v.dest != k.before;
      var ws, acts :| Follows(k, ws, acts) && ws[0] == w && ws[|ws| - 1] == v;
      assert !AllStays(k, w);
    }
    AllIsSource(k, w);
  }
}
