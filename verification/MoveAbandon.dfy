/** What a put-back restores, said of the state in which it is about to release the source. */
module MoveAbandon {
  import opened Options
  import opened MoveSource
  import opened MoveProtocol
  import opened MoveSafety
  import opened MoveTheorems
  import opened MovePutBack
  import MoveTicks
  import MovePeople

  /** One `abandon`, from a state in which it is about to release the source and no tick in
      flight can undo it, up to state j; whatever else people and clusters do meanwhile. */
  ghost predicate QuietAbandon(k: Setup, ws: seq<World>, acts: seq<Step>, r: nat, j: nat, t: nat) {
    && ValidSetup(k) && Follows(k, ws, acts) && r <= j < |ws| && Inv(k, ws[r])
    && (forall m :: r <= m <= j ==> IsAbandon(ws[m], t))
    && ws[r].people[t].apc == CallRelease && !WillStop(ws[r]) && !WillPost(k, ws[r])
  }

  /** The order cancelled is stored by then. */
  lemma ReleasingIsOver(k: Setup, w: World, t: nat)
    requires Inv(k, w) && IsAbandon(w, t) && w.people[t].apc == CallRelease
    ensures Over(w) && Cleared(k, w, w.people[t])
  {
    InvDest(k, w);
    hide Inv, SourceOk, DestOk, StoredOk, Own, Over;
    assert ThreadOk(k, w, w.people[t]);
  }

  /** One step of anybody undoes nothing of the clearing. */
  lemma ClearedStep(k: Setup, w: World, a: Step, t: nat)
    requires ValidSetup(k) && Inv(k, w) && Over(w) && Can(k, w, a) && IsAbandon(w, t) && IsAbandon(Does(k, w, a), t)
    requires !WillStop(w) && !WillPost(k, w) && Cleared(k, w, w.people[t])
    ensures Cleared(k, Does(k, w, a), Does(k, w, a).people[t])
  {
    StepOn(k, w, a);
    InvDest(k, w);
    hide Inv, DestOk, SourceOk, StoredOk, PeopleOk, ValidSetup, Cleared, TickDoes, TickCan, WillPost, WillStop, Over;
    if a.Person? && a.p.Abandons? && a.p.t == t {
      AbandonClears(k, w, t, a.p.answered, a.p.pick, a.p.now);
    } else {
      ThreadWaits(k, w, a, t);
      ClearedStays(k, w, Does(k, w, a), w.people[t]);
    }
  }

  lemma {:induction false} QuietAbandonClears(k: Setup, ws: seq<World>, acts: seq<Step>, r: nat, j: nat, t: nat)
    requires QuietAbandon(k, ws, acts, r, j, t)
    ensures j < |ws| && Inv(k, ws[j]) && Over(ws[j]) && !WillStop(ws[j]) && !WillPost(k, ws[j])
    ensures IsAbandon(ws[j], t) && Cleared(k, ws[j], ws[j].people[t])
    decreases j
  {
    hide *;
    QuietParts(k, ws, acts, r, j, t);
    if j == r {
      ReleasingIsOver(k, ws[r], t);
    } else {
      QuietAbandonClears(k, ws, acts, r, j - 1, t);
      FollowsAt(k, ws, acts, j);
      StepOn(k, ws[j - 1], acts[j - 1]);
      ClearedStep(k, ws[j - 1], acts[j - 1], t);
    }
  }

  lemma QuietParts(k: Setup, ws: seq<World>, acts: seq<Step>, r: nat, j: nat, t: nat)
    requires QuietAbandon(k, ws, acts, r, j, t)
    ensures ValidSetup(k) && Follows(k, ws, acts) && r <= j < |ws| && IsAbandon(ws[j], t)
    ensures Inv(k, ws[r]) && IsAbandon(ws[r], t) && ws[r].people[t].apc == CallRelease
    ensures !WillStop(ws[r]) && !WillPost(k, ws[r])
    ensures r < j ==> QuietAbandon(k, ws, acts, r, j - 1, t)
  {
    hide ValidSetup, Follows, Inv, WillStop, WillPost;
  }

  // ------------------------------------------------------------- what a failed listing hides

  /** Nobody else puts back in the meantime. */
  predicate Alone(acts: seq<Step>, r: nat, j: nat, t: nat) {
    forall m :: r <= m < j && m < |acts| && acts[m].Person? && acts[m].p.Abandons? ==> acts[m].p.t == t
  }

  /** What is still to be deleted is of its kind, and nothing after a listing that failed. */
  predicate Sorted(th: Thread)
    requires th.Abandon?
  {
    && (th.apc.DeleteServices? ==>
      (forall o :: o in th.apc.left ==> o.Service?) && (!th.services ==> th.apc.left == {}))
    && (th.apc.DeleteSecrets? ==> (forall o :: o in th.apc.left ==> o.Secret?) && (!th.secrets ==> th.apc.left == {}))
  }

  /** The services and secrets that were here when the release was about to be called, and
      that no listing has shown since, are the ones here now. */
  ghost predicate KeptHidden(w0: World, w: World, th: Thread)
    requires th.Abandon?
  {
    && Sorted(th)
    && (Order(th.apc) < 5 || !th.services ==> forall o: Key :: o.Service? ==> (o in w.dest <==> o in w0.dest))
    && (Order(th.apc) < 7 || !th.secrets ==> forall o: Key :: o.Secret? ==> (o in w.dest <==> o in w0.dest))
  }

  lemma KeptByOwn(k: Setup, w0: World, w: World, t: nat, answered: bool, pick: Key, now: nat)
    requires IsAbandon(w, t) && AbandonCan(k, w, w.people[t].apc, pick) && KeptHidden(w0, w, w.people[t])
    ensures var w' := AbandonDoes(k, w, t, answered, pick, now); IsAbandon(w', t) && KeptHidden(w0, w', w'.people[t])
  {
    hide Ours, Undoes, Release;
    var th, w' := w.people[t], AbandonDoes(k, w, t, answered, pick, now);
    assert w'.dest == w.dest - AbandonDeletes(k, w, th.apc, pick);
    DeletesItsKind(k, w, th, pick);
    SortedOn(k, w, th, answered, pick, now);
  }

  lemma DeletesItsKind(k: Setup, w: World, th: Thread, pick: Key)
    requires th.Abandon? && AbandonCan(k, w, th.apc, pick) && Sorted(th)
    ensures (exists o: Key :: o.Service? && o in AbandonDeletes(k, w, th.apc, pick)) ==>
      th.apc.DeleteServices? && th.services
    ensures (exists o: Key :: o.Secret? && o in AbandonDeletes(k, w, th.apc, pick)) ==>
      th.apc.DeleteSecrets? && th.secrets
  {
  }

  lemma SortedOn(k: Setup, w: World, th: Thread, answered: bool, pick: Key, now: nat)
    requires th.Abandon? && AbandonCan(k, w, th.apc, pick) && Sorted(th)
    ensures Sorted(AbandonNext(k, w, th, answered, pick, now))
    ensures var th' := AbandonNext(k, w, th, answered, pick, now);
      && Order(th.apc) <= Order(th'.apc)
      && (Order(th.apc) >= 5 ==> th'.services == th.services) && (Order(th.apc) >= 7 ==> th'.secrets == th.secrets)
  {
    hide Ours;
  }

  lemma KeptStep(k: Setup, w0: World, w: World, a: Step, t: nat)
    requires ValidSetup(k) && Inv(k, w) && Over(w) && Can(k, w, a) && IsAbandon(w, t) && IsAbandon(Does(k, w, a), t)
    requires !WillPost(k, w) && KeptHidden(w0, w, w.people[t])
    requires a.Person? && a.p.Abandons? ==> a.p.t == t
    ensures KeptHidden(w0, Does(k, w, a), Does(k, w, a).people[t])
  {
    PostStays(k, w, a);
    hide Inv, ValidSetup, TickDoes, TickCan, WillPost, Over, AbandonDoes, KeptHidden;
    if a.Person? && a.p.Abandons? {
      KeptByOwn(k, w0, w, t, a.p.answered, a.p.pick, a.p.now);
    } else {
      ThreadWaits(k, w, a, t);
      SameKeys(w0, w, Does(k, w, a), w.people[t]);
    }
  }

  lemma SameKeys(w0: World, w: World, w': World, th: Thread)
    requires th.Abandon? && KeptHidden(w0, w, th) && w'.dest.Keys == w.dest.Keys
    ensures KeptHidden(w0, w', th)
  {
    assert forall o :: o in w'.dest <==> o in w.dest.Keys;
  }

  lemma {:induction false} QuietAbandonKeeps(k: Setup, ws: seq<World>, acts: seq<Step>, r: nat, j: nat, t: nat)
    requires QuietAbandon(k, ws, acts, r, j, t) && Alone(acts, r, j, t)
    ensures r <= j < |ws| && IsAbandon(ws[j], t) && KeptHidden(ws[r], ws[j], ws[j].people[t])
    decreases j
  {
    hide *;
    QuietParts(k, ws, acts, r, j, t);
    if j == r {
      NothingListed(ws[r], t);
    } else {
      AloneParts(acts, r, j, t);
      QuietAbandonKeeps(k, ws, acts, r, j - 1, t);
      QuietAbandonClears(k, ws, acts, r, j - 1, t);
      FollowsAt(k, ws, acts, j);
      KeptStep(k, ws[r], ws[j - 1], acts[j - 1], t);
    }
  }

  lemma AloneParts(acts: seq<Step>, r: nat, j: nat, t: nat)
    requires Alone(acts, r, j, t) && r < j
    ensures Alone(acts, r, j - 1, t)
    ensures j - 1 < |acts| && acts[j - 1].Person? && acts[j - 1].p.Abandons? ==> acts[j - 1].p.t == t
  {
  }

  lemma NothingListed(w: World, t: nat)
    requires IsAbandon(w, t) && w.people[t].apc == CallRelease
    ensures KeptHidden(w, w, w.people[t])
  {
  }

  /** An `abandon` that was about to release the source, with no tick in flight that could
      undo it, ends with the destination exactly as before the move if and only if each of
      its two listings answered, or there was nothing of its kind to be shown when the
      release was about to be called. The source runs as it did, whatever crashes and
      repeats went before. */
  lemma AbandonRestores(k: Setup, ws: seq<World>, acts: seq<Step>, r: nat, j: nat, t: nat)
    requires QuietAbandon(k, ws, acts, r, j, t) && Alone(acts, r, j, t) && ws[j].people[t].apc == Finished
    ensures ws[j].dest == k.before <==>
      && (ws[j].people[t].services || forall o :: Ours(k, ws[r], o) ==> !o.Service?)
      && (ws[j].people[t].secrets || forall o :: Ours(k, ws[r], o) ==> !o.Secret?)
    ensures ws[j].src.present && ws[j].src.volumes && ws[j].src.origin.None? && ws[j].src.backups == map[]
    ensures RunStateOf(ws[j].src.spec) == RunStateOf(k.spec)
  {
    hide *;
    QuietParts(k, ws, acts, r, j, t);
    QuietAbandonClears(k, ws, acts, r, j, t);
    QuietAbandonKeeps(k, ws, acts, r, j, t);
    InvDest(k, ws[r]);
    InvDest(k, ws[j]);
    OnlyHiddenLeft(k, ws[j], t);
    HiddenIsLeft(k, ws[r], ws[j], t);
  }

  lemma HiddenIsLeft(k: Setup, w0: World, w: World, t: nat)
    requires ValidSetup(k) && DestOk(k, w0) && DestOk(k, w) && IsAbandon(w, t) && w.people[t].apc == Finished
    requires KeptHidden(w0, w, w.people[t])
    requires forall o :: Ours(k, w, o) ==> (o.Service? && !w.people[t].services) || (o.Secret? && !w.people[t].secrets)
    ensures (forall o :: !Ours(k, w, o)) <==>
      && (w.people[t].services || forall o :: Ours(k, w0, o) ==> !o.Service?)
      && (w.people[t].secrets || forall o :: Ours(k, w0, o) ==> !o.Secret?)
  {
    forall o: Key ensures (Ours(k, w, o) <==> Own(k, w, o)) && (Ours(k, w0, o) <==> Own(k, w0, o)) {
      MoveTicks.OursIsOwn(k, w, o);
      MoveTicks.OursIsOwn(k, w0, o);
    }
    hide DestOk, ValidSetup, Ours;
  }

  // ------------------------------------------------------------- it can always be finished

  /** The calls of an `abandon` that come next all have something to answer. */
  predicate Ready(k: Setup, w: World, apc: APc) {
    match apc
    case StoreCancelled => false
    case CallRelease => w.src.present
    case DeleteWorkload => Workload in w.dest
    case DeleteServices(left) => left <= w.dest.Keys
    case DeleteSecrets(left) => left <= w.dest.Keys
    case GetClaim(i) => i <= |k.claims|
    case DeleteClaim(i) => i < |k.claims| && Pvc(k.claims[i]) in w.dest
    case _ => true
  }

  predicate Answered(th: Thread)
    requires th.Abandon?
  {
    (Order(th.apc) >= 5 ==> th.services) && (Order(th.apc) >= 7 ==> th.secrets)
  }

  /** What is left to do within one part of it. */
  function Left(k: Setup, apc: APc): nat {
    match apc
    case DeleteServices(left) => |left|
    case DeleteSecrets(left) => |left|
    case GetClaim(i) => if i <= |k.claims| then 2 * (|k.claims| - i) + 1 else 0
    case DeleteClaim(i) => if i <= |k.claims| then 2 * (|k.claims| - i) else 0
    case _ => 0
  }

  /** The object a deletion takes next. */
  lemma PicksOne(k: Setup, w: World, apc: APc) returns (pick: Key)
    requires Ready(k, w, apc) && apc != Finished
    ensures AbandonCan(k, w, apc, pick)
  {
    pick := Workload;
    if (apc.DeleteServices? || apc.DeleteSecrets?) && apc.left != {} {
      var o :| o in apc.left;
      pick := o;
    }
  }

  lemma CallAnswers(k: Setup, w: World, t: nat, pick: Key)
    requires IsAbandon(w, t) && Ready(k, w, w.people[t].apc) && Answered(w.people[t])
    requires AbandonCan(k, w, w.people[t].apc, pick)
    ensures var w' := AbandonDoes(k, w, t, true, pick, 0);
      && IsAbandon(w', t) && Ready(k, w', w'.people[t].apc) && Answered(w'.people[t]) && w'.tick == w.tick
      && Order(w.people[t].apc) <= Order(w'.people[t].apc)
      && (Order(w.people[t].apc) == Order(w'.people[t].apc) ==> Left(k, w'.people[t].apc) < Left(k, w.people[t].apc))
  {
    hide Undoes, Release, AbandonDeletes;
    var th, w' := w.people[t], AbandonDoes(k, w, t, true, pick, 0);
    assert w'.dest == w.dest - AbandonDeletes(k, w, th.apc, pick);
    NextAnswers(k, w, th, pick);
  }

  lemma NextAnswers(k: Setup, w: World, th: Thread, pick: Key)
    requires th.Abandon? && Ready(k, w, th.apc) && Answered(th) && AbandonCan(k, w, th.apc, pick)
    ensures var th' := AbandonNext(k, w, th, true, pick, 0);
      && Answered(th') && Order(th.apc) <= Order(th'.apc)
      && (Order(th.apc) == Order(th'.apc) ==> Left(k, th'.apc) < Left(k, th.apc))
    ensures var th' := AbandonNext(k, w, th, true, pick, 0);
      Ready(k, w.(dest := w.dest - AbandonDeletes(k, w, th.apc, pick)), th'.apc)
  {
    hide *;
    NextIsLess(k, w, th, pick);
    NextIsReady(k, w, th, pick);
  }

  lemma NextIsLess(k: Setup, w: World, th: Thread, pick: Key)
    requires th.Abandon? && Ready(k, w, th.apc) && Answered(th) && AbandonCan(k, w, th.apc, pick)
    ensures var th' := AbandonNext(k, w, th, true, pick, 0);
      && Answered(th') && Order(th.apc) <= Order(th'.apc)
      && (Order(th.apc) == Order(th'.apc) ==> Left(k, th'.apc) < Left(k, th.apc))
  {
    hide Ours, OursOf;
  }

  lemma NextIsReady(k: Setup, w: World, th: Thread, pick: Key)
    requires th.Abandon? && Ready(k, w, th.apc) && AbandonCan(k, w, th.apc, pick)
    ensures var th' := AbandonNext(k, w, th, true, pick, 0);
      Ready(k, w.(dest := w.dest - AbandonDeletes(k, w, th.apc, pick)), th'.apc)
  {
    hide Order, Left;
  }

  /** The request `t` is in flight all along the way from w0 to w. */
  ghost predicate Leads(k: Setup, w0: World, w: World, t: nat) {
    exists ws, acts :: Way(k, ws, acts, t) && ws[0] == w0 && ws[|ws| - 1] == w
  }

  ghost predicate Way(k: Setup, ws: seq<World>, acts: seq<Step>, t: nat) {
    Follows(k, ws, acts) && forall m :: 0 <= m < |ws| ==> IsAbandon(ws[m], t)
  }

  lemma LeadsOn(k: Setup, w0: World, w: World, a: Step, t: nat)
    requires Leads(k, w0, w, t) && Can(k, w, a) && IsAbandon(Does(k, w, a), t)
    ensures Leads(k, w0, Does(k, w, a), t)
  {
    var ws, acts :| Way(k, ws, acts, t) && ws[0] == w0 && ws[|ws| - 1] == w;
    hide Can, Does, IsAbandon;
    var ws', acts' := ws + [Does(k, w, a)], acts + [a];
    forall i | 0 <= i < |acts'| ensures Can(k, ws'[i], acts'[i]) && ws'[i + 1] == Does(k, ws'[i], acts'[i]) {
      if i < |acts| {
        assert ws'[i] == ws[i] && ws'[i + 1] == ws[i + 1] && acts'[i] == acts[i];
      }
    }
    assert Way(k, ws', acts', t);
    assert ws'[0] == w0 && ws'[|ws'| - 1] == Does(k, w, a);
  }

  /** With nobody else doing anything, every call answers and the request ends. */
  lemma {:induction false} Finishes(k: Setup, w0: World, w: World, t: nat) returns (v: World)
    requires ValidSetup(k) && Inv(k, w) && IsAbandon(w, t) && Cleared(k, w, w.people[t])
    requires Ready(k, w, w.people[t].apc) && Answered(w.people[t]) && Leads(k, w0, w, t)
    ensures Leads(k, w0, v, t) && Inv(k, v) && IsAbandon(v, t) && Cleared(k, v, v.people[t])
    ensures v.people[t].apc == Finished && v.people[t].services && v.people[t].secrets && v.tick == w.tick
    decreases 11 - Order(w.people[t].apc), Left(k, w.people[t].apc)
  {
    hide Inv, ValidSetup, Cleared, Ready, Leads, Left, AbandonCan, AbandonDoes;
    v := w;
    if w.people[t].apc != Finished {
      var pick := PicksOne(k, w, w.people[t].apc);
      var a := Abandons(t, true, pick, 0);
      var w' := AbandonDoes(k, w, t, true, pick, 0);
      CallAnswers(k, w, t, pick);
      InvDest(k, w);
      AbandonClears(k, w, t, true, pick, 0);
      MovePeople.PersonInv(k, w, a);
      LeadsOn(k, w0, w, Person(a), t);
      OrderEnds(w.people[t].apc);
      v := Finishes(k, w0, w', t);
    }
  }

  lemma OrderEnds(apc: APc)
    ensures Order(apc) <= 10 && (Order(apc) == 10 <==> apc == Finished)
  {
  }

  // ------------------------------------------------------------- whatever follows

  /** The request has ended by state j, and both its listings answered. */
  ghost predicate Ends(ws: seq<World>, j: nat, t: nat) {
    && j < |ws| && (forall m :: 0 <= m <= j ==> IsAbandon(ws[m], t))
    && ws[j].people[t].apc == Finished && ws[j].people[t].services && ws[j].people[t].secrets
  }

  /** Whatever anybody does, once it has ended everything is as before the move for good. */
  ghost predicate Holds(k: Setup, w: World, t: nat) {
    forall ws: seq<World>, acts: seq<Step>, j: nat, n: nat ::
      Follows(k, ws, acts) && ws[0] == w && j <= n < |ws| && Ends(ws, j, t) ==> BackIn(k, ws[n])
  }

  ghost predicate BackIn(k: Setup, w: World) { w.src.origin.None? && w.dest == k.before }

  lemma EndsBack(k: Setup, w: World, t: nat)
    requires ValidSetup(k) && Inv(k, w) && IsAbandon(w, t) && Cleared(k, w, w.people[t])
    requires w.people[t].apc == Finished && w.people[t].services && w.people[t].secrets
    ensures BackIn(k, w) && w.released
  {
    OnlyHiddenLeft(k, w, t);
    InvDest(k, w);
    hide Inv, SourceOk, DestOk, StoredOk, Cleared, Over, ValidSetup;
    assert ThreadOk(k, w, w.people[t]);
  }

  lemma HoldsWhenQuiet(k: Setup, w: World, ws: seq<World>, acts: seq<Step>, j: nat, n: nat, t: nat)
    requires ValidSetup(k) && Inv(k, w) && IsAbandon(w, t) && w.people[t].apc == CallRelease
    requires !WillStop(w) && !WillPost(k, w)
    requires Follows(k, ws, acts) && ws[0] == w && j <= n < |ws| && Ends(ws, j, t)
    ensures BackIn(k, ws[n])
  {
    hide *;
    QuietFrom(k, w, ws, acts, j, t);
    QuietAbandonClears(k, ws, acts, 0, j, t);
    EndsParts(ws, j, t);
    EndsBack(k, ws[j], t);
    StaysBack(k, ws, acts, j, n);
  }

  lemma QuietFrom(k: Setup, w: World, ws: seq<World>, acts: seq<Step>, j: nat, t: nat)
    requires ValidSetup(k) && Inv(k, w) && IsAbandon(w, t) && w.people[t].apc == CallRelease
    requires !WillStop(w) && !WillPost(k, w) && Follows(k, ws, acts) && ws[0] == w && Ends(ws, j, t)
    ensures QuietAbandon(k, ws, acts, 0, j, t)
  {
    hide ValidSetup, Inv, Follows, WillStop, WillPost;
  }

  lemma EndsParts(ws: seq<World>, j: nat, t: nat)
    requires Ends(ws, j, t)
    ensures j < |ws| && IsAbandon(ws[j], t)
    ensures ws[j].people[t].apc == Finished && ws[j].people[t].services && ws[j].people[t].secrets
  {
  }

  lemma StaysBack(k: Setup, ws: seq<World>, acts: seq<Step>, j: nat, n: nat)
    requires ValidSetup(k) && Follows(k, ws, acts) && j <= n < |ws| && Inv(k, ws[j]) && Over(ws[j])
    requires !WillStop(ws[j]) && !WillPost(k, ws[j]) && BackIn(k, ws[j])
    ensures BackIn(k, ws[n])
  {
    hide ValidSetup, Follows, Inv, Over, WillStop, WillPost, DestOk, SourceOk, StoredOk, PeopleOk;
    StepsOn(k, ws, acts, j, n);
    InvDest(k, ws[n]);
    NothingElse(k, ws[n]);
  }

  /** Two ways, one after the other. */
  lemma Joined(k: Setup, ws: seq<World>, acts: seq<Step>, vs: seq<World>, more: seq<Step>)
    requires Follows(k, ws, acts) && Follows(k, vs, more) && ws[|ws| - 1] == vs[0]
    ensures Follows(k, ws + vs[1..], acts + more)
  {
    hide Can, Does;
    var all, steps, m := ws + vs[1..], acts + more, |acts|;
    assert forall i :: 0 <= i < |vs| ==> all[m + i] == vs[i];
    forall i | 0 <= i < |steps| ensures Can(k, all[i], steps[i]) && all[i + 1] == Does(k, all[i], steps[i]) {
      if i < m {
        assert all[i] == ws[i] && all[i + 1] == ws[i + 1] && steps[i] == acts[i];
      } else {
        assert all[i] == vs[i - m] && all[i + 1] == vs[i - m + 1] && steps[i] == more[i - m];
      }
    }
  }

  lemma FailsAfter(k: Setup, w: World, v: World, t: nat)
    requires Leads(k, w, v, t) && !AllStays(k, v)
    requires IsAbandon(v, t) && v.people[t].apc == Finished && v.people[t].services && v.people[t].secrets
    ensures !Holds(k, w, t)
  {
    var ws, acts :| Way(k, ws, acts, t) && ws[0] == w && ws[|ws| - 1] == v;
    var vs: seq<World>, more: seq<Step>, n :| Follows(k, vs, more) && vs[0] == v && 0 <= n < |vs| &&
      !(vs[n].src.origin.None? && vs[n].dest == k.before);
    hide Follows, IsAbandon;
    FollowsSize(k, ws, acts);
    Joined(k, ws, acts, vs, more);
    var all, j := ws + vs[1..], |ws| - 1;
    assert forall i :: 0 <= i < |vs| ==> all[j + i] == vs[i];
    assert forall m :: 0 <= m <= j ==> all[m] == ws[m];
    assert Ends(all, j, t);
    assert all[j + n] == vs[n] && !BackIn(k, all[j + n]);
  }

  lemma FollowsSize(k: Setup, ws: seq<World>, acts: seq<Step>)
    requires Follows(k, ws, acts)
    ensures |ws| == |acts| + 1
  {
  }

  /** About to release the source: whatever anybody does from here, an end of this `abandon`
      with both listings answered restores everything for good, exactly when no tick in
      flight is about to stop the source or can still post here. */
  lemma HoldsExactlyWhen(k: Setup, w: World, t: nat)
    requires ValidSetup(k) && Inv(k, w) && IsAbandon(w, t) && w.people[t].apc == CallRelease && w.src.present
    ensures Holds(k, w, t) <==> !WillStop(w) && !WillPost(k, w)
  {
    ReleasingIsOver(k, w, t);
    hide Inv, ValidSetup, Follows, WillStop, WillPost, Over, Cleared, Leads, Ends, BackIn, AllStays;
    if !WillStop(w) && !WillPost(k, w) {
      forall ws: seq<World>, acts: seq<Step>, j: nat, n: nat
        | Follows(k, ws, acts) && ws[0] == w && j <= n < |ws| && Ends(ws, j, t)
        ensures BackIn(k, ws[n])
      {
        HoldsWhenQuiet(k, w, ws, acts, j, n, t);
      }
    } else {
      LeadsNowhere(k, w, t);
      var v := Finishes(k, w, w, t);
      EndsBack(k, v, t);
      SameTickSame(k, w, v);
      BackStays(k, v);
      FailsAfter(k, w, v, t);
    }
  }

  lemma LeadsNowhere(k: Setup, w: World, t: nat)
    requires IsAbandon(w, t)
    ensures Leads(k, w, w, t)
  {
    assert Way(k, [w], [], t) && [w][0] == w;
  }

  lemma SameTickSame(k: Setup, w: World, v: World)
    requires v.tick == w.tick
    ensures WillStop(v) == WillStop(w) && WillPost(k, v) == WillPost(k, w)
  {
    hide NextUnmade;
  }

  lemma BackStays(k: Setup, v: World)
    requires ValidSetup(k) && Inv(k, v) && v.released && BackIn(k, v)
    ensures AllStays(k, v) <==> !WillStop(v) && !WillPost(k, v)
  {
    hide ValidSetup, Inv, AllStays, WillStop, WillPost;
    PutBackStays(k, v);
  }
}
