/** Putting a workload back as the engine's code does it: straight through, with no step of
    anybody else in between.  The protocol lets more happen between the calls; here the whole
    request runs to its end, and ends. */
module MoveEngine {
  import opened Options
  import opened MoveSource
  import opened MoveProtocol
  import opened MoveSafety
  import MovePeople
  import MovePutBack
  import MoveTheorems
  import MoveTicks

  class Engine {
    const k: Setup
    var w: World

    ghost predicate Valid() reads this { ValidSetup(k) && Inv(k, w) }

    constructor (k: Setup, w: World)
      requires ValidSetup(k) && Inv(k, w)
      ensures Valid() && this.k == k && this.w == w
    {
      this.k, this.w := k, w;
    }

    /** One remote call or one store. */
    method Do(p: PersonStep)
      requires Valid() && PersonCan(k, w, p)
      modifies this
      ensures Valid() && w == PersonDoes(k, old(w), p)
    {
      MovePeople.PersonInv(k, w, p);
      w := PersonDoes(k, w, p);
    }

    /** The request `t` is in flight, and what it looked at so far is cleared. */
    ghost predicate Standing(t: nat) reads this {
      Valid() && IsAbandon(w, t) && MoveTheorems.Cleared(k, w, w.people[t])
    }

    /** The next call of the request `t`. */
    method Call(t: nat, answered: bool, pick: Key, now: nat)
      requires Standing(t) && AbandonCan(k, w, w.people[t].apc, pick)
      modifies this
      ensures Standing(t) && w.people[t] == AbandonNext(k, old(w), old(w.people[t]), answered, pick, now)
      ensures w.dest == old(w.dest) - AbandonDeletes(k, old(w), old(w.people[t].apc), pick)
      ensures w.src == if old(w.people[t].apc) == CallRelease then Release(old(w.src)) else old(w.src)
      ensures w.tick == old(w.tick)
    {
      MoveTheorems.AbandonClears(k, w, t, answered, pick, now);
      Do(Abandons(t, answered, pick, now));
    }

    /** The request is at deleting what a listing showed, of services or of secrets. */
    ghost predicate Deleting(t: nat, services: bool) reads this {
      Standing(t) && if services then w.people[t].apc.DeleteServices? else w.people[t].apc.DeleteSecrets?
    }

    method DeleteOne(t: nat, services: bool, pick: Key, now: nat)
      requires Deleting(t, services) && pick in w.people[t].apc.left && pick in w.dest
      modifies this
      ensures Deleting(t, services) && w.src == old(w.src) && w.tick == old(w.tick) && w.dest == old(w.dest) - {pick}
      ensures w.people[t] == old(w.people[t]).(apc := w.people[t].apc)
      ensures w.people[t].apc.left == old(w.people[t].apc.left) - {pick}
    {
      hide Valid, MoveTheorems.Cleared;
      Call(t, true, pick, now);
    }

    method DeleteNoMore(t: nat, services: bool, now: nat)
      requires Deleting(t, services) && w.people[t].apc.left == {}
      modifies this
      ensures Standing(t) && w.src == old(w.src) && w.tick == old(w.tick) && w.dest == old(w.dest)
      ensures w.people[t] == old(w.people[t]).(apc := if services then ListSecrets else GetClaim(0))
    {
      hide Valid, MoveTheorems.Cleared;
      Call(t, true, Workload, now);
      assert w.dest == old(w.dest);
    }

    /** The objects found in a listing are deleted one by one, and no others. */
    method DeleteListed(t: nat, now: nat)
      requires Standing(t)
      requires w.people[t].apc.DeleteServices? || w.people[t].apc.DeleteSecrets?
      requires w.people[t].apc.left <= w.dest.Keys
      modifies this
      ensures Standing(t) && w.src == old(w.src) && w.tick == old(w.tick)
      ensures w.dest == old(w.dest) - old(w.people[t].apc.left)
      ensures w.people[t] ==
        old(w.people[t]).(apc := if old(w.people[t].apc.DeleteServices?) then ListSecrets else GetClaim(0))
    {
      hide Valid, MoveTheorems.Cleared, AbandonNext, AbandonCan;
      var services := w.people[t].apc.DeleteServices?;
      ghost var all, here := w.people[t].apc.left, w.dest;
      assert here - (all - all) == here;
      while w.people[t].apc.left != {}
        invariant Deleting(t, services) && w.src == old(w.src) && w.tick == old(w.tick)
        invariant w.people[t].apc.left <= w.dest.Keys && w.people[t].apc.left <= all
        invariant w.dest == here - (all - w.people[t].apc.left)
        invariant w.people[t] == old(w.people[t]).(apc := w.people[t].apc)
        decreases |w.people[t].apc.left|
      {
        var pick :| pick in w.people[t].apc.left;
        ghost var left := w.people[t].apc.left;
        DeleteOne(t, services, pick, now);
        assert here - (all - left) - {pick} == here - (all - (left - {pick}));
      }
      assert here - (all - {}) == here - all;
      DeleteNoMore(t, services, now);
    }

    method DeleteClaims(t: nat, now: nat)
      requires Standing(t)
      requires w.people[t].apc == GetClaim(0)
      modifies this
      ensures Standing(t) && w.src == old(w.src) && w.tick == old(w.tick)
      ensures forall o: Key :: !o.Pvc? ==> (o in w.dest <==> o in old(w.dest))
      ensures w.people[t] == old(w.people[t]).(apc := StoreMessage)
    {
      hide Valid, MoveTheorems.Cleared;
      for i := 0 to |k.claims|
        invariant Standing(t) && w.src == old(w.src) && w.tick == old(w.tick)
        invariant forall o: Key :: !o.Pvc? ==> (o in w.dest <==> o in old(w.dest))
        invariant w.people[t] == old(w.people[t]).(apc := GetClaim(i))
      {
        Call(t, true, Workload, now);
        if w.people[t].apc.DeleteClaim? {
          Call(t, true, Workload, now);
        }
      }
      Call(t, true, Workload, now);
    }

    /** The services, or the secrets, that a listing shows go; without an answer none do. */
    method DeleteKind(t: nat, answered: bool, now: nat)
      requires Standing(t)
      requires w.people[t].apc == ListServices || w.people[t].apc == ListSecrets
      modifies this
      ensures Standing(t) && w.src == old(w.src) && w.tick == old(w.tick)
      ensures forall o :: !(answered && old(Listed(t, o))) ==> (o in w.dest <==> o in old(w.dest))
      ensures w.people[t] == if old(w.people[t].apc == ListServices)
        then old(w.people[t]).(services := answered, apc := ListSecrets)
        else old(w.people[t]).(secrets := answered, apc := GetClaim(0))
    {
      hide Valid, MoveTheorems.Cleared, Ours;
      Call(t, answered, Workload, now);
      DeleteListed(t, now);
    }

    /** The object is one of this move's that the listing coming next would show. */
    ghost predicate Listed(t: nat, o: Key)
      requires IsAbandon(w, t)
      reads this
    {
      o in OursOf(k, w, w.people[t].apc == ListServices)
    }

    lemma ListedKind(t: nat, o: Key)
      requires IsAbandon(w, t)
      ensures Listed(t, o) ==> if w.people[t].apc == ListServices then o.Service? else o.Secret?
    {
    }

    /** Everything after the release: what this move made here goes, the record is stored. */
    method ClearHere(t: nat, services: bool, secrets: bool, now: nat)
      requires Standing(t)
      requires w.people[t].apc == GetWorkload
      modifies this
      ensures Standing(t) && w.src == old(w.src) && w.tick == old(w.tick) && w.people[t].apc == Finished
      ensures w.people[t].services == services && w.people[t].secrets == secrets
      ensures forall o: Key :: (o.Service? && !services) || (o.Secret? && !secrets) ==>
        (o in w.dest <==> o in old(w.dest))
    {
      hide Valid, MoveTheorems.Cleared, OursOf;
      Call(t, true, Workload, now);
      if w.people[t].apc == DeleteWorkload {
        Call(t, true, Workload, now);
      }
      assert forall o: Key :: !o.Workload? ==> (o in w.dest <==> o in old(w.dest));
      ClearExtras(t, services, secrets, now);
      DeleteClaims(t, now);
      Call(t, true, Workload, now);
    }

    method ClearExtras(t: nat, services: bool, secrets: bool, now: nat)
      requires Standing(t)
      requires w.people[t].apc == ListServices
      modifies this
      ensures Standing(t) && w.src == old(w.src) && w.tick == old(w.tick)
      ensures w.people[t] == old(w.people[t]).(services := services, secrets := secrets, apc := GetClaim(0))
      ensures forall o: Key :: (o.Service? && !services) || (o.Secret? && !secrets) ==>
        (o in w.dest <==> o in old(w.dest))
    {
      hide Valid, MoveTheorems.Cleared, Ours, Listed;
      forall o ensures Listed(t, o) ==> o.Service? { ListedKind(t, o); }
      DeleteKind(t, services, now);
      forall o ensures Listed(t, o) ==> o.Secret? { ListedKind(t, o); }
      DeleteKind(t, secrets, now);
    }

    /** `abandon`, from any reachable state: refused when the source is known to be removed,
        failing with the record cancelled when it turns out to be; otherwise it ends, the
        source runs as it did, and the destination is exactly as it was before the move if
        and only if each listing answered or had nothing to show when the request came. */
    method Abandon(t: nat, services: bool, secrets: bool, now: nat) returns (ok: bool)
      requires Valid() && t !in w.people
      modifies this
      ensures Valid() && w.tick == old(w.tick)
      ensures ok <==> old(w.rec.Some? && !w.rec.value.sourceRemoved && w.src.present)
      ensures old(w.rec.None? || w.rec.value.sourceRemoved) ==> w == old(w)
      ensures !ok ==> w.src == old(w.src) && w.dest == old(w.dest)
      ensures ok ==> w.src == Release(old(w.src)) && RunStateOf(w.src.spec) == RunStateOf(k.spec)
      ensures ok ==> (w.dest == k.before <==>
        && (services || forall o :: old(Ours(k, w, o)) ==> !o.Service?)
        && (secrets || forall o :: old(Ours(k, w, o)) ==> !o.Secret?))
      ensures ok ==> forall o :: Ours(k, w, o) ==> (o.Service? && !services) || (o.Secret? && !secrets)
    {
      hide Inv, ValidSetup, MoveTheorems.Cleared, OursOf, Release, Undoes;
      if w.rec.None? || w.rec.value.sourceRemoved {
        return false;
      }
      ghost var was := w;
      Do(BeginsAbandon(t));
      NothingYet(t);
      Call(t, true, Workload, now);
      if !w.src.present {
        Do(Dies(t));
        return false;
      }
      Call(t, true, Workload, now);
      assert w.dest == was.dest;
      ClearHere(t, services, secrets, now);
      AbandonEnds(was, t);
      return true;
    }

    lemma NothingYet(t: nat)
      requires IsAbandon(w, t) && w.people[t].apc == StoreCancelled
      ensures MoveTheorems.Cleared(k, w, w.people[t])
    {
    }

    /** Everything of this move that is left was hidden by a listing that failed, and is
        what was there of that kind before. */
    lemma AbandonEnds(was: World, t: nat)
      requires Standing(t) && w.people[t].apc == Finished && Inv(k, was)
      requires forall o: Key :: (o.Service? && !w.people[t].services) || (o.Secret? && !w.people[t].secrets) ==>
        (o in w.dest <==> o in was.dest)
      ensures w.src.origin.None? && RunStateOf(w.src.spec) == RunStateOf(k.spec)
      ensures forall o :: Ours(k, w, o) ==>
        (o.Service? && !w.people[t].services) || (o.Secret? && !w.people[t].secrets)
      ensures w.dest == k.before <==>
        && (w.people[t].services || forall o :: Ours(k, was, o) ==> !o.Service?)
        && (w.people[t].secrets || forall o :: Ours(k, was, o) ==> !o.Secret?)
    {
      hide Inv, ValidSetup, MoveTheorems.Cleared, DestOk, SourceOk, StoredOk, PeopleOk, Ours;
      MoveTheorems.OnlyHiddenLeft(k, w, t);
      MovePutBack.InvDest(k, was);
      MovePutBack.InvDest(k, w);
      forall o: Key ensures (Ours(k, w, o) <==> Own(k, w, o)) && (Ours(k, was, o) <==> Own(k, was, o)) {
        MoveTicks.OursIsOwn(k, w, o);
        MoveTicks.OursIsOwn(k, was, o);
      }
    }
  }
}
