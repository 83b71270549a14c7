/** Leader election by one Lease object, replicas with clocks of their own.

    Each replica loops through `attempt`: read its clock, GET the lease, decide, PUT it
    with the version it read.  A reply may never come - the attempt then ends as a failure,
    while its PUT, already on the wire, may still arrive at any later time.  The belief that
    one leads does not expire by itself. */
module Leader {
  import opened Options

  type Id = nat      // a replica's IDENTITY; never blank

  /** DURATION in microseconds, the resolution of `renewTime`. */
  const DURATION := 15_000_000

  /** The lease: who holds it ("" is None), when that was renewed by the holder's clock,
      and the resource version that a PUT must name. */
  datatype Lease = Lease(holder: Option<Id>, renewed: int, duration: int, transitions: nat, version: nat)

  // ------------------------------------------------------------- what attempt decides

  predicate Expired(l: Lease, now: int) { l.holder.None? || now - l.renewed > l.duration }

  /** Keep it when it is ours, take it when it ran out. */
  predicate Takes(me: Id, l: Lease, now: int) { l.holder == Some(me) || Expired(l, now) }

  /** The spec that is PUT: ours from now on. A change of hands is counted. */
  function Taken(me: Id, l: Lease, now: int): Lease {
    Lease(Some(me), now, DURATION, if l.holder == Some(me) then l.transitions else l.transitions + 1, l.version + 1)
  }

  /** A first lease is POSTed. */
  function Created(me: Id, now: int): Lease { Lease(Some(me), now, DURATION, 0, 0) }

  /** `release` hands it over: the holder is blanked, all else stays. */
  function HandedOver(l: Lease): Lease { l.(holder := None, version := l.version + 1) }

  // ------------------------------------------------------------- a replica, in its own form

  datatype Request = Post(body: Lease) | Put(body: Lease, base: nat)

  /** What an attempt sends, from the lease it read. */
  function Decides(me: Id, lease: Option<Lease>, now: int): Option<Request> {
    if lease.None? then Some(Post(Created(me, now)))
    else if Takes(me, lease.value, now) then Some(Put(Taken(me, lease.value, now), lease.value.version))
    else None
  }

  /** There is a lease, another replica holds it, and it was stamped no more than its own
      duration ago. */
  predicate OthersYet(me: Id, found: Option<Lease>, now: int) {
    found.Some? && found.value.holder.Some? && found.value.holder.value != me
      && now <= found.value.renewed + found.value.duration
  }

  /** A request that claims the lease: for me, stamped now; a first one where there was none,
      else one that only replaces the version found, with a change of hands counted. */
  predicate Claims(me: Id, found: Option<Lease>, now: int, r: Request) {
    && r.body.holder == Some(me) && r.body.renewed == now && r.body.duration == DURATION
    && match found
       case None => r.Post? && r.body.transitions == 0
       case Some(l) =>
         && r.Put? && r.base == l.version
         && r.body.transitions == l.transitions + if l.holder == Some(me) then 0 else 1
  }

  /** One replica's module state, changed in place around its calls. */
  class Replica {
    const me: Id
    var leader: bool
    var holder: Option<Id>

    constructor (me: Id)
      ensures this.me == me && !leader && holder.None?
    {
      this.me, leader, holder := me, false, None;
    }

    method Set(leading: bool, holding: Option<Id>)
      modifies this
      ensures leader == leading && holder == holding
    {
      leader, holder := leading, holding;
    }

    /** From the reply of GET (None is a 404) to the request sent, if any: without one the
        attempt ends here, and not as leader. */
    method Decide(found: Option<Lease>, now: int) returns (send: Option<Request>)
      modifies this
      ensures send == Decides(me, found, now)
      ensures send.None? <==> OthersYet(me, found, now)
      ensures send.Some? ==> Claims(me, found, now, send.value)
      ensures send.None? ==> !leader && found.Some? && holder == found.value.holder
      ensures send.Some? ==> leader == old(leader) && holder == old(holder)
    {
      if found.None? {
        return Some(Post(Created(me, now)));
      }
      var l := found.value;
      if l.holder != Some(me) && !Expired(l, now) {
        Set(false, l.holder);
        return None;
      }
      var transitions := l.transitions;
      if l.holder != Some(me) {
        transitions := transitions + 1;
      }
      return Some(Put(Lease(Some(me), now, DURATION, transitions, l.version + 1), l.version));
    }

    /** From the server's reply to the end of the attempt; `seen` is the holder it read.  No
        reply is an exception, which `run` takes for a loss of leadership. */
    method Conclude(reply: Option<bool>, seen: Option<Id>)
      modifies this
      ensures leader <==> reply == Some(true)
      ensures holder == if reply.None? then old(holder) else if reply.value then Some(me) else seen
    {
      if reply.None? {
        leader := false;
      } else if reply.value {
        Set(true, Some(me));
      } else {
        Set(false, seen);
      }
    }
  }

  // ------------------------------------------------------------- all of them

  /** Where a replica's attempt stands. `started` is the true time it read its clock,
      `now` what it read; `reply` is what the server answered to its write. */
  datatype Attempt =
    | Resting
    | Started(started: int, now: int)
    | Sent(started: int, now: int, request: Request)
    | Answered(started: int, now: int, ok: bool)

  /** `since` is the true time the last successful attempt started, while one believes. */
  datatype Node = Node(leads: bool, since: int, attempt: Attempt)

  /** `late`: writes still on the wire although their sender gave up on them. */
  datatype System = System(time: int, lease: Option<Lease>, nodes: map<Id, Node>, late: set<Request>)

  datatype Step =
    | Passes(dt: nat)
    | Begins(i: Id, now: int)
    | Reads(i: Id)
    | Lands(i: Id)
    | Ends(i: Id)
    | GivesUp(i: Id)
    | LandsLate(r: Request)
    | Releases(i: Id)
    | Joins(i: Id)
    | Dies(i: Id)

  /** Clocks: a reading is never behind the true time and at most `skew` ahead of it, so
      that any two readings of one moment differ by at most `skew`. */
  predicate Reading(time: int, now: int, skew: nat) { time <= now <= time + skew }

  /** The server's part: a POST creates, a PUT must name the current version. */
  predicate Accepts(lease: Option<Lease>, r: Request) {
    match r
    case Post(_) => lease.None?
    case Put(_, base) => lease.Some? && lease.value.version == base
  }

  function Write(lease: Option<Lease>, r: Request): Option<Lease> {
    if Accepts(lease, r) then Some(r.body) else lease
  }

  predicate Can(s: System, a: Step, skew: nat) {
    match a
    case Passes(_) => true
    case Begins(i, now) => i in s.nodes && s.nodes[i].attempt.Resting? && Reading(s.time, now, skew)
    case Reads(i) => i in s.nodes && s.nodes[i].attempt.Started?
    case Lands(i) => i in s.nodes && s.nodes[i].attempt.Sent?
    case Ends(i) => i in s.nodes && s.nodes[i].attempt.Answered?
    case GivesUp(i) => i in s.nodes && !s.nodes[i].attempt.Resting?
    case LandsLate(r) => r in s.late
    case Releases(i) => i in s.nodes && s.nodes[i].leads && s.lease.Some? && s.lease.value.holder == Some(i)
    case Joins(i) => i !in s.nodes
    case Dies(i) => i in s.nodes
  }

  function With(s: System, i: Id, n: Node): System { s.(nodes := s.nodes[i := n]) }

  function Does(s: System, a: Step, skew: nat): System
    requires Can(s, a, skew)
  {
    match a
    case Passes(dt) => s.(time := s.time + dt)
    case Begins(i, now) => With(s, i, s.nodes[i].(attempt := Started(s.time, now)))
    case Reads(i) =>
      var n := s.nodes[i];
      var send := Decides(i, s.lease, n.attempt.now);
      if send.None? then With(s, i, Node(false, n.since, Resting))
      else With(s, i, n.(attempt := Sent(n.attempt.started, n.attempt.now, send.value)))
    case Lands(i) =>
      var n := s.nodes[i];
      var r := n.attempt.request;
      With(s, i, n.(attempt := Answered(n.attempt.started, n.attempt.now, Accepts(s.lease, r))))
      .(lease := Write(s.lease, r))
    case Ends(i) =>
      var n := s.nodes[i];
      With(s, i, Node(n.attempt.ok, n.attempt.started, Resting))
    case GivesUp(i) =>
      var n := s.nodes[i];
      With(s, i, Node(false, n.since, Resting)).(late := Dropped(s, n))
    case LandsLate(r) => s.(lease := Write(s.lease, r), late := s.late - {r})
    case Releases(i) =>
      s.(nodes := s.nodes - {i}, late := Dropped(s, s.nodes[i]), lease := Some(HandedOver(s.lease.value)))
    case Joins(i) => With(s, i, Node(false, 0, Resting))
    case Dies(i) => s.(nodes := s.nodes - {i}, late := Dropped(s, s.nodes[i]))
  }

  /** What is on the wire once nobody waits for it. */
  function Dropped(s: System, n: Node): set<Request> {
    if n.attempt.Sent? then s.late + {n.attempt.request} else s.late
  }

  ghost predicate Init(s: System) {
    s.lease.None? && s.late == {} && forall i :: i in s.nodes ==> s.nodes[i] == Node(false, 0, Resting)
  }

  /** The condition of the promise: a replica that believes it leads finishes its next
      attempt within DURATION less the skew of starting its last successful one. */
  ghost predicate Timely(s: System, skew: nat) {
    forall i :: i in s.nodes && s.nodes[i].leads ==> s.time <= s.nodes[i].since + DURATION - skew
  }

  ghost predicate Run(ss: seq<System>, acts: seq<Step>, skew: nat) {
    && |ss| == |acts| + 1 && Init(ss[0])
    && (forall n :: 0 <= n < |acts| ==> Can(ss[n], acts[n], skew) && ss[n + 1] == Does(ss[n], acts[n], skew))
    && (forall n :: 0 <= n < |ss| ==> Timely(ss[n], skew))
  }

  // ------------------------------------------------------------- the invariant

  /** A request on the wire is what some attempt decided. If it can still be accepted, it
      was decided from the lease as it is now; so if it takes the lease from a holder, a
      clock read more than DURATION past the stamp. */
  ghost predicate RequestOk(s: System, r: Request, skew: nat) {
    && r.body.holder.Some? && r.body.duration == DURATION && r.body.renewed <= s.time + skew
    && (r.Put? ==> r.body.version == r.base + 1 && s.lease.Some? && r.base <= s.lease.value.version)
    && (Accepts(s.lease, r) && s.lease.Some? && s.lease.value.holder.Some? && r.body.holder != s.lease.value.holder ==>
          r.body.renewed - s.lease.value.renewed > DURATION)
    && (Accepts(s.lease, r) ==> Follows(s, r))
  }

  /** A request that can still be accepted carries a stamp no earlier than the last success
      of the replica it is of, still believed or just answered. */
  ghost predicate Follows(s: System, r: Request)
    requires r.body.holder.Some?
  {
    var i := r.body.holder.value;
    i in s.nodes ==>
      && (s.nodes[i].leads ==> s.nodes[i].since <= r.body.renewed)
      && (s.nodes[i].attempt.Answered? && s.nodes[i].attempt.ok ==> s.nodes[i].attempt.started <= r.body.renewed)
  }

  /** The lease is held by `i`, stamped no earlier than `started`. */
  ghost predicate Holds(s: System, i: Id, started: int) {
    s.lease.Some? && s.lease.value.holder == Some(i) && started <= s.lease.value.renewed
  }

  ghost predicate NodeOk(s: System, i: Id, skew: nat)
    requires i in s.nodes
  {
    var n := s.nodes[i];
    && (n.leads ==> Holds(s, i, n.since) && n.since <= s.time)
    && (!n.attempt.Resting? ==> n.attempt.started <= s.time && Reading(n.attempt.started, n.attempt.now, skew))
    && (!n.attempt.Resting? && n.leads ==> n.since <= n.attempt.started)
    && (n.attempt.Sent? ==>
          n.attempt.request.body.holder == Some(i) && n.attempt.request.body.renewed == n.attempt.now)
    && (n.attempt.Answered? && n.attempt.ok ==>
          Holds(s, i, n.attempt.started) || s.time > n.attempt.started + DURATION - skew)
  }

  ghost predicate Inv(s: System, skew: nat) {
    && (s.lease.Some? ==> s.lease.value.duration == DURATION)
    && (forall r :: r in s.late ==> RequestOk(s, r, skew))
    && (forall i :: i in s.nodes && s.nodes[i].attempt.Sent? ==> RequestOk(s, s.nodes[i].attempt.request, skew))
    && (forall i :: i in s.nodes ==> NodeOk(s, i, skew))
  }

  /** Steps that leave the lease alone, other than reading it. */
  lemma LocalInv(s: System, a: Step, skew: nat)
    requires Inv(s, skew) && Can(s, a, skew) && Timely(Does(s, a, skew), skew)
    requires !a.Reads? && !a.Lands? && !a.LandsLate? && !a.Releases?
    ensures Inv(Does(s, a, skew), skew)
  {
    var s' := Does(s, a, skew);
    forall r | r in s'.late
      ensures RequestOk(s', r, skew)
    {
      assert r in s.late || exists i :: i in s.nodes && s.nodes[i].attempt.Sent? && s.nodes[i].attempt.request == r;
      assert RequestOk(s, r, skew);
    }
    forall i | i in s'.nodes
      ensures NodeOk(s', i, skew)
      ensures s'.nodes[i].attempt.Sent? ==> RequestOk(s', s'.nodes[i].attempt.request, skew)
    {
      assert i in s.nodes ==> NodeOk(s, i, skew);
      assert s'.nodes[i].attempt.Sent? ==> RequestOk(s, s'.nodes[i].attempt.request, skew);
    }
  }

  lemma ReadsInv(s: System, i: Id, skew: nat)
    requires Inv(s, skew) && Can(s, Reads(i), skew)
    ensures Inv(Does(s, Reads(i), skew), skew)
  {
    var s' := Does(s, Reads(i), skew);
    assert NodeOk(s, i, skew);
    forall r | r in s'.late
      ensures RequestOk(s', r, skew)
    {
      assert RequestOk(s, r, skew);
    }
    forall j | j in s'.nodes
      ensures NodeOk(s', j, skew)
      ensures s'.nodes[j].attempt.Sent? ==> RequestOk(s', s'.nodes[j].attempt.request, skew)
    {
      assert NodeOk(s, j, skew);
    }
  }

  /** A replica waits on, or has just been answered about this very write. */
  predicate OwnWrite(s: System, n: Node, n': Node, r: Request) {
    n' == n || (n.attempt.Sent? && n.attempt.request == r &&
                n' == n.(attempt := Answered(n.attempt.started, n.attempt.now, Accepts(s.lease, r))))
  }

  /** A write that is accepted replaces the lease: nothing else on the wire is current any
      more, and whoever loses the lease by it has stopped believing in time. */
  lemma WriteInv(s: System, s': System, r: Request, skew: nat)
    requires Inv(s, skew) && Timely(s, skew) && RequestOk(s, r, skew)
    requires s'.time == s.time && s'.lease == Write(s.lease, r)
    requires forall q :: q in s'.late ==> q in s.late
    requires forall j :: j in s'.nodes ==> j in s.nodes && OwnWrite(s, s.nodes[j], s'.nodes[j], r)
    ensures Inv(s', skew)
  {
    forall q | q in s'.late
      ensures RequestOk(s', q, skew)
    {
      assert RequestOk(s, q, skew);
    }
    forall j | j in s'.nodes
      ensures NodeOk(s', j, skew)
      ensures s'.nodes[j].attempt.Sent? ==> RequestOk(s', s'.nodes[j].attempt.request, skew)
    {
      assert NodeOk(s, j, skew);
      assert s.nodes[j].attempt.Sent? ==> RequestOk(s, s.nodes[j].attempt.request, skew);
    }
  }

  lemma ReleasesInv(s: System, i: Id, skew: nat)
    requires Inv(s, skew) && Can(s, Releases(i), skew)
    ensures Inv(Does(s, Releases(i), skew), skew)
  {
    var s' := Does(s, Releases(i), skew);
    forall r | r in s'.late
      ensures RequestOk(s', r, skew)
    {
      assert RequestOk(s, r, skew);
    }
    forall j | j in s'.nodes
      ensures NodeOk(s', j, skew)
      ensures s'.nodes[j].attempt.Sent? ==> RequestOk(s', s'.nodes[j].attempt.request, skew)
    {
      assert NodeOk(s, j, skew);
    }
  }

  lemma StepInv(s: System, a: Step, skew: nat)
    requires Inv(s, skew) && Can(s, a, skew) && Timely(s, skew) && Timely(Does(s, a, skew), skew)
    ensures Inv(Does(s, a, skew), skew)
  {
    match a
    case Reads(i) => ReadsInv(s, i, skew);
    case Lands(i) => WriteInv(s, Does(s, a, skew), s.nodes[i].attempt.request, skew);
    case LandsLate(r) => WriteInv(s, Does(s, a, skew), r, skew);
    case Releases(i) => ReleasesInv(s, i, skew);
    case _ => LocalInv(s, a, skew);
  }

  lemma {:induction false} RunInv(ss: seq<System>, acts: seq<Step>, skew: nat, n: nat)
    requires Run(ss, acts, skew) && n < |ss|
    ensures Inv(ss[n], skew)
  {
    if n > 0 {
      RunInv(ss, acts, skew, n - 1);
      assert ss[n - 1 + 1] == Does(ss[n - 1], acts[n - 1], skew);
      assert Timely(ss[n - 1], skew) && Timely(ss[n], skew);
      hide Inv, Can, Does, Timely;
      StepInv(ss[n - 1], acts[n - 1], skew);
    }
  }

  // ------------------------------------------------------------- the promise

  /** No two replicas ever believe they lead at once - replies lost, writes arriving late,
      replicas dying, restarting and handing over included. */
  lemma OneLeader(ss: seq<System>, acts: seq<Step>, skew: nat, n: nat, i: Id, j: Id)
    requires Run(ss, acts, skew) && n < |ss|
    requires i in ss[n].nodes && ss[n].nodes[i].leads && j in ss[n].nodes && ss[n].nodes[j].leads
    ensures i == j
  {
    RunInv(ss, acts, skew, n);
    assert NodeOk(ss[n], i, skew) && NodeOk(ss[n], j, skew);
  }

  /** And whoever believes it is the one the lease names. */
  lemma LeaderHoldsLease(ss: seq<System>, acts: seq<Step>, skew: nat, n: nat, i: Id)
    requires Run(ss, acts, skew) && n < |ss| && i in ss[n].nodes && ss[n].nodes[i].leads
    ensures ss[n].lease.Some? && ss[n].lease.value.holder == Some(i)
  {
    RunInv(ss, acts, skew, n);
    assert NodeOk(ss[n], i, skew);
  }

  /** Whatever changes the lease makes a new version of it, which no write sent before names. */
  lemma EveryWriteIsNew(ss: seq<System>, acts: seq<Step>, skew: nat, n: nat)
    requires Run(ss, acts, skew) && n < |acts| && n + 1 < |ss| && ss[n + 1].lease != ss[n].lease
    ensures ss[n + 1].lease.Some?
    ensures ss[n].lease.Some? ==> ss[n + 1].lease.value.version == ss[n].lease.value.version + 1
    ensures forall r :: r in ss[n].late ==> !Accepts(ss[n + 1].lease, r)
  {
    RunInv(ss, acts, skew, n);
    var s, a := ss[n], acts[n];
    assert Can(s, a, skew) && ss[n + 1] == Does(s, a, skew);
    assert a.LandsLate? ==> RequestOk(s, a.r, skew);
    assert a.Lands? ==> RequestOk(s, s.nodes[a.i].attempt.request, skew);
    forall r | r in s.late ensures !Accepts(ss[n + 1].lease, r) { assert RequestOk(s, r, skew); }
  }

  /** Only the replica that leads by a lease, and is named in it, ever blanks it. */
  lemma BlankedByItsLeader(ss: seq<System>, acts: seq<Step>, skew: nat, n: nat, i: Id)
    requires Run(ss, acts, skew) && n < |acts| && n + 1 < |ss|
    requires ss[n].lease.Some? && ss[n].lease.value.holder == Some(i)
    requires ss[n + 1].lease.Some? && ss[n + 1].lease.value.holder.None?
    ensures i in ss[n].nodes && ss[n].nodes[i].leads && i !in ss[n + 1].nodes
  {
    RunInv(ss, acts, skew, n);
    var s, a := ss[n], acts[n];
    assert Can(s, a, skew) && ss[n + 1] == Does(s, a, skew);
    assert a.LandsLate? ==> RequestOk(s, a.r, skew);
    assert a.Lands? ==> RequestOk(s, s.nodes[a.i].attempt.request, skew);
  }

  // ------------------------------------------------------------- somebody leads

  predicate StepOf(a: Step, i: Id) {
    match a
    case Begins(j, _) => j == i case Reads(j) => j == i case Lands(j) => j == i case Ends(j) => j == i
    case GivesUp(j) => j == i case Releases(j) => j == i case Joins(j) => j == i case Dies(j) => j == i
    case _ => false
  }

  /** Between steps n and m replica i does nothing. */
  predicate Waits(acts: seq<Step>, i: Id, n: nat, m: nat) {
    n < m < |acts| && forall l :: n < l < m ==> !StepOf(acts[l], i)
  }

  lemma OthersLeaveIt(s: System, a: Step, skew: nat, i: Id)
    requires Can(s, a, skew) && i in s.nodes && !StepOf(a, i)
    ensures i in Does(s, a, skew).nodes && Does(s, a, skew).nodes[i] == s.nodes[i]
  {
  }

  lemma RunStep(ss: seq<System>, acts: seq<Step>, skew: nat, n: nat)
    requires Run(ss, acts, skew) && n < |acts|
    ensures |ss| == |acts| + 1 && Can(ss[n], acts[n], skew) && ss[n + 1] == Does(ss[n], acts[n], skew)
  {
    hide Can, Does, Timely, Init;
  }

  lemma {:induction false} NodeWaits(ss: seq<System>, acts: seq<Step>, skew: nat, i: Id, n: nat, m: nat)
    requires Run(ss, acts, skew) && Waits(acts, i, n, m) && i in ss[n + 1].nodes
    ensures i in ss[m].nodes && ss[m].nodes[i] == ss[n + 1].nodes[i]
    decreases m
  {
    hide Run, Can, Does, StepOf;
    RunStep(ss, acts, skew, n);
    if n + 1 < m {
      NodeWaits(ss, acts, skew, i, n, m - 1);
      RunStep(ss, acts, skew, m - 1);
      OthersLeaveIt(ss[m - 1], acts[m - 1], skew, i);
    }
  }

  /** An attempt of replica i that reads the lease in step n, whose write arrives in step m on
      the lease it read, and that ends in step e. */
  ghost predicate Attempts(ss: seq<System>, acts: seq<Step>, i: Id, n: nat, m: nat, e: nat) {
    && |ss| == |acts| + 1 && Waits(acts, i, n, m) && Waits(acts, i, m, e)
    && acts[n] == Reads(i) && acts[m] == Lands(i) && acts[e] == Ends(i) && ss[m].lease == ss[n].lease
  }

  /** What reading the lease leads to: nothing is sent, and the replica steps down, exactly
      while the lease is another's and has not run out. */
  lemma ReadsClaims(s: System, i: Id, skew: nat)
    requires Can(s, Reads(i), skew)
    ensures var n, s' := s.nodes[i], Does(s, Reads(i), skew);
      && i in s'.nodes
      && (OthersYet(i, s.lease, n.attempt.now) ==> s'.nodes[i].attempt.Resting? && !s'.nodes[i].leads)
      && (!OthersYet(i, s.lease, n.attempt.now) ==>
            s'.nodes[i].attempt.Sent? && Claims(i, s.lease, n.attempt.now, s'.nodes[i].attempt.request))
  {
  }

  lemma LandsClaims(s: System, i: Id, skew: nat, found: Option<Lease>, now: int)
    requires Can(s, Lands(i), skew) && s.lease == found && Claims(i, found, now, s.nodes[i].attempt.request)
    ensures var s' := Does(s, Lands(i), skew);
      && i in s'.nodes && s'.nodes[i].attempt.Answered? && s'.nodes[i].attempt.ok
      && s'.nodes[i].attempt.started == s.nodes[i].attempt.started
      && s'.lease.Some? && s'.lease.value.holder == Some(i) && s'.lease.value.renewed == now
  {
  }

  /** An attempt whose write is answered before the lease changes ends leading, and the lease
      is its own from the write on - unless it found the lease another's, not run out: then
      it sends nothing, so there is no such attempt. */
  lemma AttemptLeads(ss: seq<System>, acts: seq<Step>, skew: nat, i: Id, n: nat, m: nat, e: nat)
    requires Run(ss, acts, skew) && Attempts(ss, acts, i, n, m, e)
    ensures i in ss[n].nodes && ss[n].nodes[i].attempt.Started?
    ensures !OthersYet(i, ss[n].lease, ss[n].nodes[i].attempt.now)
    ensures ss[m + 1].lease.Some? && ss[m + 1].lease.value.holder == Some(i)
    ensures ss[m + 1].lease.value.renewed == ss[n].nodes[i].attempt.now
    ensures i in ss[e + 1].nodes && ss[e + 1].nodes[i].leads
  {
    hide Run, Does, Claims, OthersYet, Waits;
    WaitsIs(acts, i, n, m);
    WaitsIs(acts, i, m, e);
    RunStep(ss, acts, skew, n);
    RunStep(ss, acts, skew, m);
    RunStep(ss, acts, skew, e);
    ReadsClaims(ss[n], i, skew);
    NodeWaits(ss, acts, skew, i, n, m);
    LandsClaims(ss[m], i, skew, ss[n].lease, ss[n].nodes[i].attempt.now);
    NodeWaits(ss, acts, skew, i, m, e);
    EndsIs(ss[e], i, skew);
  }

  lemma WaitsIs(acts: seq<Step>, i: Id, n: nat, m: nat)
    requires Waits(acts, i, n, m)
    ensures n < m < |acts|
  {
  }

  lemma EndsIs(s: System, i: Id, skew: nat)
    requires Can(s, Ends(i), skew)
    ensures i in Does(s, Ends(i), skew).nodes && Does(s, Ends(i), skew).nodes[i].leads == s.nodes[i].attempt.ok
  {
  }

  /** A replica that finds its own lease, however old, or one handed over, or one that has run
      out, or none, sends a write that claims it in every run; `AttemptLeads` says what comes
      of it. */
  lemma ClaimsWhatIsFree(ss: seq<System>, acts: seq<Step>, skew: nat, i: Id, n: nat)
    requires Run(ss, acts, skew) && n < |acts| && acts[n] == Reads(i)
    requires ss[n].lease.None? || ss[n].lease.value.holder.None? || ss[n].lease.value.holder == Some(i)
      || ss[n].nodes[i].attempt.now > ss[n].lease.value.renewed + ss[n].lease.value.duration
    ensures i in ss[n + 1].nodes && ss[n + 1].nodes[i].attempt.Sent? && i in ss[n].nodes
    ensures ss[n + 1].nodes[i].leads == ss[n].nodes[i].leads && ss[n + 1].lease == ss[n].lease
  {
    hide Run;
    RunStep(ss, acts, skew, n);
  }

  /** Nobody writes the lease between steps n and m. */
  predicate Untouched(ss: seq<System>, n: nat, m: nat) {
    n <= m < |ss| && forall l :: n <= l <= m ==> ss[l].lease == ss[n].lease
  }

  /** A leader renews: an attempt that reads the lease while it leads, and whose write is
      answered before anybody else's, ends with it leading again, its lease stamped anew. */
  lemma LeaderRenews(ss: seq<System>, acts: seq<Step>, skew: nat, i: Id, n: nat, m: nat, e: nat)
    requires Run(ss, acts, skew) && n < |acts| && acts[n] == Reads(i) && i in ss[n].nodes && ss[n].nodes[i].leads
    requires Waits(acts, i, n, m) && Waits(acts, i, m, e) && Untouched(ss, n, m)
    ensures i in ss[m].nodes && ss[m].nodes[i].attempt.Sent? && ss[m].nodes[i].leads
    ensures acts[m] == Lands(i) && acts[e] == Ends(i) ==>
      && i in ss[e + 1].nodes && ss[e + 1].nodes[i].leads
      && ss[m + 1].lease.Some? && ss[m + 1].lease.value.renewed == ss[n].nodes[i].attempt.now
  {
    LeaderHoldsLease(ss, acts, skew, n, i);
    ClaimsWhatIsFree(ss, acts, skew, i, n);
    hide Run;
    RunStep(ss, acts, skew, n);
    NodeWaits(ss, acts, skew, i, n, m);
    if acts[m] == Lands(i) && acts[e] == Ends(i) {
      AttemptLeads(ss, acts, skew, i, n, m, e);
    }
  }

  /** A lease handed over is taken by the next attempt that reads it, by whatever clock. */
  lemma HandedOverIsTaken(ss: seq<System>, acts: seq<Step>, skew: nat, h: nat, i: Id, n: nat, m: nat, e: nat)
    requires Run(ss, acts, skew) && h < n < |acts| && acts[h].Releases? && acts[n] == Reads(i)
    requires Untouched(ss, h + 1, n) && Waits(acts, i, n, m) && Waits(acts, i, m, e) && Untouched(ss, n, m)
    ensures i in ss[m].nodes && ss[m].nodes[i].attempt.Sent?
    ensures acts[m] == Lands(i) && acts[e] == Ends(i) ==> i in ss[e + 1].nodes && ss[e + 1].nodes[i].leads
  {
    ReleasedIs(ss, acts, skew, h);
    ClaimsWhatIsFree(ss, acts, skew, i, n);
    hide Run;
    RunStep(ss, acts, skew, n);
    NodeWaits(ss, acts, skew, i, n, m);
    if acts[m] == Lands(i) && acts[e] == Ends(i) {
      AttemptLeads(ss, acts, skew, i, n, m, e);
    }
  }

  lemma ReleasedIs(ss: seq<System>, acts: seq<Step>, skew: nat, h: nat)
    requires Run(ss, acts, skew) && h < |acts| && acts[h].Releases?
    ensures h + 1 < |ss| && ss[h + 1].lease.Some? && ss[h + 1].lease.value.holder.None?
  {
    hide Run;
    RunStep(ss, acts, skew, h);
  }

  const IDLE := Node(false, 0, Resting)
  const LEADS := Node(true, 0, Resting)

  /** The slow clock's replica takes the lease at time 0 and then falls silent; the other
      one's clock is `skew` ahead, and reads it as run out at DURATION - skew + 1. */
  function Race(skew: nat): seq<System> {
    var t := DURATION - skew + 1;
    var first, second := Created(1, 0), Taken(2, Created(1, 0), DURATION + 1);
    [System(0, None, map[1 := IDLE, 2 := IDLE], {}),
     System(0, None, map[1 := IDLE.(attempt := Started(0, 0)), 2 := IDLE], {}),
     System(0, None, map[1 := IDLE.(attempt := Sent(0, 0, Post(first))), 2 := IDLE], {}),
     System(0, Some(first), map[1 := IDLE.(attempt := Answered(0, 0, true)), 2 := IDLE], {}),
     System(0, Some(first), map[1 := LEADS, 2 := IDLE], {}),
     System(t, Some(first), map[1 := LEADS, 2 := IDLE], {}),
     System(t, Some(first), map[1 := LEADS, 2 := IDLE.(attempt := Started(t, DURATION + 1))], {}),
     System(t, Some(first), map[1 := LEADS, 2 := IDLE.(attempt := Sent(t, DURATION + 1, Put(second, 0)))], {}),
     System(t, Some(second), map[1 := LEADS, 2 := IDLE.(attempt := Answered(t, DURATION + 1, true))], {}),
     System(t, Some(second), map[1 := LEADS, 2 := Node(true, t, Resting)], {})]
  }

  function RaceSteps(skew: nat): seq<Step>
    requires skew <= DURATION
  {
    [Begins(1, 0), Reads(1), Lands(1), Ends(1), Passes(DURATION - skew + 1),
     Begins(2, DURATION + 1), Reads(2), Lands(2), Ends(2)]
  }

  lemma RaceBegins(skew: nat, n: nat)
    requires skew <= DURATION && n < 5
    ensures Can(Race(skew)[n], RaceSteps(skew)[n], skew)
    ensures Race(skew)[n + 1] == Does(Race(skew)[n], RaceSteps(skew)[n], skew)
  {
  }

  lemma RaceEnds(skew: nat, n: nat)
    requires skew <= DURATION && 5 <= n < 9
    ensures Can(Race(skew)[n], RaceSteps(skew)[n], skew)
    ensures Race(skew)[n + 1] == Does(Race(skew)[n], RaceSteps(skew)[n], skew)
  {
  }

  /** The condition cannot be relaxed: with one microsecond more, two replicas lead. */
  lemma OneMicrosecondMore(skew: nat) returns (ss: seq<System>, acts: seq<Step>)
    requires skew <= DURATION
    ensures |ss| == |acts| + 1 && Init(ss[0])
    ensures forall n :: 0 <= n < |acts| ==> Can(ss[n], acts[n], skew) && ss[n + 1] == Does(ss[n], acts[n], skew)
    ensures forall n, i :: 0 <= n < |ss| && i in ss[n].nodes && ss[n].nodes[i].leads ==>
      ss[n].time <= ss[n].nodes[i].since + DURATION - skew + 1
    ensures var s := ss[|ss| - 1]; 1 in s.nodes && 2 in s.nodes && s.nodes[1].leads && s.nodes[2].leads
  {
    ss, acts := Race(skew), RaceSteps(skew);
    hide Can, Does;
    forall n | 0 <= n < |acts|
      ensures Can(ss[n], acts[n], skew) && ss[n + 1] == Does(ss[n], acts[n], skew)
    {
      if n < 5 {
        RaceBegins(skew, n);
      } else {
        RaceEnds(skew, n);
      }
    }
  }
}
