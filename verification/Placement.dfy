/** The bounded joint placement search of a batch of services.

    The planner that reviews one more pod is abstract: it answers, for a service and the
    pods placed so far, which hosts are eligible.  Its answer depends on what was placed
    where, not in which order.  Services have distinct names. */
module Placement {
  import opened Options

  datatype Placed = Placed(service: string, host: string)

  datatype Candidate = Candidate(host: string, eligible: bool)

  /** One more pod of service number `index` on `host`. */
  datatype Move = Move(index: nat, host: string)

  type Review = (nat, multiset<Placed>) -> seq<Candidate>

  function Sum(left: seq<nat>): nat { if left == [] then 0 else left[0] + Sum(left[1..]) }

  predicate AllPlaced(left: seq<nat>) { forall i :: 0 <= i < |left| ==> left[i] == 0 }

  function Less(left: seq<nat>, i: nat): seq<nat>
    requires i < |left| && left[i] > 0
  {
    left[i := left[i] - 1]
  }

  predicate Eligible(review: Review, i: nat, host: string, placed: multiset<Placed>) {
    Candidate(host, true) in review(i, placed)
  }

  /** The moves place every pod that is left, each on a host eligible at that point. */
  ghost predicate Plays(names: seq<string>, review: Review, left: seq<nat>, placed: multiset<Placed>, moves: seq<Move>)
    decreases |moves|
  {
    if moves == [] then AllPlaced(left)
    else
      var m := moves[0];
      && m.index < |left| && m.index < |names| && left[m.index] > 0
      && Eligible(review, m.index, m.host, placed)
      && Plays(names, review, Less(left, m.index), placed + multiset{Placed(names[m.index], m.host)}, moves[1..])
  }

  /** No order and no hosts will do. */
  ghost predicate NoWay(names: seq<string>, review: Review, left: seq<nat>, placed: multiset<Placed>) {
    forall moves :: !Plays(names, review, left, placed, moves)
  }

  function Pods(names: seq<string>, moves: seq<Move>): (r: seq<Placed>)
    requires forall k :: 0 <= k < |moves| ==> moves[k].index < |names|
    ensures |r| == |moves|
  {
    seq(|moves|, k requires 0 <= k < |moves| => Placed(names[moves[k].index], moves[k].host))
  }

  // ------------------------------------------------------------- what Plays means

  function Times(moves: seq<Move>, i: nat): nat {
    if moves == [] then 0 else (if moves[0].index == i then 1 else 0) + Times(moves[1..], i)
  }

  /** The same said at once: each service its exact number of times, each pod eligible. */
  ghost predicate Schedule(names: seq<string>, review: Review, left: seq<nat>, placed: multiset<Placed>,
                           moves: seq<Move>) {
    && |left| == |names| && (forall k :: 0 <= k < |moves| ==> moves[k].index < |names|)
    && (forall i :: 0 <= i < |left| ==> Times(moves, i) == left[i])
    && AllEligible(names, review, placed, moves)
  }

  /** Every pod on a host that is eligible with all the pods before it in place. */
  ghost predicate AllEligible(names: seq<string>, review: Review, placed: multiset<Placed>, moves: seq<Move>)
    requires forall k :: 0 <= k < |moves| ==> moves[k].index < |names|
  {
    forall k :: 0 <= k < |moves| ==>
      Eligible(review, moves[k].index, moves[k].host, placed + multiset(Pods(names, moves[..k])))
  }

  lemma EligibleStep(names: seq<string>, review: Review, placed: multiset<Placed>, moves: seq<Move>)
    requires moves != [] && forall k :: 0 <= k < |moves| ==> moves[k].index < |names|
    ensures var m := moves[0];
      AllEligible(names, review, placed, moves) <==>
        Eligible(review, m.index, m.host, placed) &&
        AllEligible(names, review, placed + multiset{Placed(names[m.index], m.host)}, moves[1..])
  {
    var m, rest := moves[0], moves[1..];
    var pod := Placed(names[m.index], m.host);
    hide Pods, Eligible;
    NoPods(names, placed, moves);
    forall k | 0 <= k < |rest|
      ensures rest[k] == moves[k + 1]
      ensures (placed + multiset{pod}) + multiset(Pods(names, rest[..k])) ==
        placed + multiset(Pods(names, moves[..k + 1]))
    {
      PodsStep(names, placed, moves, k);
    }
    if Eligible(review, m.index, m.host, placed) && AllEligible(names, review, placed + multiset{pod}, rest) {
      forall k | 0 <= k < |moves|
        ensures Eligible(review, moves[k].index, moves[k].host, placed + multiset(Pods(names, moves[..k])))
      {
        assert k > 0 ==> moves[k] == rest[k - 1] && moves[..k] == moves[..(k - 1) + 1];
      }
    }
    if AllEligible(names, review, placed, moves) {
      forall k | 0 <= k < |rest|
        ensures Eligible(review, rest[k].index, rest[k].host,
                         (placed + multiset{pod}) + multiset(Pods(names, rest[..k])))
      {
        assert Eligible(review, moves[k + 1].index, moves[k + 1].host, placed + multiset(Pods(names, moves[..k + 1])));
      }
    }
  }

  lemma NoPods(names: seq<string>, placed: multiset<Placed>, moves: seq<Move>)
    ensures placed + multiset(Pods(names, moves[..0])) == placed
  {
    assert Pods(names, moves[..0]) == [];
  }

  lemma PodsStep(names: seq<string>, placed: multiset<Placed>, moves: seq<Move>, k: nat)
    requires k + 1 < |moves| && forall l :: 0 <= l < |moves| ==> moves[l].index < |names|
    ensures moves[1..][k] == moves[k + 1]
    ensures var pod := Placed(names[moves[0].index], moves[0].host);
      (placed + multiset{pod}) + multiset(Pods(names, moves[1..][..k])) ==
        placed + multiset(Pods(names, moves[..k + 1]))
  {
    var m, rest := moves[0], moves[1..];
    assert moves[..k + 1] == [m] + rest[..k];
    assert Pods(names, moves[..k + 1]) == [Placed(names[m.index], m.host)] + Pods(names, rest[..k]);
  }

  lemma {:induction false} PlaysIsSchedule(names: seq<string>, review: Review, left: seq<nat>,
                                           placed: multiset<Placed>, moves: seq<Move>)
    requires |left| == |names|
    ensures Plays(names, review, left, placed, moves) <==> Schedule(names, review, left, placed, moves)
    decreases |moves|
  {
    hide AllEligible, Eligible, Times;
    if moves == [] {
      NoneIsSchedule(names, review, left, placed);
    } else {
      ScheduleStep(names, review, left, placed, moves);
      var m := moves[0];
      if m.index < |left| && left[m.index] > 0 {
        var pod := Placed(names[m.index], m.host);
        PlaysIsSchedule(names, review, Less(left, m.index), placed + multiset{pod}, moves[1..]);
      }
    }
  }

  lemma NoneIsSchedule(names: seq<string>, review: Review, left: seq<nat>, placed: multiset<Placed>)
    requires |left| == |names|
    ensures AllPlaced(left) <==> Schedule(names, review, left, placed, [])
  {
  }

  lemma ScheduleStep(names: seq<string>, review: Review, left: seq<nat>, placed: multiset<Placed>, moves: seq<Move>)
    requires |left| == |names| && moves != []
    ensures Schedule(names, review, left, placed, moves) <==>
      var m := moves[0];
      && m.index < |left| && left[m.index] > 0 && Eligible(review, m.index, m.host, placed)
      && Schedule(names, review, Less(left, m.index), placed + multiset{Placed(names[m.index], m.host)}, moves[1..])
  {
    hide AllEligible, Eligible, Times;
    var m, rest := moves[0], moves[1..];
    assert moves == [m] + rest;
    if m.index < |left| {
      TimesStep(left, moves);
      if forall k :: 0 <= k < |rest| ==> rest[k].index < |names| {
        EligibleStep(names, review, placed, moves);
      }
    }
  }

  lemma {:induction false} TimesStep(left: seq<nat>, moves: seq<Move>)
    requires moves != [] && moves[0].index < |left|
    ensures (forall i :: 0 <= i < |left| ==> Times(moves, i) == left[i]) <==>
      var j := moves[0].index;
      left[j] > 0 && forall i :: 0 <= i < |left| ==> Times(moves[1..], i) == Less(left, j)[i]
  {
    var j, rest := moves[0].index, moves[1..];
    assert forall i :: 0 <= i < |left| ==> Times(moves, i) == (if j == i then 1 else 0) + Times(rest, i);
    if left[j] > 0 {
      assert forall i :: 0 <= i < |left| ==> left[i] == (if j == i then 1 else 0) + Less(left, j)[i];
    }
  }

  lemma {:induction false} TimesLast(moves: seq<Move>, i: nat)
    requires moves != []
    ensures Times(moves, i) == Times(moves[..|moves| - 1], i) + if moves[|moves| - 1].index == i then 1 else 0
  {
    if |moves| > 1 {
      var less := moves[..|moves| - 1];
      TimesLast(moves[1..], i);
      assert less[1..] == moves[1..][..|moves| - 2];
    }
  }

  function MovesOf(moves: seq<Move>, i: nat): set<int> { set k | 0 <= k < |moves| && moves[k].index == i }

  lemma MovesOfLast(moves: seq<Move>, i: nat)
    requires moves != []
    ensures var n := |moves| - 1;
      n !in MovesOf(moves[..n], i) &&
        MovesOf(moves, i) == MovesOf(moves[..n], i) + if moves[n].index == i then {n} else {}
  {
    var less := moves[..|moves| - 1];
    assert forall k :: 0 <= k < |less| ==> less[k] == moves[k];
  }

  lemma {:induction false} TimesCounts(moves: seq<Move>, i: nat)
    ensures Times(moves, i) == |MovesOf(moves, i)|
  {
    hide Times, MovesOf;
    if moves == [] {
      NoTimes(i);
    } else {
      TimesLast(moves, i);
      TimesCounts(moves[..|moves| - 1], i);
      MovesOfLast(moves, i);
    }
  }

  lemma {:induction false} NoTimes(i: nat)
    ensures Times([], i) == 0 && MovesOf([], i) == {}
  {
  }

  /** Move k goes to a host that the planner calls eligible for it, with the pods of all moves
      before it in place. */
  predicate OnEligibleHost(names: seq<string>, review: Review, moves: seq<Move>, k: nat)
    requires k < |moves| && forall l :: 0 <= l < |moves| ==> moves[l].index < |names|
  {
    var before := seq(k, l requires 0 <= l < k => Placed(names[moves[l].index], moves[l].host));
    exists c :: c in review(moves[k].index, multiset(before)) && c.host == moves[k].host && c.eligible
  }

  /** What a schedule is: so many moves for each service, each to a host that is eligible then. */
  lemma ScheduleExactlyWhen(names: seq<string>, review: Review, left: seq<nat>, moves: seq<Move>)
    requires |left| == |names|
    ensures Schedule(names, review, left, multiset{}, moves) <==>
      && (forall k :: 0 <= k < |moves| ==> moves[k].index < |names|)
      && (forall i :: 0 <= i < |left| ==> |MovesOf(moves, i)| == left[i])
      && (forall k :: 0 <= k < |moves| ==> OnEligibleHost(names, review, moves, k))
  {
    hide Times, Eligible, MovesOf;
    forall i ensures Times(moves, i) == |MovesOf(moves, i)| { TimesCounts(moves, i); }
    if forall k :: 0 <= k < |moves| ==> moves[k].index < |names| {
      forall k | 0 <= k < |moves|
        ensures OnEligibleHost(names, review, moves, k) <==>
          Eligible(review, moves[k].index, moves[k].host, multiset{} + multiset(Pods(names, moves[..k])))
      {
        EligibleIs(names, review, moves, k);
      }
      hide OnEligibleHost, Pods;
    }
  }

  lemma EligibleIs(names: seq<string>, review: Review, moves: seq<Move>, k: nat)
    requires k < |moves| && forall l :: 0 <= l < |moves| ==> moves[l].index < |names|
    ensures OnEligibleHost(names, review, moves, k) <==>
      Eligible(review, moves[k].index, moves[k].host, multiset{} + multiset(Pods(names, moves[..k])))
  {
    var before := seq(k, l requires 0 <= l < k => Placed(names[moves[l].index], moves[l].host));
    assert Pods(names, moves[..k]) == before;
    assert multiset{} + multiset(before) == multiset(before);
    forall c | c in review(moves[k].index, multiset(before)) && c.host == moves[k].host && c.eligible
      ensures c == Candidate(moves[k].host, true)
    {
    }
  }

  lemma {:induction false} SumLess(left: seq<nat>, i: nat)
    requires i < |left| && left[i] > 0
    ensures Sum(Less(left, i)) == Sum(left) - 1
  {
    if i > 0 {
      SumLess(left[1..], i - 1);
      assert Less(left, i)[1..] == Less(left[1..], i - 1);
    } else {
      assert Less(left, 0)[1..] == left[1..];
    }
  }

  // ------------------------------------------------------------- the search

  datatype Key = Key(left: seq<nat>, placed: multiset<Placed>)

  class Search {
    const names: seq<string>
    const review: Review
    const budget: nat
    var steps: nat
    var limited: bool
    var memo: set<Key>
    ghost var calls: nat     // reviews asked for
    ghost var late: bool     // the deadline was seen to have passed

    constructor (names: seq<string>, review: Review, budget: nat)
      ensures this.names == names && this.review == review && this.budget == budget
      ensures steps == 0 && !limited && memo == {} && calls == 0 && !late
    {
      this.names, this.review, this.budget := names, review, budget;
      steps, limited, memo, calls, late := 0, false, {}, 0, false;
    }

    /** At most `budget` reviews; the step counter may show one more. The search is only cut
        short by the budget or by the clock. */
    ghost predicate Bounded() reads this {
      && calls <= budget && calls <= steps <= budget + 1
      && (!limited ==> calls == steps)
      && (limited ==> calls == budget || late)
    }

    ghost predicate Fails(key: Key) reads this { NoWay(names, review, key.left, key.placed) }

    /** Every remembered state leads nowhere, but for those still being explored. */
    ghost predicate MemoOk(open: set<Key>) reads this {
      forall key :: key in memo ==> key in open || Fails(key)
    }

    /** time.monotonic() >= deadline, whatever the clock says. */
    method Late() returns (b: bool)
      modifies this`late
      ensures late == (old(late) || b)
    {
      b := *;
      late := late || b;
    }

    method Run(left: seq<nat>, placements: seq<Placed>, ghost open: set<Key>) returns (found: Option<seq<Placed>>)
      requires |left| == |names| && !limited && Bounded()
      requires MemoOk(open) && forall key :: key in open ==> Sum(key.left) > Sum(left)
      modifies this
      ensures Bounded()
      ensures found.Some? ==> exists moves ::
        Plays(names, review, left, multiset(placements), moves) && PlaysTo(placements, moves, found.value)
      ensures found.None? && !limited ==> NoWay(names, review, left, multiset(placements)) && MemoOk(open)
      decreases Sum(left)
    {
      hide Plays, PlaysTo, NoWay;
      if forall i :: 0 <= i < |left| ==> left[i] == 0 {
        PlaysNothing(left, placements);
        return Some(placements);
      }
      var late := Late();
      if steps >= budget || late {
        limited := true;
        return None;
      }
      var key := Key(left, multiset(placements));
      if key in memo {
        return None;
      }
      memo := memo + {key};
      for index := 0 to |names|
        invariant Bounded() && !limited && MemoOk(open + {key})
        invariant forall j, h :: 0 <= j < index && left[j] > 0 && Eligible(review, j, h, key.placed) ==>
          NoWayAfter(left, key.placed, j, h)
      {
        if left[index] == 0 {
          continue;
        }
        steps := steps + 1;
        late := Late();
        if steps > budget || late {
          limited := true;
          return None;
        }
        calls := calls + 1;
        var candidates := review(index, key.placed);
        SumLess(left, index);
        for c := 0 to |candidates|
          invariant Bounded() && !limited && MemoOk(open + {key})
          invariant forall d :: 0 <= d < c && candidates[d].eligible ==>
            NoWayAfter(left, key.placed, index, candidates[d].host)
        {
          if !candidates[c].eligible {
            continue;
          }
          var pod := Placed(names[index], candidates[c].host);
          assert multiset(placements + [pod]) == key.placed + multiset{pod};
          found := Run(Less(left, index), placements + [pod], open + {key});
          if found.Some? {
            Prepend(left, placements, Move(index, candidates[c].host), found.value);
            return;
          }
          if limited {
            return None;
          }
        }
      }
      NothingLeft(left, key.placed);
      return None;
    }

    /** With nothing left to place, what is placed is an example. */
    lemma {:induction false} PlaysNothing(left: seq<nat>, placements: seq<Placed>)
      requires forall i :: 0 <= i < |left| ==> left[i] == 0
      ensures exists moves ::
        Plays(names, review, left, multiset(placements), moves) && PlaysTo(placements, moves, placements)
    {
      assert Plays(names, review, left, multiset(placements), []);
      assert placements + Pods(names, []) == placements;
    }

    ghost predicate PlaysTo(placements: seq<Placed>, moves: seq<Move>, example: seq<Placed>) {
      (forall k :: 0 <= k < |moves| ==> moves[k].index < |names|) && example == placements + Pods(names, moves)
    }

    /** One move, then no way. */
    ghost predicate NoWayAfter(left: seq<nat>, placed: multiset<Placed>, j: nat, h: string)
      requires |left| == |names|
    {
      j < |left| && left[j] > 0 ==>
        NoWay(names, review, Less(left, j), placed + multiset{Placed(names[j], h)})
    }

    /** When no first move leads anywhere, nothing does. */
    lemma NothingLeft(left: seq<nat>, placed: multiset<Placed>)
      requires |left| == |names| && !AllPlaced(left)
      requires forall j, h :: 0 <= j < |names| && left[j] > 0 && Eligible(review, j, h, placed) ==>
        NoWayAfter(left, placed, j, h)
      ensures NoWay(names, review, left, placed)
    {
      forall moves: seq<Move>
        ensures !Plays(names, review, left, placed, moves)
      {
        if moves != [] && moves[0].index < |left| && left[moves[0].index] > 0 &&
           Eligible(review, moves[0].index, moves[0].host, placed) {
          assert NoWayAfter(left, placed, moves[0].index, moves[0].host);
        }
      }
    }

    /** A first move and the rest make an example of the whole. */
    lemma {:induction false} Prepend(left: seq<nat>, placements: seq<Placed>, m: Move, example: seq<Placed>)
      requires |left| == |names| && m.index < |left| && left[m.index] > 0
      requires Eligible(review, m.index, m.host, multiset(placements))
      requires exists moves ::
        && Plays(names, review, Less(left, m.index), multiset(placements + [Placed(names[m.index], m.host)]), moves)
        && PlaysTo(placements + [Placed(names[m.index], m.host)], moves, example)
      ensures exists moves ::
        Plays(names, review, left, multiset(placements), moves) && PlaysTo(placements, moves, example)
    {
      hide Plays, PlaysTo, Less, Eligible;
      var more := placements + [Placed(names[m.index], m.host)];
      var moves :| && Plays(names, review, Less(left, m.index), multiset(more), moves)
                   && PlaysTo(more, moves, example);
      PlaysOn(left, placements, m, moves);
      PlaysToOn(placements, m, moves, example);
    }

    lemma {:induction false} PlaysOn(left: seq<nat>, placements: seq<Placed>, m: Move, moves: seq<Move>)
      requires |left| == |names| && m.index < |left| && left[m.index] > 0
      requires Eligible(review, m.index, m.host, multiset(placements))
      requires Plays(names, review, Less(left, m.index), multiset(placements + [Placed(names[m.index], m.host)]), moves)
      ensures Plays(names, review, left, multiset(placements), [m] + moves)
    {
      hide Eligible, Less;
      var pod := Placed(names[m.index], m.host);
      assert ([m] + moves)[1..] == moves && multiset(placements + [pod]) == multiset(placements) + multiset{pod};
    }

    lemma PlaysToOn(placements: seq<Placed>, m: Move, moves: seq<Move>, example: seq<Placed>)
      requires m.index < |names| && PlaysTo(placements + [Placed(names[m.index], m.host)], moves, example)
      ensures PlaysTo(placements, [m] + moves, example)
    {
      var pod := Placed(names[m.index], m.host);
      assert Pods(names, [m] + moves) == [pod] + Pods(names, moves);
      assert placements + [pod] + Pods(names, moves) == placements + Pods(names, [m] + moves);
    }
  }

  // ------------------------------------------------------------- the plan

  datatype Status = Fits(example: seq<Placed>) | Blocked | Unknown | Invalid

  const MAX_PODS := 64
  const MAX_ENTRIES := 32

  /** `plan`: an example is only given when it plays, and "blocked" is only said when no
      order and no hosts would do. */
  method Plan(names: seq<string>, replicas: seq<int>, review: Review, budget: nat)
    returns (status: Status, ghost calls: nat, ghost late: bool)
    requires |names| == |replicas|
    ensures calls <= budget
    ensures status == Invalid <==> exists i :: 0 <= i < |replicas| && !(0 <= replicas[i] <= 100)
    ensures status.Fits? ==> exists moves: seq<Move> ::
      Schedule(names, review, replicas, multiset{}, moves) && status.example == Pods(names, moves)
    ensures status == Blocked ==> forall moves: seq<Move> :: !Schedule(names, review, replicas, multiset{}, moves)
    ensures status == Unknown ==> Sum(replicas) > MAX_PODS || |names| > MAX_ENTRIES || calls == budget || late
    ensures status != Invalid && (Sum(replicas) > MAX_PODS || |names| > MAX_ENTRIES) ==> status == Unknown
  {
    calls, late := 0, false;
    for i := 0 to |replicas|
      invariant forall j :: 0 <= j < i ==> 0 <= replicas[j] <= 100
    {
      if !(0 <= replicas[i] <= 100) {
        return Invalid, 0, false;
      }
    }
    var left: seq<nat> := replicas;
    if Sum(left) > MAX_PODS || |names| > MAX_ENTRIES {
      return Unknown, 0, false;
    }
    var search := new Search(names, review, budget);
    var none: seq<Placed> := [];
    assert multiset(none) == multiset{};
    var found := search.Run(left, none, {});
    calls, late := search.calls, search.late;
    if found.Some? {
      ghost var moves :| Plays(names, review, left, multiset{}, moves) && search.PlaysTo(none, moves, found.value);
      PlaysIsSchedule(names, review, left, multiset{}, moves);
      assert found.value == Pods(names, moves);
      status := Fits(found.value);
    } else if search.limited {
      status := Unknown;
    } else {
      status := Blocked;
      forall moves: seq<Move>
        ensures !Schedule(names, review, left, multiset{}, moves)
      {
        PlaysIsSchedule(names, review, left, multiset{}, moves);
      }
    }
  }
}
