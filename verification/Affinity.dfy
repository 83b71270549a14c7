/** Placement rules: the affinity terms Homestead writes on a workload, told apart from
    hand-made ones only by the rules recorded when they were written. */
module Affinity {

  type Selector = map<string, string>

  /** A pod affinity term: one of the shape Homestead writes, or any other. */
  datatype Term = Term(selector: Selector, ns: string) | Foreign(text: string)

  datatype Item = Hard(term: Term) | Soft(weight: int, term: Term)

  datatype Kind = PodAffinity | PodAntiAffinity

  datatype Slot = Required | Preferred

  type Blocks = map<Kind, map<Slot, seq<Item>>>

  datatype Rule = Rule(ns: string, name: string, mode: string, selector: Selector)

  datatype Rules = Rules(spread: string, together: seq<Rule>, apart: seq<Rule>)

  datatype Entry = Entry(kind: Kind, mode: string, term: Term)

  const WEIGHT := 100

  const EMPTY := Rules("", [], [])

  predicate IsMode(mode: string) { mode == "prefer" || mode == "require" }

  // ---- reading the record ----

  function Readable(rows: seq<Rule>): (r: seq<Rule>)
    ensures (forall i :: 0 <= i < |rows| ==> IsMode(rows[i].mode) && rows[i].name != "") ==> r == rows
  {
    if rows == [] then []
    else (if IsMode(rows[0].mode) && rows[0].name != "" then [rows[0]] else []) + Readable(rows[1..])
  }

  /** `read`: what the annotation holds, less anything it should not. */
  function Read(stored: Rules): Rules {
    Rules(if IsMode(stored.spread) then stored.spread else "", Readable(stored.together), Readable(stored.apart))
  }

  function RowEntries(rows: seq<Rule>, kind: Kind, ns: string): seq<Entry> {
    if rows == [] then []
    else
      (if rows[0].selector != map[] then
         [Entry(kind, rows[0].mode, Term(rows[0].selector, if rows[0].ns != "" then rows[0].ns else ns))]
       else []) + RowEntries(rows[1..], kind, ns)
  }

  function Entries(rules: Rules, ns: string, own: Selector): seq<Entry> {
    (if rules.spread != "" && own != map[] then [Entry(PodAntiAffinity, rules.spread, Term(own, ns))] else [])
    + RowEntries(rules.together, PodAffinity, ns) + RowEntries(rules.apart, PodAntiAffinity, ns)
  }

  // ---- changing the terms ----

  function SlotOf(mode: string): Slot { if mode == "require" then Required else Preferred }

  function ItemOf(mode: string, term: Term): Item { if mode == "require" then Hard(term) else Soft(WEIGHT, term) }

  /** The items of one slot, absent or not. */
  function Items(b: Blocks, kind: Kind, slot: Slot): seq<Item> {
    if kind in b && slot in b[kind] then b[kind][slot] else []
  }

  function Without(items: seq<Item>, gone: set<Item>): seq<Item> {
    if items == [] then []
    else (if items[0] in gone then [] else [items[0]]) + Without(items[1..], gone)
  }

  /** `_remove`. */
  function Removed(b: Blocks, e: Entry): Blocks {
    if e.kind !in b then b
    else
      var block := b[e.kind];
      var kept := Without(Items(b, e.kind, SlotOf(e.mode)), {ItemOf(e.mode, e.term)});
      b[e.kind := if kept != [] then block[SlotOf(e.mode) := kept] else block - {SlotOf(e.mode)}]
  }

  /** `_add`. */
  function Added(b: Blocks, e: Entry): Blocks {
    var block := if e.kind in b then b[e.kind] else map[];
    b[e.kind := block[SlotOf(e.mode) := Items(b, e.kind, SlotOf(e.mode)) + [ItemOf(e.mode, e.term)]]]
  }

  /** `_tidy`: a kind with nothing in it is dropped. */
  function Tidied(b: Blocks): Blocks {
    map k | k in b && b[k] != map[] :: b[k]
  }

  function RemovedAll(b: Blocks, es: seq<Entry>): Blocks {
    if es == [] then b else Removed(RemovedAll(b, es[..|es| - 1]), es[|es| - 1])
  }

  function AddedAll(b: Blocks, es: seq<Entry>): Blocks {
    if es == [] then b else Added(AddedAll(b, es[..|es| - 1]), es[|es| - 1])
  }

  function Rewritten(b: Blocks, was: Rules, now: Rules, ns: string, own: Selector): Blocks {
    Tidied(AddedAll(RemovedAll(b, Entries(Read(was), ns, own)), Entries(now, ns, own)))
  }

  // ---- a request ----

  datatype Ask = Ask(ns: string, name: string, mode: string)

  datatype Request = Request(spread: string, together: seq<Ask>, apart: seq<Ask>)

  datatype Refusal = BadSpread | NoOwnSelector | BadMode | Itself | Twice | NotFound | NoSelector

  datatype Outcome = Done(rules: Rules) | Refused(why: Refusal)

  /** One workload and the deployments it can be kept with or apart from. */
  class Workload {
    const ns: string
    const name: string
    const own: Selector
    var blocks: Blocks
    var stored: Rules

    constructor (ns: string, name: string, own: Selector, blocks: Blocks, stored: Rules)
      ensures this.ns == ns && this.name == name && this.own == own && this.blocks == blocks && this.stored == stored
    {
      this.ns, this.name, this.own, this.blocks, this.stored := ns, name, own, blocks, stored;
    }

    function Target(ask: Ask): (string, string) { (if ask.ns != "" then ask.ns else ns, ask.name) }

    function ModeOf(ask: Ask): string { if ask.mode != "" then ask.mode else "prefer" }

    /** A row that names nobody is skipped. */
    predicate Acceptable(ask: Ask, cluster: map<(string, string), Selector>) {
      ask.name != "" ==>
        && IsMode(ModeOf(ask)) && Target(ask) != (ns, name)
        && Target(ask) in cluster && cluster[Target(ask)] != map[]
    }

    function RuleOf(ask: Ask, cluster: map<(string, string), Selector>): Rule
      requires Acceptable(ask, cluster) && ask.name != ""
    {
      Rule(Target(ask).0, ask.name, ModeOf(ask), cluster[Target(ask)])
    }

    predicate AllAcceptable(asks: seq<Ask>, cluster: map<(string, string), Selector>) {
      forall i :: 0 <= i < |asks| ==> Acceptable(asks[i], cluster)
    }

    function RulesOf(asks: seq<Ask>, cluster: map<(string, string), Selector>): (r: seq<Rule>)
      requires AllAcceptable(asks, cluster)
      ensures forall i :: 0 <= i < |r| ==> IsMode(r[i].mode) && r[i].name != "" && r[i].selector != map[]
    {
      if asks == [] then []
      else
        var last := asks[|asks| - 1];
        RulesOf(asks[..|asks| - 1], cluster) + if last.name == "" then [] else [RuleOf(last, cluster)]
    }

    /** The workloads some rows name. */
    function Named(asks: seq<Ask>): (r: set<(string, string)>)
      ensures forall i :: 0 <= i < |asks| && asks[i].name != "" ==> Target(asks[i]) in r
    {
      if asks == [] then {}
      else
        var last := asks[|asks| - 1];
        Named(asks[..|asks| - 1]) + if last.name == "" then {} else {Target(last)}
    }

    /** No row names what another row, or the rows already seen, name. */
    predicate Once(asks: seq<Ask>, seen: set<(string, string)>) {
      && (forall i :: 0 <= i < |asks| && asks[i].name != "" ==> Target(asks[i]) !in seen)
      && (forall i, j :: 0 <= i < j < |asks| && asks[i].name != "" && asks[j].name != "" ==>
        Target(asks[i]) != Target(asks[j]))
    }

    lemma {:induction false} NamedBy(asks: seq<Ask>, t: (string, string)) returns (i: nat)
      requires t in Named(asks)
      ensures i < |asks| && asks[i].name != "" && Target(asks[i]) == t
    {
      var n := |asks| - 1;
      if asks[n].name != "" && Target(asks[n]) == t { i := n; } else { i := NamedBy(asks[..n], t); }
    }

    lemma OnceStep(asks: seq<Ask>, i: nat, seen: set<(string, string)>)
      requires i < |asks| && Once(asks[..i], seen)
      ensures Once(asks[..i + 1], seen) <==> (asks[i].name != "" ==> Target(asks[i]) !in seen + Named(asks[..i]))
      ensures Once(asks, seen) ==> Once(asks[..i + 1], seen)
    {
      var less, more, ask := asks[..i], asks[..i + 1], asks[i];
      assert more[i] == ask && forall j :: 0 <= j < i ==> more[j] == less[j];
      if ask.name != "" && Target(ask) in Named(less) {
        var j := NamedBy(less, Target(ask));
        assert more[j] == less[j];
      }
    }

    lemma {:induction false} RulesStep(asks: seq<Ask>, i: nat, cluster: map<(string, string), Selector>)
      requires i < |asks| && AllAcceptable(asks[..i], cluster) && Acceptable(asks[i], cluster)
      ensures AllAcceptable(asks[..i + 1], cluster)
      ensures RulesOf(asks[..i + 1], cluster) == RulesOf(asks[..i], cluster) +
        if asks[i].name == "" then [] else [RuleOf(asks[i], cluster)]
      ensures Named(asks[..i + 1]) == Named(asks[..i]) + if asks[i].name == "" then {} else {Target(asks[i])}
    {
      hide Acceptable;
      assert asks[..i + 1][..i] == asks[..i];
      assert asks[..i + 1][i] == asks[i];
      var less, more := asks[..i], asks[..i + 1];
      forall j | 0 <= j < |more| ensures Acceptable(more[j], cluster) {
        assert j < i ==> more[j] == less[j];
      }
    }

    /** What a request has to be. */
    predicate Good(request: Request, cluster: map<(string, string), Selector>) {
      && (request.spread != "" ==> IsMode(request.spread) && own != map[])
      && AllAcceptable(request.together, cluster) && AllAcceptable(request.apart, cluster)
      && Once(request.together, {}) && Once(request.apart, Named(request.together))
    }

    function Asked(request: Request, cluster: map<(string, string), Selector>): Rules
      requires Good(request, cluster)
    {
      Rules(request.spread, RulesOf(request.together, cluster), RulesOf(request.apart, cluster))
    }

    /** One row of a request, after those before it. */
    method Take(ask: Ask, cluster: map<(string, string), Selector>, seen: set<(string, string)>)
      returns (refusal: seq<Refusal>)
      requires ask.name != ""
      ensures refusal == [] <==> Acceptable(ask, cluster) && Target(ask) !in seen
    {
      var target := Target(ask);
      return if !IsMode(ModeOf(ask)) then [BadMode]
        else if target == (ns, name) then [Itself]
        else if target in seen then [Twice]
        else if target !in cluster then [NotFound]
        else if cluster[target] == map[] then [NoSelector]
        else [];
    }

    method Gather(asks: seq<Ask>, cluster: map<(string, string), Selector>, before: set<(string, string)>)
      returns (rules: seq<Rule>, seen: set<(string, string)>, refusal: seq<Refusal>)
      ensures refusal == [] <==> AllAcceptable(asks, cluster) && Once(asks, before)
      ensures refusal == [] ==> rules == RulesOf(asks, cluster) && seen == before + Named(asks)
    {
      hide Acceptable, Once, Named, RulesOf, ModeOf, Target;
      rules, seen, refusal := [], before, [];
      Empty(before, cluster);
      for i := 0 to |asks|
        invariant refusal == [] && AllAcceptable(asks[..i], cluster) && Once(asks[..i], before)
        invariant rules == RulesOf(asks[..i], cluster) && seen == before + Named(asks[..i])
      {
        var ask := asks[i];
        OnceStep(asks, i, before);
        Blank(ask, cluster);
        if ask.name != "" {
          refusal := Take(ask, cluster, seen);
          if refusal != [] {
            return;
          }
          seen := seen + {Target(ask)};
          rules := rules + [RuleOf(ask, cluster)];
        }
        RulesStep(asks, i, cluster);
      }
      assert asks[..|asks|] == asks;
    }

    lemma {:induction false} Empty(before: set<(string, string)>, cluster: map<(string, string), Selector>)
      ensures Once([], before) && Named([]) == {} && RulesOf([], cluster) == []
    {
    }

    lemma Blank(ask: Ask, cluster: map<(string, string), Selector>)
      ensures ask.name == "" ==> Acceptable(ask, cluster)
    {
    }

    /** `apply`: the request is looked at whole before anything is changed. */
    method Apply(request: Request, cluster: map<(string, string), Selector>) returns (outcome: Outcome)
      modifies this
      ensures outcome.Done? <==> Good(request, cluster)
      ensures outcome.Done? ==> outcome.rules == stored == Asked(request, cluster)
      ensures outcome.Done? ==> blocks == Rewritten(old(blocks), old(stored), stored, ns, own)
      ensures outcome.Refused? ==> blocks == old(blocks) && stored == old(stored)
    {
      hide Acceptable, Once, Removed, Added, Entries, Read, RulesOf, AllAcceptable;
      var affinity := blocks;
      var entries := Entries(Read(stored), ns, own);
      for i := 0 to |entries|
        invariant affinity == RemovedAll(blocks, entries[..i])
      {
        affinity := Removed(affinity, entries[i]);
        assert entries[..i + 1][..i] == entries[..i];
      }
      assert entries[..|entries|] == entries;
      if request.spread != "" && !IsMode(request.spread) {
        return Refused(BadSpread);
      }
      if request.spread != "" && own == map[] {
        return Refused(NoOwnSelector);
      }
      var together, seen, refusal := Gather(request.together, cluster, {});
      if refusal != [] {
        return Refused(refusal[0]);
      }
      assert {} + Named(request.together) == Named(request.together);
      var apart, seen', refusal' := Gather(request.apart, cluster, seen);
      if refusal' != [] {
        return Refused(refusal'[0]);
      }
      var rules := Rules(request.spread, together, apart);
      ghost var cleared := affinity;
      entries := Entries(rules, ns, own);
      for i := 0 to |entries|
        invariant affinity == AddedAll(cleared, entries[..i])
      {
        affinity := Added(affinity, entries[i]);
        assert entries[..i + 1][..i] == entries[..i];
      }
      assert entries[..|entries|] == entries;
      blocks := Tidied(affinity);
      stored := rules;
      return Done(rules);
    }
  }

  // ---- what a slot holds after ----

  /** The items some entries put in a slot. */
  function Put(es: seq<Entry>, kind: Kind, slot: Slot): seq<Item> {
    if es == [] then []
    else
      var e := es[|es| - 1];
      Put(es[..|es| - 1], kind, slot) +
        if e.kind == kind && SlotOf(e.mode) == slot then [ItemOf(e.mode, e.term)] else []
  }

  function AsSet(items: seq<Item>): set<Item> { set x | x in items }

  lemma {:induction false} WithoutTwice(items: seq<Item>, a: set<Item>, b: set<Item>)
    ensures Without(Without(items, a), b) == Without(items, a + b)
  {
    if items != [] {
      WithoutTwice(items[1..], a, b);
      var rest := Without(items[1..], a);
      if items[0] in a {
        assert Without(items, a) == rest;
      } else {
        assert Without(items, a) == [items[0]] + rest && ([items[0]] + rest)[1..] == rest;
      }
    }
  }

  lemma {:induction false} WithoutHolds(items: seq<Item>, gone: set<Item>, x: Item)
    ensures x in Without(items, gone) <==> x in items && x !in gone
  {
    if items != [] { WithoutHolds(items[1..], gone, x); }
  }

  lemma {:induction false} WithoutSame(items: seq<Item>, gone: set<Item>)
    ensures |Without(items, gone)| <= |items|
    ensures |Without(items, gone)| == |items| ==> forall x :: x in items ==> x !in gone
    ensures (forall x :: x in items ==> x !in gone) ==> Without(items, gone) == items
  {
    if items != [] { WithoutSame(items[1..], gone); }
  }

  lemma {:induction false} WithoutConcat(x: seq<Item>, y: seq<Item>, gone: set<Item>)
    ensures Without(x + y, gone) == Without(x, gone) + Without(y, gone)
  {
    if x == [] {
      assert x + y == y;
    } else {
      assert (x + y)[1..] == x[1..] + y;
      WithoutConcat(x[1..], y, gone);
    }
  }

  lemma {:induction false} RemovedAllItems(b: Blocks, es: seq<Entry>, kind: Kind, slot: Slot)
    ensures Items(RemovedAll(b, es), kind, slot) == Without(Items(b, kind, slot), AsSet(Put(es, kind, slot)))
  {
    hide Without;
    if es == [] {
      assert AsSet([]) == {};
      WithoutNothing(Items(b, kind, slot));
    } else {
      var less, e := es[..|es| - 1], es[|es| - 1];
      RemovedAllItems(b, less, kind, slot);
      RemovedItems(RemovedAll(b, less), e, kind, slot);
      var one: set<Item> := if e.kind == kind && SlotOf(e.mode) == slot then {ItemOf(e.mode, e.term)} else {};
      assert AsSet(Put(es, kind, slot)) == AsSet(Put(less, kind, slot)) + one;
      WithoutTwice(Items(b, kind, slot), AsSet(Put(less, kind, slot)), one);
    }
  }

  lemma {:induction false} WithoutNothing(items: seq<Item>)
    ensures Without(items, {}) == items
  {
    WithoutSame(items, {});
  }

  lemma RemovedItems(b: Blocks, e: Entry, kind: Kind, slot: Slot)
    ensures Items(Removed(b, e), kind, slot) ==
      Without(Items(b, kind, slot), if e.kind == kind && SlotOf(e.mode) == slot then {ItemOf(e.mode, e.term)} else {})
  {
    WithoutNothing(Items(b, kind, slot));
  }

  lemma {:induction false} AddedAllItems(b: Blocks, es: seq<Entry>, kind: Kind, slot: Slot)
    ensures Items(AddedAll(b, es), kind, slot) == Items(b, kind, slot) + Put(es, kind, slot)
  {
    if es != [] { AddedAllItems(b, es[..|es| - 1], kind, slot); }
  }

  /** Each slot keeps, in order, what the recorded rules did not write, then gets the new. */
  lemma {:induction false} RewrittenItems(b: Blocks, was: Rules, now: Rules, ns: string, own: Selector, kind: Kind,
    slot: Slot)
    ensures Items(Rewritten(b, was, now, ns, own), kind, slot)
         == Without(Items(b, kind, slot), AsSet(Put(Entries(Read(was), ns, own), kind, slot))) +
           Put(Entries(now, ns, own), kind, slot)
  {
    hide Without, Put, Entries, Read, Removed, Added, RemovedAll, AddedAll;
    var gone, put := Entries(Read(was), ns, own), Entries(now, ns, own);
    RemovedAllItems(b, gone, kind, slot);
    AddedAllItems(RemovedAll(b, gone), put, kind, slot);
  }

  // ---- what a request has to be ----

  /** The row names a workload other than this one, which is there and has a selector, and asks
      for one of the two modes or none. */
  predicate RowGood(w: Workload, ask: Ask, cluster: map<(string, string), Selector>) {
    var ns := if ask.ns == "" then w.ns else ask.ns;
    && (ask.mode == "" || ask.mode == "prefer" || ask.mode == "require")
    && !(ns == w.ns && ask.name == w.name)
    && (ns, ask.name) in cluster && cluster[(ns, ask.name)] != map[]
  }

  /** Both name one workload. */
  predicate SameTarget(w: Workload, a: Ask, b: Ask) {
    a.name == b.name && (if a.ns == "" then w.ns else a.ns) == (if b.ns == "" then w.ns else b.ns)
  }

  lemma AcceptableIs(w: Workload, ask: Ask, cluster: map<(string, string), Selector>)
    ensures w.Acceptable(ask, cluster) <==> ask.name == "" || RowGood(w, ask, cluster)
  {
  }

  lemma {:induction false} NamedIs(w: Workload, asks: seq<Ask>, t: (string, string))
    ensures t in w.Named(asks) <==> exists i :: 0 <= i < |asks| && asks[i].name != "" && w.Target(asks[i]) == t
  {
    if t in w.Named(asks) {
      var i := w.NamedBy(asks, t);
    }
  }

  /** A request is good exactly when spreading, if asked for, has a mode and the workload a
      selector; every row with a name is good; and no two of them, of either list, name one
      workload. */
  lemma GoodExactlyWhen(w: Workload, request: Request, cluster: map<(string, string), Selector>)
    ensures var all := request.together + request.apart;
      w.Good(request, cluster) <==>
        && (request.spread == "" || ((request.spread == "prefer" || request.spread == "require") && w.own != map[]))
        && (forall i :: 0 <= i < |all| && all[i].name != "" ==> RowGood(w, all[i], cluster))
        && Apart(w, all)
  {
    var all := request.together + request.apart;
    AllAre(w, request, cluster);
    OnceAre(w, request.together, request.apart);
    hide RowGood, Apart;
  }

  lemma AllAre(w: Workload, request: Request, cluster: map<(string, string), Selector>)
    ensures var all := request.together + request.apart;
      w.AllAcceptable(request.together, cluster) && w.AllAcceptable(request.apart, cluster) <==>
        forall i :: 0 <= i < |all| && all[i].name != "" ==> RowGood(w, all[i], cluster)
  {
    hide w.Acceptable, RowGood;
    var all, n := request.together + request.apart, |request.together|;
    forall ask ensures w.Acceptable(ask, cluster) <==> ask.name == "" || RowGood(w, ask, cluster) {
      AcceptableIs(w, ask, cluster);
    }
    assert forall i :: 0 <= i < n ==> all[i] == request.together[i];
    assert forall i :: 0 <= i < |request.apart| ==> all[n + i] == request.apart[i];
  }

  /** No two named rows have one target. */
  predicate Apart(w: Workload, asks: seq<Ask>) {
    forall i, j :: 0 <= i < j < |asks| && asks[i].name != "" && asks[j].name != "" ==> !SameTarget(w, asks[i], asks[j])
  }

  /** No named row of the one list has a target that a named row of the other has. */
  predicate Across(w: Workload, a: seq<Ask>, b: seq<Ask>) {
    forall i, j :: 0 <= i < |a| && 0 <= j < |b| && a[i].name != "" && b[j].name != "" ==> !SameTarget(w, a[i], b[j])
  }

  lemma ApartBoth(w: Workload, a: seq<Ask>, b: seq<Ask>)
    ensures Apart(w, a + b) <==> Apart(w, a) && Apart(w, b) && Across(w, a, b)
  {
    hide SameTarget;
    var all, n := a + b, |a|;
    assert forall i :: 0 <= i < n ==> all[i] == a[i];
    assert forall i :: 0 <= i < |b| ==> all[n + i] == b[i];
    if Apart(w, all) {
      forall i, j | 0 <= i < j < |b| && b[i].name != "" && b[j].name != "" ensures !SameTarget(w, b[i], b[j]) {
        assert !SameTarget(w, all[n + i], all[n + j]);
      }
      forall i, j | 0 <= i < |a| && 0 <= j < |b| && a[i].name != "" && b[j].name != ""
        ensures !SameTarget(w, a[i], b[j]) {
        assert !SameTarget(w, all[i], all[n + j]);
      }
    }
  }

  lemma {:induction false} OnceIs(w: Workload, a: seq<Ask>, b: seq<Ask>)
    ensures w.Once(b, w.Named(a)) <==> Apart(w, b) && Across(w, a, b)
    ensures w.Once(b, {}) <==> Apart(w, b)
  {
    forall t ensures t in w.Named(a) <==> exists i :: 0 <= i < |a| && a[i].name != "" && w.Target(a[i]) == t {
      NamedIs(w, a, t);
    }
    hide w.Named;
  }

  lemma {:induction false} OnceAre(w: Workload, a: seq<Ask>, b: seq<Ask>)
    ensures w.Once(a, {}) && w.Once(b, w.Named(a)) <==> Apart(w, a + b)
  {
    hide w.Once, w.Named, Apart, Across;
    OnceIs(w, [], a);
    OnceIs(w, a, b);
    ApartBoth(w, a, b);
  }

  /** Of a record, the rows without a name or with another mode are passed over. */
  lemma {:induction false} ReadableIs(rows: seq<Rule>, r: Rule)
    ensures r in Readable(rows) <==> r in rows && r.name != "" && (r.mode == "prefer" || r.mode == "require")
  {
    if rows != [] {
      ReadableIs(rows[1..], r);
    }
  }

  // ---- what a request writes ----

  /** The term of a rule: against its own namespace, or the workload's where it names none. */
  predicate TermOf(x: Item, slot: Slot, mode: string, selector: Selector, ns: string) {
    if mode == "require" then slot == Required && x == Hard(Term(selector, ns))
    else slot == Preferred && x == Soft(100, Term(selector, ns))
  }

  /** Some row of these, with a selector, has the item. */
  ghost predicate OfRows(rows: seq<Rule>, x: Item, slot: Slot, ns: string) {
    exists r :: r in rows && r.selector != map[] && TermOf(x, slot, r.mode, r.selector, if r.ns != "" then r.ns else ns)
  }

  /** The rules write the item into that slot: replicas of the workload itself and rows to be
      apart from into anti-affinity, rows to be together with into affinity. */
  ghost predicate WrittenBy(rules: Rules, ns: string, own: Selector, kind: Kind, slot: Slot, x: Item) {
    match kind
    case PodAffinity => OfRows(rules.together, x, slot, ns)
    case PodAntiAffinity =>
      (rules.spread != "" && own != map[] && TermOf(x, slot, rules.spread, own, ns)) || OfRows(rules.apart, x, slot, ns)
  }

  lemma {:induction false} PutConcat(a: seq<Entry>, b: seq<Entry>, kind: Kind, slot: Slot)
    ensures Put(a + b, kind, slot) == Put(a, kind, slot) + Put(b, kind, slot)
  {
    if b == [] {
      assert a + b == a;
    } else {
      assert (a + b)[..|a + b| - 1] == a + b[..|b| - 1];
      PutConcat(a, b[..|b| - 1], kind, slot);
    }
  }

  function RowEntry(row: Rule, of: Kind, ns: string): seq<Entry> {
    if row.selector == map[] then []
    else [Entry(of, row.mode, Term(row.selector, if row.ns != "" then row.ns else ns))]
  }

  lemma OfRowsFirst(rows: seq<Rule>, x: Item, slot: Slot, ns: string)
    requires rows != []
    ensures OfRows(rows, x, slot, ns) <==> OfRows([rows[0]], x, slot, ns) || OfRows(rows[1..], x, slot, ns)
  {
    hide TermOf;
    assert rows == [rows[0]] + rows[1..];
  }

  lemma {:induction false} PutRow(row: Rule, of: Kind, ns: string, kind: Kind, slot: Slot, x: Item)
    ensures x in Put(RowEntry(row, of, ns), kind, slot) <==> kind == of && OfRows([row], x, slot, ns)
  {
    PutOne(RowEntry(row, of, ns), kind, slot);
    hide Put;
    assert row in [row];
  }

  lemma {:induction false} PutRows(rows: seq<Rule>, of: Kind, ns: string, kind: Kind, slot: Slot, x: Item)
    ensures x in Put(RowEntries(rows, of, ns), kind, slot) <==> kind == of && OfRows(rows, x, slot, ns)
  {
    hide OfRows, Put, RowEntry, RowEntries;
    if rows == [] {
      PutNone(of, ns, kind, slot, x);
    } else {
      PutRows(rows[1..], of, ns, kind, slot, x);
      PutRow(rows[0], of, ns, kind, slot, x);
      OfRowsFirst(rows, x, slot, ns);
      EntriesFirst(rows, of, ns);
      PutConcat(RowEntry(rows[0], of, ns), RowEntries(rows[1..], of, ns), kind, slot);
    }
  }

  lemma {:induction false} PutNone(of: Kind, ns: string, kind: Kind, slot: Slot, x: Item)
    ensures Put(RowEntries([], of, ns), kind, slot) == [] && !OfRows([], x, slot, ns)
  {
  }

  lemma {:induction false} EntriesFirst(rows: seq<Rule>, of: Kind, ns: string)
    requires rows != []
    ensures RowEntries(rows, of, ns) == RowEntry(rows[0], of, ns) + RowEntries(rows[1..], of, ns)
  {
  }

  lemma {:induction false} PutOne(es: seq<Entry>, kind: Kind, slot: Slot)
    requires |es| <= 1
    ensures Put(es, kind, slot) ==
      if |es| == 1 && es[0].kind == kind && SlotOf(es[0].mode) == slot then [ItemOf(es[0].mode, es[0].term)] else []
  {
    if |es| == 1 { assert es[..0] == []; }
  }

  lemma {:induction false} PutIs(rules: Rules, ns: string, own: Selector, kind: Kind, slot: Slot, x: Item)
    ensures x in Put(Entries(rules, ns, own), kind, slot) <==> WrittenBy(rules, ns, own, kind, slot, x)
  {
    hide OfRows;
    var spread: seq<Entry> :=
      if rules.spread != "" && own != map[] then [Entry(PodAntiAffinity, rules.spread, Term(own, ns))] else [];
    var together, apart := RowEntries(rules.together, PodAffinity, ns), RowEntries(rules.apart, PodAntiAffinity, ns);
    assert Entries(rules, ns, own) == spread + together + apart;
    PutConcat(spread + together, apart, kind, slot);
    PutConcat(spread, together, kind, slot);
    PutOne(spread, kind, slot);
    PutRows(rules.together, PodAffinity, ns, kind, slot, x);
    PutRows(rules.apart, PodAntiAffinity, ns, kind, slot, x);
  }

  /** After a request each slot holds exactly what it held and the record did not claim, and
      what the request writes there. */
  lemma SlotIs(b: Blocks, was: Rules, now: Rules, ns: string, own: Selector, kind: Kind, slot: Slot, x: Item)
    ensures x in Items(Rewritten(b, was, now, ns, own), kind, slot) <==>
      || (x in Items(b, kind, slot) && !WrittenBy(Read(was), ns, own, kind, slot, x))
      || WrittenBy(now, ns, own, kind, slot, x)
  {
    hide Put, Entries, Read, Rewritten, Without, WrittenBy;
    RewrittenItems(b, was, now, ns, own, kind, slot);
    WithoutHolds(Items(b, kind, slot), AsSet(Put(Entries(Read(was), ns, own), kind, slot)), x);
    PutIs(Read(was), ns, own, kind, slot, x);
    PutIs(now, ns, own, kind, slot, x);
  }

  /** An accepted row's rule: of the workload it names, in its own namespace where it names
      none, preferred where it says nothing, with the selector that workload has now. */
  predicate RuleIs(w: Workload, ask: Ask, cluster: map<(string, string), Selector>, r: Rule) {
    var ns := if ask.ns == "" then w.ns else ask.ns;
    && r.ns == ns && r.name == ask.name && r.mode == (if ask.mode == "" then "prefer" else ask.mode)
    && (ns, ask.name) in cluster && r.selector == cluster[(ns, ask.name)]
  }

  lemma {:induction false} RulesAre(w: Workload, asks: seq<Ask>, cluster: map<(string, string), Selector>, r: Rule)
    requires w.AllAcceptable(asks, cluster)
    ensures r in w.RulesOf(asks, cluster) <==> exists ask :: ask in asks && ask.name != "" && RuleIs(w, ask, cluster, r)
  {
    if asks != [] {
      var less, last := asks[..|asks| - 1], asks[|asks| - 1];
      assert asks == less + [last];
      RulesAre(w, less, cluster, r);
    }
  }

  /** Each row of a good request puts its term where it belongs: the workloads to be together
      with into affinity, those to be apart from into anti-affinity, required or preferred. */
  lemma RowIsWritten(w: Workload, b: Blocks, was: Rules, request: Request, cluster: map<(string, string), Selector>,
                     ask: Ask, selector: Selector, ns: string, mode: string)
    requires w.Good(request, cluster) && ask.name != "" && (ask in request.together || ask in request.apart)
    requires ns == (if ask.ns == "" then w.ns else ask.ns)
    requires mode == (if ask.mode == "" then "prefer" else ask.mode)
    requires (ns, ask.name) in cluster && selector == cluster[(ns, ask.name)]
    ensures var kind := if ask in request.together then PodAffinity else PodAntiAffinity;
      var after := Rewritten(b, was, w.Asked(request, cluster), w.ns, w.own);
      if mode == "require" then Hard(Term(selector, ns)) in Items(after, kind, Required)
      else mode == "prefer" && Soft(100, Term(selector, ns)) in Items(after, kind, Preferred)
  {
    hide Rewritten, Items, Read;
    var asks := if ask in request.together then request.together else request.apart;
    var kind := if ask in request.together then PodAffinity else PodAntiAffinity;
    var rule := Rule(ns, ask.name, mode, selector);
    var i :| 0 <= i < |asks| && asks[i] == ask;
    assert w.Acceptable(asks[i], cluster);
    RulesAre(w, asks, cluster, rule);
    var x := if mode == "require" then Hard(Term(selector, ns)) else Soft(100, Term(selector, ns));
    var slot := if mode == "require" then Required else Preferred;
    assert TermOf(x, slot, rule.mode, rule.selector, ns);
    SlotIs(b, was, w.Asked(request, cluster), w.ns, w.own, kind, slot, x);
  }

  /** And replicas asked to be spread are kept from each other by the workload's own selector. */
  lemma SpreadIsWritten(w: Workload, b: Blocks, was: Rules, request: Request, cluster: map<(string, string), Selector>)
    requires w.Good(request, cluster) && request.spread != ""
    ensures var after := Rewritten(b, was, w.Asked(request, cluster), w.ns, w.own);
      if request.spread == "require" then Hard(Term(w.own, w.ns)) in Items(after, PodAntiAffinity, Required)
      else request.spread == "prefer" && Soft(100, Term(w.own, w.ns)) in Items(after, PodAntiAffinity, Preferred)
  {
    hide Rewritten, Items, Read;
    var mode := request.spread;
    var x := if mode == "require" then Hard(Term(w.own, w.ns)) else Soft(100, Term(w.own, w.ns));
    var slot := if mode == "require" then Required else Preferred;
    SlotIs(b, was, w.Asked(request, cluster), w.ns, w.own, PodAntiAffinity, slot, x);
  }

  /** The record of a request reads back as it was written. */
  lemma ReadBack(w: Workload, request: Request, cluster: map<(string, string), Selector>)
    requires w.Good(request, cluster)
    ensures Read(w.Asked(request, cluster)) == w.Asked(request, cluster)
  {
  }

  /** The items the old record does not claim that equal one the first request writes. */
  predicate Mistaken(b: Blocks, was: Rules, first: Rules, ns: string, own: Selector, kind: Kind, slot: Slot) {
    exists x :: x in Items(b, kind, slot)
      && x !in Put(Entries(Read(was), ns, own), kind, slot) && x in Put(Entries(first, ns, own), kind, slot)
  }

  /** A second request undoes the first entirely, in every slot, exactly when no hand-made
      term there equals one that the first wrote: such a term goes with Homestead's own. The
      workloads named by the first may have changed or gone before the second. */
  lemma SecondReplacesFirst(w: Workload, b: Blocks, was: Rules, one: Request, two: Request,
                            before: map<(string, string), Selector>, after: map<(string, string), Selector>,
                            kind: Kind, slot: Slot)
    requires w.Good(one, before) && w.Good(two, after)
    ensures var first, second := w.Asked(one, before), w.Asked(two, after);
      Items(Rewritten(Rewritten(b, was, first, w.ns, w.own), first, second, w.ns, w.own), kind, slot)
        == Items(Rewritten(b, was, second, w.ns, w.own), kind, slot)
      <==> !Mistaken(b, was, first, w.ns, w.own, kind, slot)
  {
    ReadBack(w, one, before);
    Replaces(b, was, w.Asked(one, before), w.Asked(two, after), w.ns, w.own, kind, slot);
  }

  lemma Replaces(b: Blocks, was: Rules, first: Rules, second: Rules, ns: string, own: Selector, kind: Kind, slot: Slot)
    requires Read(first) == first
    ensures Items(Rewritten(Rewritten(b, was, first, ns, own), first, second, ns, own), kind, slot)
         == Items(Rewritten(b, was, second, ns, own), kind, slot)
        <==> !Mistaken(b, was, first, ns, own, kind, slot)
  {
    hide Put, Entries, Read, Rewritten, Without;
    var mid := Rewritten(b, was, first, ns, own);
    RewrittenItems(b, was, first, ns, own, kind, slot);
    RewrittenItems(b, was, second, ns, own, kind, slot);
    RewrittenItems(mid, first, second, ns, own, kind, slot);
    var kept := Without(Items(b, kind, slot), AsSet(Put(Entries(Read(was), ns, own), kind, slot)));
    var mine := Put(Entries(first, ns, own), kind, slot);
    var last := Put(Entries(second, ns, own), kind, slot);
    AfterBoth(kept, mine, last);
    forall x ensures x in kept <==> x in Items(b, kind, slot) && x !in Put(Entries(Read(was), ns, own), kind, slot) {
      WithoutHolds(Items(b, kind, slot), AsSet(Put(Entries(Read(was), ns, own), kind, slot)), x);
    }
  }

  lemma {:induction false} AfterBoth(kept: seq<Item>, mine: seq<Item>, last: seq<Item>)
    ensures Without(kept + mine, AsSet(mine)) + last == kept + last <==> forall x :: x in kept ==> x !in mine
  {
    hide Without;
    WithoutConcat(kept, mine, AsSet(mine));
    WithoutSame(kept, AsSet(mine));
    var left := Without(kept, AsSet(mine));
    AllGone(mine, AsSet(mine));
    if left + last == kept + last {
      assert |left| == |kept|;
      assert (left + last)[..|left|] == left && (kept + last)[..|kept|] == kept;
    }
  }

  lemma {:induction false} AllGone(items: seq<Item>, gone: set<Item>)
    requires forall x :: x in items ==> x in gone
    ensures Without(items, gone) == []
  {
    if items != [] { AllGone(items[1..], gone); }
  }

  /** Terms unlike any Homestead wrote before or writes now keep their content and order. */
  lemma {:induction false} HandMadeKept(b: Blocks, was: Rules, now: Rules, ns: string, own: Selector, kind: Kind,
    slot: Slot)
    ensures var ours :=
      AsSet(Put(Entries(Read(was), ns, own), kind, slot)) + AsSet(Put(Entries(now, ns, own), kind, slot));
      Without(Items(Rewritten(b, was, now, ns, own), kind, slot), ours) == Without(Items(b, kind, slot), ours)
  {
    hide Put, Entries, Read, Rewritten, Without;
    var a, c := AsSet(Put(Entries(Read(was), ns, own), kind, slot)), Put(Entries(now, ns, own), kind, slot);
    var ours := a + AsSet(c);
    RewrittenItems(b, was, now, ns, own, kind, slot);
    WithoutConcat(Without(Items(b, kind, slot), a), c, ours);
    AllGone(c, ours);
    WithoutTwice(Items(b, kind, slot), a, ours);
    assert a + ours == ours;
  }

  /** A term added by hand that equals one Homestead writes is lost at the next request. */
  lemma EqualTermIsLost()
    ensures var t := Term(map["app" := "dns"], "lab");
            var b: Blocks := map[PodAntiAffinity := map[Required := [Hard(t)]]];
            var rules := Rules("", [], [Rule("lab", "dns", "require", map["app" := "dns"])]);
            var own: Selector := map["app" := "web"];
            Items(Rewritten(Rewritten(b, EMPTY, rules, "lab", own), rules, EMPTY, "lab", own),
                  PodAntiAffinity, Required) == []
  {
    var t := Term(map["app" := "dns"], "lab");
    var b: Blocks := map[PodAntiAffinity := map[Required := [Hard(t)]]];
    var row := Rule("lab", "dns", "require", map["app" := "dns"]);
    var rules := Rules("", [], [row]);
    var own: Selector := map["app" := "web"];
    var e := Entry(PodAntiAffinity, "require", t);
    assert "app" in row.selector;
    assert Readable([row]) == [row] && RowEntries([row], PodAntiAffinity, "lab") == [e];
    assert Entries(rules, "lab", own) == [e] && Entries(EMPTY, "lab", own) == [];
    assert [e][..0] == [];
    assert Put([e], PodAntiAffinity, Required) == [Hard(t)];
    assert Put([], PodAntiAffinity, Required) == [];
    RewrittenItems(b, EMPTY, rules, "lab", own, PodAntiAffinity, Required);
    RewrittenItems(Rewritten(b, EMPTY, rules, "lab", own), rules, EMPTY, "lab", own, PodAntiAffinity, Required);
    AllGone([Hard(t), Hard(t)], {Hard(t)});
  }
}
