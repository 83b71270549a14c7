/** The order in which the services of a Compose file are created. */
module Compose {

  /** One service of the file: its name and what it depends on, known here or not. */
  datatype Row = Row(name: string, after: seq<string>)

  /** Dependencies between the services of the file. */
  type Graph = map<string, seq<string>>

  ghost predicate Closed(g: Graph) { forall n, d :: n in g && d in g[n] ==> d in g }

  predicate Edge(g: Graph, n: string, d: string) { n in g && d in g && d in g[n] }

  predicate EdgeAt(g: Graph, p: seq<string>, i: nat)
    requires i < |p| - 1
  {
    Edge(g, p[i], p[i + 1])
  }

  /** Each service depends on the next. */
  ghost predicate Path(g: Graph, p: seq<string>) {
    && (forall i :: 0 <= i < |p| ==> p[i] in g)
    && (forall i :: 0 <= i < |p| - 1 ==> EdgeAt(g, p, i))
  }

  ghost predicate HasCycle(g: Graph) { exists p :: |p| >= 2 && Path(g, p) && p[0] == p[|p| - 1] }

  /** A walk that has come back to where it was before. */
  ghost predicate Circle(g: Graph, p: seq<string>) {
    |p| >= 2 && Path(g, p) && exists i :: 0 <= i < |p| - 1 && p[i] == p[|p| - 1]
  }

  lemma IsCycle(g: Graph, p: seq<string>)
    requires |p| >= 2 && Path(g, p) && p[0] == p[|p| - 1]
    ensures HasCycle(g)
  {
    hide Path;
  }

  lemma CircleIsCycle(g: Graph, p: seq<string>)
    requires Circle(g, p)
    ensures HasCycle(g)
  {
    hide Path, HasCycle;
    var i :| 0 <= i < |p| - 1 && p[i] == p[|p| - 1];
    PathFrom(g, p, i);
    IsCycle(g, p[i..]);
  }

  lemma PathFrom(g: Graph, p: seq<string>, i: nat)
    requires Path(g, p) && i <= |p|
    ensures Path(g, p[i..])
  {
    hide Edge;
    var q := p[i..];
    assert forall j :: 0 <= j < |q| ==> q[j] == p[i + j];
    forall j | 0 <= j < |q| - 1 ensures EdgeAt(g, q, j) {
      assert EdgeAt(g, p, i + j);
    }
  }

  predicate Distinct(s: seq<string>) { forall i, j :: 0 <= i < j < |s| ==> s[i] != s[j] }

  /** Every listed service comes after all it depends on. */
  ghost predicate Sorted(g: Graph, order: seq<string>) {
    forall i :: 0 <= i < |order| ==> order[i] in g && forall d :: d in g[order[i]] ==> d in order[..i]
  }

  /** An order that has every service after its dependencies leaves no room for a cycle. */
  lemma SortedIsAcyclic(g: Graph, order: seq<string>)
    requires Distinct(order) && Sorted(g, order) && forall n :: n in g ==> n in order
    ensures !HasCycle(g)
  {
    if p :| |p| >= 2 && Path(g, p) && p[0] == p[|p| - 1] {
      var i :| 0 <= i < |order| && order[i] == p[0];
      PathDescends(g, order, p, i);
    }
  }

  /** Along a path positions only go down. */
  lemma {:induction false} PathDescends(g: Graph, order: seq<string>, p: seq<string>, i: nat)
    requires Distinct(order) && Sorted(g, order) && |p| >= 2 && Path(g, p) && i < |order| && order[i] == p[0]
    ensures p[|p| - 1] in order[..i] && p[|p| - 1] != p[0]
    decreases |p|
  {
    assert EdgeAt(g, p, 0);
    assert p[1] in g[order[i]];
    var j :| 0 <= j < i && order[..i][j] == p[1];
    if |p| > 2 {
      PathFrom(g, p, 1);
      PathDescends(g, order, p[1..], j);
      var l :| 0 <= l < j && order[..j][l] == p[|p| - 1];
      assert order[..i][l] == p[|p| - 1];
    }
  }

  datatype Mark = Visiting | Done

  type Marks = map<string, Mark>

  /** What holds between two visits: listed is done, on the trail is being visited, every
      report goes round, and without a report the list so far is in order. */
  ghost predicate Good(g: Graph, order: seq<string>, state: Marks, circles: seq<seq<string>>, trail: seq<string>) {
    && Closed(g) && state.Keys <= g.Keys && Distinct(order) && Distinct(trail)
    && (forall n :: n in order <==> n in state && state[n].Done?)
    && (forall n :: n in trail <==> n in state && state[n].Visiting?)
    && (circles == [] ==> Sorted(g, order))
    && (forall c :: c in circles ==> Circle(g, c))
  }

  lemma Entered(g: Graph, order: seq<string>, state: Marks, circles: seq<seq<string>>, trail: seq<string>, name: string)
    requires Good(g, order, state, circles, trail) && name in g && name !in state
    ensures Good(g, order, state[name := Visiting], circles, trail + [name])
  {
    hide Sorted, Circle;
    var state' := state[name := Visiting];
    forall n ensures n in trail + [name] <==> n in state' && state'[n].Visiting? {
    }
  }

  lemma Finished(g: Graph, order: seq<string>, state: Marks, circles: seq<seq<string>>, trail: seq<string>,
    name: string)
    requires Good(g, order, state, circles, trail + [name]) && name in g
    requires circles == [] ==> forall d :: d in g[name] ==> d in order
    ensures Good(g, order + [name], state[name := Done], circles, trail)
  {
    hide Circle, Path, HasCycle;
    assert (trail + [name])[|trail|] == name;
    assert forall i :: 0 <= i < |trail| ==> (trail + [name])[i] == trail[i];
    assert name in trail + [name] && name !in trail && name !in order;
    var order' := order + [name];
    if circles == [] {
      forall i, d | 0 <= i < |order'| && d in g[order'[i]] ensures d in order'[..i] {
        assert order'[..i] == order[..i];
        assert i < |order| ==> order'[i] == order[i];
        assert order[..|order|] == order;
      }
    }
  }

  lemma Extended(g: Graph, here: seq<string>, name: string, d: string)
    requires Path(g, here) && here != [] && here[|here| - 1] == name && d in g && d in g[name]
    ensures Path(g, here + [d])
  {
    var p := here + [d];
    forall j | 0 <= j < |p| - 1 ensures EdgeAt(g, p, j) {
      assert j < |here| - 1 ==> EdgeAt(g, here, j);
    }
  }

  /** The depth-first walk, with the lists it grows. */
  class Walk {
    const g: Graph
    var order: seq<string>
    var state: Marks
    var circles: seq<seq<string>>

    constructor (g: Graph)
      ensures this.g == g && order == [] && state == map[] && circles == []
    {
      this.g := g;
      order, state, circles := [], map[], [];
    }

    method Visit(name: string, trail: seq<string>)
      requires Good(g, order, state, circles, trail) && Path(g, trail + [name])
      modifies this
      ensures Good(g, order, state, circles, trail)
      ensures old(order) <= order && old(circles) <= circles && old(state.Keys) <= state.Keys
      ensures name in order || circles != []
      ensures name in state && (name !in trail ==> name in order)
      decreases g.Keys - state.Keys
    {
      hide Circle, Sorted;
      assert (trail + [name])[|trail|] == name;
      if name in state && state[name].Done? {
        return;
      }
      if name in state && state[name].Visiting? {
        Closes(g, trail, name);
        circles := circles + [trail + [name]];
        return;
      }
      Entered(g, order, state, circles, trail, name);
      state := state[name := Visiting];
      var here := trail + [name];
      ghost var start := g.Keys - old(state.Keys);
      for i := 0 to |g[name]|
        invariant Good(g, order, state, circles, here) && name in state
        invariant old(order) <= order && old(circles) <= circles && old(state.Keys) <= state.Keys
        invariant circles == [] ==> forall j :: 0 <= j < i ==> g[name][j] in order
      {
        Extended(g, here, name, g[name][i]);
        assert name in start && name !in g.Keys - state.Keys && g.Keys - state.Keys <= start;
        Visit(g[name][i], here);
      }
      Finished(g, order, state, circles, trail, name);
      state := state[name := Done];
      order := order + [name];
    }
  }

  lemma Closes(g: Graph, trail: seq<string>, name: string)
    requires Path(g, trail + [name]) && name in trail
    ensures Circle(g, trail + [name])
  {
    var i :| 0 <= i < |trail| && trail[i] == name;
    assert (trail + [name])[i] == name;
  }

  /** The dependencies that name a service of the file; of rows with one name the last
      counts, as in a dictionary. */
  function GraphOf(rows: seq<Row>, names: set<string>): Graph {
    if rows == [] then map[]
    else
      var last := rows[|rows| - 1];
      GraphOf(rows[..|rows| - 1], names)[last.name := Known(last.after, names)]
  }

  function Known(after: seq<string>, names: set<string>): (r: seq<string>)
    ensures forall d :: d in r <==> d in after && d in names
  {
    if after == [] then []
    else if after[0] in names then [after[0]] + Known(after[1..], names)
    else Known(after[1..], names)
  }

  lemma {:induction false} GraphWithin(rows: seq<Row>, names: set<string>)
    ensures GraphOf(rows, names).Keys == NamesOf(rows)
    ensures forall n, d :: n in GraphOf(rows, names) && d in GraphOf(rows, names)[n] ==> d in names
  {
    if rows != [] {
      var less := rows[..|rows| - 1];
      GraphWithin(less, names);
      assert NamesOf(rows) == NamesOf(less) + {rows[|rows| - 1].name};
    }
  }

  lemma {:induction false} GraphKeys(rows: seq<Row>)
    ensures Closed(GraphOf(rows, NamesOf(rows))) && GraphOf(rows, NamesOf(rows)).Keys == NamesOf(rows)
  {
    GraphWithin(rows, NamesOf(rows));
  }

  function NamesOf(rows: seq<Row>): (names: set<string>)
    ensures forall n :: n in names <==> exists i :: 0 <= i < |rows| && rows[i].name == n
  {
    set i | 0 <= i < |rows| :: rows[i].name
  }

  // ---- what the rows say ----

  /** Row i is the one that counts for its name. */
  predicate Counts(rows: seq<Row>, i: int) {
    0 <= i < |rows| && forall j :: i < j < |rows| ==> rows[j].name != rows[i].name
  }

  /** The row that counts for a name of the file depends on d, which is one too. */
  ghost predicate Needs(rows: seq<Row>, name: string, d: string) {
    && (exists i :: Counts(rows, i) && rows[i].name == name && d in rows[i].after)
    && exists j :: 0 <= j < |rows| && rows[j].name == d
  }

  /** Row c[k] counts and depends on row c[k + 1], which does too. */
  predicate NamesNext(rows: seq<Row>, c: seq<nat>, k: nat)
    requires k < |c| - 1
  {
    Counts(rows, c[k]) && Counts(rows, c[k + 1]) && rows[c[k + 1]].name in rows[c[k]].after
  }

  /** Rows of which each depends on the next, and the last is the first again. */
  ghost predicate RowsCircle(rows: seq<Row>, c: seq<nat>) {
    |c| >= 2 && c[0] == c[|c| - 1] && forall k :: 0 <= k < |c| - 1 ==> NamesNext(rows, c, k)
  }

  ghost predicate GoesRound(rows: seq<Row>) { exists c :: RowsCircle(rows, c) }

  /** d comes before name. */
  predicate Before(order: seq<string>, d: string, name: string) {
    exists i, j :: 0 <= i < j < |order| && order[i] == d && order[j] == name
  }

  lemma {:induction false} SomeCounts(rows: seq<Row>, i: nat) returns (j: nat)
    requires i < |rows|
    ensures Counts(rows, j) && rows[j].name == rows[i].name
    decreases |rows| - i
  {
    if j' :| i < j' < |rows| && rows[j'].name == rows[i].name {
      j := SomeCounts(rows, j');
    } else {
      j := i;
    }
  }

  lemma {:induction false} GraphAt(rows: seq<Row>, names: set<string>, i: nat)
    requires Counts(rows, i)
    ensures rows[i].name in GraphOf(rows, names) && GraphOf(rows, names)[rows[i].name] == Known(rows[i].after, names)
  {
    var less := rows[..|rows| - 1];
    if i < |less| {
      assert forall j :: i < j < |less| ==> rows[j] == less[j];
      GraphAt(less, names, i);
    }
  }

  lemma {:induction false} EdgesAre(rows: seq<Row>, name: string, d: string)
    ensures var g := GraphOf(rows, NamesOf(rows)); (name in g && d in g[name]) <==> Needs(rows, name, d)
  {
    var g := GraphOf(rows, NamesOf(rows));
    GraphKeys(rows);
    hide GraphOf;
    if name in g {
      var i :| 0 <= i < |rows| && rows[i].name == name;
      var j := SomeCounts(rows, i);
      GraphAt(rows, NamesOf(rows), j);
    }
    forall i | Counts(rows, i) && rows[i].name == name && d in rows[i].after ensures name in g {
      GraphAt(rows, NamesOf(rows), i);
    }
    hide NamesOf;
    forall i, j | Counts(rows, i) && Counts(rows, j) && rows[i].name == rows[j].name
      ensures i == j { CountsOnce(rows, i, j); }
  }

  lemma NeededCounts(rows: seq<Row>, name: string, d: string) returns (i: nat, j: nat)
    requires Needs(rows, name, d)
    ensures Counts(rows, i) && rows[i].name == name && d in rows[i].after
    ensures Counts(rows, j) && rows[j].name == d
  {
    i :| Counts(rows, i) && rows[i].name == name && d in rows[i].after;
    j :| 0 <= j < |rows| && rows[j].name == d;
    j := SomeCounts(rows, j);
  }

  lemma CountsOnce(rows: seq<Row>, i: nat, j: nat)
    requires Counts(rows, i) && Counts(rows, j) && rows[i].name == rows[j].name
    ensures i == j
  {
  }

  lemma IsNeeded(rows: seq<Row>, i: nat, j: nat)
    requires Counts(rows, i) && Counts(rows, j) && rows[j].name in rows[i].after
    ensures Needs(rows, rows[i].name, rows[j].name)
  {
  }

  /** The row that counts for each name of a path. */
  lemma {:induction false} PathRows(rows: seq<Row>, p: seq<string>) returns (c: seq<nat>)
    requires Path(GraphOf(rows, NamesOf(rows)), p)
    ensures |c| == |p| && forall k :: 0 <= k < |c| ==> Counts(rows, c[k]) && rows[c[k]].name == p[k]
  {
    GraphKeys(rows);
    hide GraphOf, Counts, Edge;
    c := [];
    if p != [] {
      PathTo(GraphOf(rows, NamesOf(rows)), p);
      var less, last := p[..|p| - 1], p[|p| - 1];
      c := PathRows(rows, less);
      var i :| 0 <= i < |rows| && rows[i].name == last;
      i := SomeCounts(rows, i);
      c := c + [i];
    }
  }

  lemma PathTo(g: Graph, p: seq<string>)
    requires Path(g, p) && p != []
    ensures Path(g, p[..|p| - 1]) && p[|p| - 1] in g
  {
    hide Edge;
    var q := p[..|p| - 1];
    forall k | 0 <= k < |q| - 1 ensures EdgeAt(g, q, k) { assert EdgeAt(g, p, k); }
  }

  /** The dependencies go round exactly when some rows do. */
  lemma {:induction false} CycleIsRows(rows: seq<Row>)
    ensures HasCycle(GraphOf(rows, NamesOf(rows))) <==> GoesRound(rows)
  {
    hide GraphOf, NamesOf, Path, RowsCircle;
    var g := GraphOf(rows, NamesOf(rows));
    if HasCycle(g) {
      var p :| |p| >= 2 && Path(g, p) && p[0] == p[|p| - 1];
      CycleRows(rows, p);
    }
    if GoesRound(rows) {
      var c :| RowsCircle(rows, c);
      RowsCycle(rows, c);
    }
  }

  lemma {:induction false} EdgeNamesNext(rows: seq<Row>, p: seq<string>, c: seq<nat>, k: nat)
    requires k < |p| - 1 && |c| == |p| && EdgeAt(GraphOf(rows, NamesOf(rows)), p, k)
    requires Counts(rows, c[k]) && Counts(rows, c[k + 1]) && rows[c[k]].name == p[k] && rows[c[k + 1]].name == p[k + 1]
    ensures NamesNext(rows, c, k)
  {
    hide GraphOf, NamesOf;
    EdgesAre(rows, p[k], p[k + 1]);
    var i :| Counts(rows, i) && rows[i].name == p[k] && p[k + 1] in rows[i].after;
    CountsOnce(rows, i, c[k]);
  }

  lemma {:induction false} CycleRows(rows: seq<Row>, p: seq<string>)
    requires |p| >= 2 && Path(GraphOf(rows, NamesOf(rows)), p) && p[0] == p[|p| - 1]
    ensures GoesRound(rows)
  {
    hide GraphOf, NamesOf, Counts, EdgeAt, NamesNext;
    var c := PathRows(rows, p);
    forall k | 0 <= k < |c| - 1 ensures NamesNext(rows, c, k) { EdgeNamesNext(rows, p, c, k); }
    CountsOnce(rows, c[0], c[|c| - 1]);
    assert RowsCircle(rows, c);
  }

  lemma {:induction false} NextIsEdge(rows: seq<Row>, c: seq<nat>, p: seq<string>, k: nat)
    requires k < |c| - 1 && |p| == |c| && NamesNext(rows, c, k)
    requires p[k] == rows[c[k]].name && p[k + 1] == rows[c[k + 1]].name
    ensures EdgeAt(GraphOf(rows, NamesOf(rows)), p, k)
  {
    GraphKeys(rows);
    hide GraphOf, Needs;
    IsNeeded(rows, c[k], c[k + 1]);
    EdgesAre(rows, p[k], p[k + 1]);
  }

  lemma CircleWithin(rows: seq<Row>, c: seq<nat>)
    requires RowsCircle(rows, c)
    ensures |c| >= 2 && c[0] == c[|c| - 1] && forall k :: 0 <= k < |c| ==> c[k] < |rows|
  {
    forall k | 0 <= k < |c| ensures c[k] < |rows| {
      assert NamesNext(rows, c, if k < |c| - 1 then k else 0);
    }
  }

  function NamesAt(rows: seq<Row>, c: seq<nat>): (p: seq<string>)
    requires forall k :: 0 <= k < |c| ==> c[k] < |rows|
    ensures |p| == |c| && forall k :: 0 <= k < |c| ==> p[k] == rows[c[k]].name
  {
    seq(|c|, k requires 0 <= k < |c| => rows[c[k]].name)
  }

  lemma {:induction false} RowsPath(rows: seq<Row>, c: seq<nat>)
    requires |c| >= 2 && forall k :: 0 <= k < |c| ==> c[k] < |rows|
    requires forall k :: 0 <= k < |c| - 1 ==> NamesNext(rows, c, k)
    ensures Path(GraphOf(rows, NamesOf(rows)), NamesAt(rows, c))
  {
    hide GraphOf, NamesNext, EdgeAt, NamesAt;
    var g, p := GraphOf(rows, NamesOf(rows)), NamesAt(rows, c);
    GraphKeys(rows);
    forall k | 0 <= k < |p| - 1 ensures EdgeAt(g, p, k) { NextIsEdge(rows, c, p, k); }
    forall k | 0 <= k < |p| ensures p[k] in g {
      assert p[k] == rows[c[k]].name && p[k] in NamesOf(rows);
    }
  }

  lemma {:induction false} RowsCycle(rows: seq<Row>, c: seq<nat>)
    requires RowsCircle(rows, c)
    ensures HasCycle(GraphOf(rows, NamesOf(rows)))
  {
    CircleWithin(rows, c);
    hide GraphOf, NamesOf, NamesNext, Path, NamesAt;
    RowsPath(rows, c);
    var p := NamesAt(rows, c);
    assert p[|p| - 1] == p[0];
  }

  /** In a sorted order each service comes after all it needs. */
  lemma {:induction false} SortedIsBefore(rows: seq<Row>, order: seq<string>, name: string, d: string)
    requires Sorted(GraphOf(rows, NamesOf(rows)), order) && name in order && Needs(rows, name, d)
    ensures Before(order, d, name)
  {
    hide GraphOf, Needs;
    EdgesAre(rows, name, d);
    var j :| 0 <= j < |order| && order[j] == name;
    var i :| 0 <= i < j && order[..j][i] == d;
    assert order[i] == d;
  }

  ghost predicate NeedsNext(rows: seq<Row>, p: seq<string>, k: nat)
    requires k < |p| - 1
  {
    Needs(rows, p[k], p[k + 1])
  }

  /** A reported walk: each name needs the next by its own row, and the last is one before. */
  ghost predicate RowsWalk(rows: seq<Row>, p: seq<string>) {
    && |p| >= 2 && (forall k :: 0 <= k < |p| - 1 ==> NeedsNext(rows, p, k))
    && exists k :: 0 <= k < |p| - 1 && p[k] == p[|p| - 1]
  }

  lemma {:induction false} CircleIsWalk(rows: seq<Row>, p: seq<string>)
    requires Circle(GraphOf(rows, NamesOf(rows)), p)
    ensures RowsWalk(rows, p)
  {
    hide GraphOf, Needs;
    forall k | 0 <= k < |p| - 1 ensures NeedsNext(rows, p, k) {
      assert EdgeAt(GraphOf(rows, NamesOf(rows)), p, k);
      EdgesAre(rows, p[k], p[k + 1]);
    }
  }

  /** `_order`: every service once; a report exactly when some rows go round in their
      dependencies; without one, each service after all that its row depends on and the file
      has; and each row told what it needs that the file does not have. */
  method Order(rows: seq<Row>) returns (order: seq<string>, circles: seq<seq<string>>, missing: seq<set<string>>)
    ensures Distinct(order) && forall n :: n in order <==> n in NamesOf(rows)
    ensures circles != [] <==> GoesRound(rows)
    ensures forall p :: p in circles ==> RowsWalk(rows, p)
    ensures circles == [] ==> forall i, d :: Counts(rows, i) && d in rows[i].after && d in NamesOf(rows) ==>
      Before(order, d, rows[i].name)
    ensures |missing| == |rows|
    ensures forall i :: 0 <= i < |rows| ==> forall d :: d in missing[i] <==> d in rows[i].after && d !in NamesOf(rows)
  {
    hide Circle, HasCycle, Sorted, GraphOf, NamesOf, Counts, Before, GoesRound, RowsWalk;
    var names := NamesOf(rows);
    var g := GraphOf(rows, names);
    GraphKeys(rows);
    missing := [];
    for i := 0 to |rows|
      invariant |missing| == i
      invariant forall j :: 0 <= j < i ==> forall d :: d in missing[j] <==> d in rows[j].after && d !in names
    {
      missing := missing + [(set d | d in rows[i].after) - names];
    }
    var walk := new Walk(g);
    Nothing(g);
    for i := 0 to |rows|
      invariant Good(g, walk.order, walk.state, walk.circles, [])
      invariant forall j :: 0 <= j < i ==> rows[j].name in walk.order
    {
      assert [] + [rows[i].name] == [rows[i].name] && rows[i].name in names;
      walk.Visit(rows[i].name, []);
    }
    order, circles := walk.order, walk.circles;
    CycleIsRows(rows);
    forall p | p in circles ensures RowsWalk(rows, p) { CircleIsWalk(rows, p); }
    if circles == [] {
      SortedIsAcyclic(g, order);
      AllBefore(rows, order);
    } else {
      assert circles[0] in circles;
      CircleIsCycle(g, circles[0]);
    }
  }

  lemma {:induction false} AllBefore(rows: seq<Row>, order: seq<string>)
    requires Sorted(GraphOf(rows, NamesOf(rows)), order) && forall i :: 0 <= i < |rows| ==> rows[i].name in order
    ensures forall i, d :: Counts(rows, i) && d in rows[i].after && d in NamesOf(rows) ==>
      Before(order, d, rows[i].name)
  {
    hide Sorted, GraphOf;
    forall i, d | Counts(rows, i) && d in rows[i].after && d in NamesOf(rows) ensures Before(order, d, rows[i].name) {
      assert Needs(rows, rows[i].name, d);
      SortedIsBefore(rows, order, rows[i].name, d);
    }
  }

  lemma Nothing(g: Graph)
    requires Closed(g)
    ensures Good(g, [], map[], [], [])
  {
  }
}
