/** Measuring the folders of an import against what its copies take.

    `du` counts a mapped folder again inside every mapped folder around it, while each copy
    leaves out what is mapped separately. The measurement deducts nested folders in place,
    row by row, so what it gives depends on the order of the rows. */
module Imports {
  import opened Options

  /** A file on the source host. */
  datatype File = File(path: string, size: nat)

  /** A folder asked for; `bytes` is unknown until measured. */
  datatype Row = Row(path: string, bytes: Option<nat>, gross: Option<nat>) {
    predicate Measured() { bytes.Some? }
  }

  predicate Under(path: string, root: string) { root + "/" <= path }

  lemma UnderIs(path: string, root: string)
    ensures Under(path, root) <==> |path| > |root| && path[..|root|] == root && path[|root|] == '/'
  {
    if |path| > |root| && path[..|root|] == root && path[|root|] == '/' {
      assert path == root + "/" + path[|root| + 1..];
    }
  }

  lemma UnderTransitive(f: string, inner: string, outer: string)
    requires Under(f, inner) && Under(inner, outer)
    ensures Under(f, outer)
  {
    UnderIs(f, inner);
    UnderIs(inner, outer);
    assert f[..|outer|] == inner[..|outer|];
    assert f[|outer|] == inner[|outer|];
    UnderIs(f, outer);
  }

  /** Two folders around one file are nested, or the same. */
  lemma UnderComparable(f: string, a: string, b: string)
    requires Under(f, a) && Under(f, b) && |a| <= |b|
    ensures a == b || Under(b, a)
  {
    UnderIs(f, a);
    UnderIs(f, b);
    if |a| < |b| {
      assert b[..|a|] == f[..|a|] && b[|a|] == f[|a|];
      UnderIs(b, a);
    }
  }

  predicate Distinct(rows: seq<Row>) { forall i, j :: 0 <= i < j < |rows| ==> rows[i].path != rows[j].path }

  predicate Inner(rows: seq<Row>, j: nat, i: nat)
    requires j < |rows| && i < |rows|
  {
    rows[j].Measured() && Under(rows[j].path, rows[i].path)
  }

  /** No measured folder lies between the two. */
  predicate Nearest(rows: seq<Row>, j: nat, i: nat)
    requires j < |rows| && i < |rows|
  {
    Inner(rows, j, i) && !exists m :: 0 <= m < |rows| && Inner(rows, j, m) && Inner(rows, m, i)
  }

  /** What is now recorded for the nearest folders inside row i, of the first k rows. */
  function Inside(rows: seq<Row>, i: nat, k: nat): nat
    requires i < |rows| && k <= |rows|
  {
    if k == 0 then 0
    else Inside(rows, i, k - 1) + if Nearest(rows, k - 1, i) then rows[k - 1].bytes.value else 0
  }

  /** Row i loses what is recorded inside it. */
  function Deducted(rows: seq<Row>, i: nat): seq<Row>
    requires i < |rows|
  {
    if !rows[i].Measured() then rows
    else
      var inside := Inside(rows, i, |rows|);
      var bytes := rows[i].bytes.value;
      if inside == 0 then rows
      else rows[i := rows[i].(gross := Some(bytes), bytes := Some(if bytes > inside then bytes - inside else 0))]
  }

  /** The rows after the first k were deducted, in turn. */
  function After(rows: seq<Row>, k: nat): (r: seq<Row>)
    requires k <= |rows|
    ensures |r| == |rows|
    ensures forall i :: 0 <= i < |rows| ==> r[i].path == rows[i].path && r[i].Measured() == rows[i].Measured()
    ensures forall i :: k <= i < |rows| ==> r[i] == rows[i]
  {
    if k == 0 then rows else Deducted(After(rows, k - 1), k - 1)
  }

  /** `_deduct_nested`. */
  method DeductNested(rows: array<Row>)
    requires Distinct(rows[..])
    modifies rows
    ensures rows[..] == After(old(rows[..]), rows.Length)
  {
    ghost var start := rows[..];
    for i := 0 to rows.Length
      invariant rows[..] == After(start, i)
    {
      if rows[i].Measured() {
        var inside := 0;
        for j := 0 to rows.Length
          invariant rows[..] == After(start, i)
          invariant inside == Inside(rows[..], i, j)
        {
          var nearest := Nearest(rows[..], j, i);
          if nearest {
            inside := inside + rows[j].bytes.value;
          }
        }
        var bytes := rows[i].bytes.value;
        ghost var before := rows[..];
        assert Deducted(before, i) == After(start, i + 1);
        if inside != 0 {
          rows[i] := rows[i].(gross := Some(bytes), bytes := Some(if bytes > inside then bytes - inside else 0));
        }
        assert rows[..] == Deducted(before, i);
      }
    }
    assert rows[..] == After(start, rows.Length);
  }

  // ---- what the folders hold ----

  predicate Cut(rows: seq<Row>, i: nat, f: string)
    requires i < |rows|
  {
    exists j :: 0 <= j < |rows| && Inner(rows, j, i) && Under(f, rows[j].path)
  }

  /** All that lies under a folder: what `du` says of it. */
  function Gross(files: seq<File>, root: string): nat {
    if files == [] then 0
    else (if Under(files[0].path, root) then files[0].size else 0) + Gross(files[1..], root)
  }

  /** What lies under row i and under no measured folder inside it. */
  function Net(rows: seq<Row>, files: seq<File>, i: nat): (r: nat)
    requires i < |rows|
    ensures r <= Gross(files, rows[i].path)
  {
    if files == [] then 0
    else
      Net(rows, files[1..], i) +
      if Under(files[0].path, rows[i].path) && !Cut(rows, i, files[0].path) then files[0].size else 0
  }

  predicate Fresh(rows: seq<Row>, files: seq<File>) {
    && Distinct(rows)
    && forall i :: 0 <= i < |rows| && rows[i].Measured() ==> rows[i].bytes.value == Gross(files, rows[i].path)
  }

  /** What `du` says of the nearest folders inside row i, of the first k rows. */
  function Nested(rows: seq<Row>, files: seq<File>, i: nat, k: nat): nat
    requires i < |rows| && k <= |rows|
  {
    if k == 0 then 0
    else Nested(rows, files, i, k - 1) + if Nearest(rows, k - 1, i) then Gross(files, rows[k - 1].path) else 0
  }

  /** The nearest folders inside row i that hold the file, of the first k rows. */
  function Holders(rows: seq<Row>, f: string, i: nat, k: nat): nat
    requires i < |rows| && k <= |rows|
  {
    if k == 0 then 0
    else Holders(rows, f, i, k - 1) + if Nearest(rows, k - 1, i) && Under(f, rows[k - 1].path) then 1 else 0
  }

  /** A folder inside row i that holds the file leads to a nearest one that does. */
  lemma {:induction false} NearestExists(rows: seq<Row>, f: string, i: nat, j: nat) returns (n: nat)
    requires i < |rows| && j < |rows| && Inner(rows, j, i) && Under(f, rows[j].path)
    ensures n < |rows| && Nearest(rows, n, i) && Under(f, rows[n].path)
    decreases |rows[j].path|
  {
    n := j;
    if !Nearest(rows, j, i) {
      var m :| 0 <= m < |rows| && Inner(rows, j, m) && Inner(rows, m, i);
      UnderTransitive(f, rows[j].path, rows[m].path);
      UnderIs(rows[j].path, rows[m].path);
      n := NearestExists(rows, f, i, m);
    }
  }

  lemma NearestUnique(rows: seq<Row>, f: string, i: nat, j: nat, k: nat)
    requires Distinct(rows) && i < |rows| && j < |rows| && k < |rows|
    requires Nearest(rows, j, i) && Nearest(rows, k, i) && Under(f, rows[j].path) && Under(f, rows[k].path)
    ensures j == k
  {
    if |rows[j].path| <= |rows[k].path| {
      UnderComparable(f, rows[j].path, rows[k].path);
    } else {
      UnderComparable(f, rows[k].path, rows[j].path);
    }
    assert !Inner(rows, k, j) && !Inner(rows, j, k);
  }

  lemma {:induction false} NoHolders(rows: seq<Row>, f: string, i: nat, k: nat)
    requires i < |rows| && k <= |rows|
    requires forall j :: 0 <= j < k ==> !(Nearest(rows, j, i) && Under(f, rows[j].path))
    ensures Holders(rows, f, i, k) == 0
  {
    if k > 0 { NoHolders(rows, f, i, k - 1); }
  }

  lemma {:induction false} OneHolder(rows: seq<Row>, f: string, i: nat, n: nat, k: nat)
    requires Distinct(rows) && i < |rows| && n < k <= |rows|
    requires Nearest(rows, n, i) && Under(f, rows[n].path)
    ensures Holders(rows, f, i, k) == 1
  {
    hide Nearest, Under;
    if k - 1 == n {
      forall j | 0 <= j < n ensures !(Nearest(rows, j, i) && Under(f, rows[j].path)) {
        if Nearest(rows, j, i) && Under(f, rows[j].path) { NearestUnique(rows, f, i, j, n); }
      }
      NoHolders(rows, f, i, n);
    } else {
      OneHolder(rows, f, i, n, k - 1);
      if Nearest(rows, k - 1, i) && Under(f, rows[k - 1].path) { NearestUnique(rows, f, i, k - 1, n); }
    }
  }

  /** A file cut from row i lies in exactly one of the nearest folders inside it. */
  lemma {:induction false} HoldersAre(rows: seq<Row>, f: string, i: nat)
    requires Distinct(rows) && i < |rows|
    ensures Holders(rows, f, i, |rows|) == if Cut(rows, i, f) then 1 else 0
  {
    if Cut(rows, i, f) {
      var j :| 0 <= j < |rows| && Inner(rows, j, i) && Under(f, rows[j].path);
      var n := NearestExists(rows, f, i, j);
      OneHolder(rows, f, i, n, |rows|);
    } else {
      NoHolders(rows, f, i, |rows|);
    }
  }

  lemma {:induction false} NestedStep(rows: seq<Row>, files: seq<File>, i: nat, k: nat)
    requires i < |rows| && k <= |rows| && files != []
    ensures Nested(rows, files, i, k)
         == Nested(rows, files[1..], i, k) + files[0].size * Holders(rows, files[0].path, i, k)
  {
    hide Nearest, Under;
    if k > 0 {
      NestedStep(rows, files, i, k - 1);
      var size, h := files[0].size, Holders(rows, files[0].path, i, k - 1);
      assert size * (h + 1) == size * h + size;
      if Nearest(rows, k - 1, i) { NearestMeasured(rows, k - 1, i); }
    }
  }

  lemma {:induction false} NestedNone(rows: seq<Row>, i: nat, k: nat)
    requires i < |rows| && k <= |rows|
    ensures Nested(rows, [], i, k) == 0
  {
    if k > 0 { NestedNone(rows, i, k - 1); }
  }

  lemma CutIsUnder(rows: seq<Row>, i: nat, f: string)
    requires i < |rows| && Cut(rows, i, f)
    ensures Under(f, rows[i].path)
  {
    var j :| 0 <= j < |rows| && Inner(rows, j, i) && Under(f, rows[j].path);
    UnderTransitive(f, rows[j].path, rows[i].path);
  }

  /** The nearest folders inside account for exactly what the row's own copy leaves out. */
  lemma {:induction false} GrossIsNetAndNested(rows: seq<Row>, files: seq<File>, i: nat)
    requires Distinct(rows) && i < |rows|
    ensures Gross(files, rows[i].path) == Net(rows, files, i) + Nested(rows, files, i, |rows|)
  {
    if files == [] {
      NestedNone(rows, i, |rows|);
    } else {
      GrossIsNetAndNested(rows, files[1..], i);
      var f := files[0].path;
      NestedStep(rows, files, i, |rows|);
      HoldersAre(rows, f, i);
      if Cut(rows, i, f) { CutIsUnder(rows, i, f); }
    }
  }

  // ---- what is left on the rows ----

  lemma {:induction false} NearestKept(rows: seq<Row>, k: nat, j: nat, i: nat)
    requires k <= |rows| && j < |rows| && i < |rows|
    ensures Nearest(After(rows, k), j, i) == Nearest(rows, j, i)
  {
    var s := After(rows, k);
    assert forall a, b :: 0 <= a < |rows| && 0 <= b < |rows| ==> Inner(s, a, b) == Inner(rows, a, b);
  }

  lemma {:induction false} NeverMore(rows: seq<Row>, k: nat, i: nat)
    requires k <= |rows| && i < |rows| && rows[i].Measured()
    ensures After(rows, k)[i].bytes.value <= rows[i].bytes.value
  {
    if k > 0 { NeverMore(rows, k - 1, i); }
  }

  /** A row is settled once it has had its turn. */
  lemma {:induction false} Settled(rows: seq<Row>, i: nat, k: nat)
    requires i < k <= |rows|
    ensures After(rows, k)[i] == After(rows, i + 1)[i]
  {
    if k > i + 1 { Settled(rows, i, k - 1); }
  }

  /** Summing what is recorded at row i's turn misses what nested rows already lost. */
  lemma {:induction false} InsideIs(rows: seq<Row>, files: seq<File>, i: nat, k: nat)
    requires Fresh(rows, files) && i < |rows| && k <= |rows|
    ensures Inside(After(rows, i), i, k) <= Nested(rows, files, i, k)
    ensures Inside(After(rows, i), i, k) == Nested(rows, files, i, k) <==>
      (forall j :: 0 <= j < k && Nearest(rows, j, i) ==> After(rows, i)[j].bytes == rows[j].bytes)
  {
    hide Under, Inner, After, Gross, Distinct;
    if k > 0 {
      InsideIs(rows, files, i, k - 1);
      NearestKept(rows, i, k - 1, i);
      if Nearest(rows, k - 1, i) {
        NearestMeasured(rows, k - 1, i);
        NeverMore(rows, i, k - 1);
      }
    }
  }

  lemma NearestMeasured(rows: seq<Row>, j: nat, i: nat)
    requires j < |rows| && i < |rows| && Nearest(rows, j, i)
    ensures rows[j].Measured()
  {
  }

  /** A row never ends below what its copy takes, and ends exactly there when no nearest
      folder inside it had lost bytes before its turn. */
  lemma {:induction false} LeftOnRow(rows: seq<Row>, files: seq<File>, i: nat)
    requires Fresh(rows, files) && i < |rows| && rows[i].Measured()
    ensures After(rows, |rows|)[i].bytes.value >= Net(rows, files, i)
    ensures After(rows, |rows|)[i].bytes.value == Net(rows, files, i) <==>
      (forall j :: 0 <= j < i && Nearest(rows, j, i) ==> After(rows, |rows|)[j].bytes == rows[j].bytes)
  {
    hide Under, Inner, Gross, Distinct, Nearest, Net, Inside;
    var s := After(rows, i);
    InsideIs(rows, files, i, |rows|);
    GrossIsNetAndNested(rows, files, i);
    Settled(rows, i, |rows|);
    forall j | 0 <= j < |rows| ensures s[j] == if j < i then After(rows, |rows|)[j] else rows[j] {
      if j < i { Settled(rows, j, i); Settled(rows, j, |rows|); }
    }
    assert After(rows, i + 1) == Deducted(s, i);
  }

  predicate Right(rows: seq<Row>, files: seq<File>, i: nat)
    requires i < |rows|
  {
    rows[i].Measured() ==> After(rows, |rows|)[i].bytes.value == Net(rows, files, i)
  }

  /** A nested folder listed before its parent has nothing nested in it that weighs. */
  predicate Harmless(rows: seq<Row>, files: seq<File>, j: nat, i: nat)
    requires j < |rows| && i < |rows|
  {
    j < i && rows[i].Measured() && Nearest(rows, j, i) ==> Net(rows, files, j) == Gross(files, rows[j].path)
  }

  lemma {:induction false} RightUpTo(rows: seq<Row>, files: seq<File>, i: nat)
    requires Fresh(rows, files) && i < |rows|
    requires forall a, b :: 0 <= a < |rows| && 0 <= b < |rows| ==> Harmless(rows, files, a, b)
    ensures Right(rows, files, i)
    decreases i
  {
    if rows[i].Measured() {
      LeftOnRow(rows, files, i);
      forall j | 0 <= j < i && Nearest(rows, j, i) ensures After(rows, |rows|)[j].bytes == rows[j].bytes {
        assert Harmless(rows, files, j, i);
        RightUpTo(rows, files, j);
      }
    }
  }

  /** Every row ends with what its copy takes exactly when no folder with weighing folders
      inside it is listed before its own parent. */
  lemma RightExactlyWhen(rows: seq<Row>, files: seq<File>)
    requires Fresh(rows, files)
    ensures (forall i :: 0 <= i < |rows| ==> Right(rows, files, i)) <==>
      (forall i, j :: 0 <= j < |rows| && 0 <= i < |rows| ==> Harmless(rows, files, j, i))
  {
    if forall a, b :: 0 <= a < |rows| && 0 <= b < |rows| ==> Harmless(rows, files, a, b) {
      forall i | 0 <= i < |rows| ensures Right(rows, files, i) { RightUpTo(rows, files, i); }
    }
    if forall i :: 0 <= i < |rows| ==> Right(rows, files, i) {
      forall i, j | 0 <= j < |rows| && 0 <= i < |rows| ensures Harmless(rows, files, j, i) {
        if j < i && rows[i].Measured() && Nearest(rows, j, i) {
          assert Right(rows, files, i) && Right(rows, files, j);
          LeftOnRow(rows, files, i);
          NearestMeasured(rows, j, i);
        }
      }
    }
  }

  /** Listing every folder before the folders inside it always measures right. */
  lemma OuterFirstIsRight(rows: seq<Row>, files: seq<File>, i: nat)
    requires Fresh(rows, files) && i < |rows|
    requires forall a, b :: 0 <= a < |rows| && 0 <= b < |rows| && Inner(rows, b, a) ==> a < b
    ensures Right(rows, files, i)
  {
    RightUpTo(rows, files, i);
  }

  const FILES := [File("/a/b/c/x", 4)]
  const INNER_FIRST := [Row("/a/b", Some(4), None), Row("/a", Some(4), None), Row("/a/b/c", Some(4), None)]

  lemma WhoIsInside()
    ensures forall j, i :: 0 <= j < 3 && 0 <= i < 3 ==>
      (Inner(INNER_FIRST, j, i) <==> (j == 0 && i == 1) || (j == 2 && i == 0) || (j == 2 && i == 1))
    ensures forall i :: 0 <= i < 3 ==> Under("/a/b/c/x", INNER_FIRST[i].path)
  {
    UnderIs("/a/b", "/a");
    UnderIs("/a/b/c", "/a/b");
    UnderIs("/a/b/c", "/a");
  }

  lemma InnerFirstTurns()
    ensures After(INNER_FIRST, 1) == INNER_FIRST[0 := Row("/a/b", Some(0), Some(4))]
    ensures After(INNER_FIRST, 2) == After(INNER_FIRST, 1)
    ensures After(INNER_FIRST, 3)[1] == After(INNER_FIRST, 2)[1]
  {
    hide Inner, Under;
    WhoIsInside();
    var one := INNER_FIRST[0 := Row("/a/b", Some(0), Some(4))];
    assert Nearest(INNER_FIRST, 2, 0) && !Nearest(INNER_FIRST, 0, 0) && !Nearest(INNER_FIRST, 1, 0);
    assert Inside(INNER_FIRST, 0, 1) == 0 && Inside(INNER_FIRST, 0, 2) == 0 && Inside(INNER_FIRST, 0, 3) == 4;
    assert After(INNER_FIRST, 1) == one;
    NearestKept(INNER_FIRST, 1, 0, 1);
    NearestKept(INNER_FIRST, 1, 1, 1);
    NearestKept(INNER_FIRST, 1, 2, 1);
    assert Inner(INNER_FIRST, 2, 0) && Inner(INNER_FIRST, 0, 1);
    assert Inside(one, 1, 1) == 0 && Inside(one, 1, 2) == 0 && Inside(one, 1, 3) == 0;
  }

  /** Inside first, the grandchild is counted on its parent and again on the outermost. */
  lemma InnerFirstIsWrong()
    ensures Fresh(INNER_FIRST, FILES)
    ensures After(INNER_FIRST, 3)[1].bytes == Some(4) && Net(INNER_FIRST, FILES, 1) == 0
  {
    InnerFirstTurns();
    WhoIsInside();
    hide Inner, Under, After;
    assert Gross(FILES[1..], "/a") == 0 && Gross(FILES[1..], "/a/b") == 0 && Gross(FILES[1..], "/a/b/c") == 0;
    assert Cut(INNER_FIRST, 1, "/a/b/c/x") by { assert Inner(INNER_FIRST, 0, 1); }
  }

  // ---- what is copied ----

  /** item[i..j] is one of the parts between the slashes. */
  predicate PartAt(item: string, i: int, j: int) {
    0 <= i <= j <= |item| && (i == 0 || item[i - 1] == '/') && (j == |item| || item[j] == '/')
  }

  predicate Climbs(item: string, i: int)
    requires 0 <= i <= |item| - 2
  {
    item[i] == '.' && item[i + 1] == '.' && PartAt(item, i, i + 2)
  }

  /** A subfolder asked to be left out, trimmed of white space and slashes; the folder itself
      and one that climbs are ignored. */
  predicate Usable(item: string) {
    item != "" && forall i :: 0 <= i <= |item| - 2 ==> !Climbs(item, i)
  }

  /** Ignored are the empty name and exactly those of which some part is "..". */
  lemma UsableExactlyWhen(item: string)
    ensures Usable(item) <==> item != "" && forall i, j | PartAt(item, i, j) :: item[i..j] != ".."
  {
    forall i | 0 <= i <= |item| - 2 && Climbs(item, i) ensures item[i..i + 2] == ".." {
    }
    forall i, j | PartAt(item, i, j) && item[i..j] == ".." ensures 0 <= i <= |item| - 2 && Climbs(item, i) {
      assert item[i] == item[i..j][0] && item[i + 1] == item[i..j][1];
    }
  }

  lemma PlainAndClimbing()
    ensures Usable("cache") && Usable("a..b/c") && !Usable("../etc") && !Usable("a/../b") && !Usable("")
  {
    assert Climbs("../etc", 0) && Climbs("a/../b", 2);
    assert "a..b/c"[0] == 'a' && "a..b/c"[3] == 'b';
  }

  predicate PatternOf(p: string, remote: string, requested: seq<string>, asked: seq<string>) {
    || (exists j :: 0 <= j < |requested| && Under(requested[j], remote) && p == requested[j][|remote|..])
    || (exists j :: 0 <= j < |asked| && Usable(asked[j]) && p == "/" + asked[j])
  }

  /** rsync leaves out what an anchored folder pattern matches, with all beneath it. */
  predicate LeftOut(f: string, remote: string, nested: set<string>)
    requires Under(f, remote)
  {
    exists p :: p in nested && Under(f[|remote|..], p)
  }

  predicate NotCopied(f: string, remote: string, requested: seq<string>, asked: seq<string>) {
    || (exists j :: 0 <= j < |requested| && Under(requested[j], remote) && Under(f, requested[j]))
    || (exists j :: 0 <= j < |asked| && Usable(asked[j]) && Under(f, remote + "/" + asked[j]))
  }

  lemma Anchored(f: string, remote: string, p: string)
    requires Under(f, remote)
    ensures Under(f[|remote|..], p) <==> Under(f, remote + p)
  {
    UnderIs(f, remote);
    var tail := f[|remote|..];
    assert f == remote + tail;
    assert remote + p + "/" == remote + (p + "/");
    if p + "/" <= tail {
      assert tail == (p + "/") + tail[|p| + 1..];
      assert f == remote + (p + "/") + tail[|p| + 1..];
    }
    if remote + p + "/" <= f {
      assert f[|remote|..][..|p| + 1] == f[..|remote| + |p| + 1][|remote|..];
    }
  }

  lemma PatternsSay(f: string, remote: string, requested: seq<string>, asked: seq<string>, nested: set<string>)
    requires Under(f, remote)
    requires forall p :: p in nested <==> PatternOf(p, remote, requested, asked)
    ensures LeftOut(f, remote, nested) <==> NotCopied(f, remote, requested, asked)
  {
    forall j | 0 <= j < |requested| && Under(requested[j], remote)
      ensures PatternOf(requested[j][|remote|..], remote, requested, asked)
      ensures Under(f[|remote|..], requested[j][|remote|..]) <==> Under(f, requested[j]) {
      UnderIs(requested[j], remote);
      assert remote + requested[j][|remote|..] == requested[j];
      Anchored(f, remote, requested[j][|remote|..]);
    }
    forall j | 0 <= j < |asked| && Usable(asked[j])
      ensures PatternOf("/" + asked[j], remote, requested, asked)
      ensures Under(f[|remote|..], "/" + asked[j]) <==> Under(f, remote + "/" + asked[j]) {
      assert remote + ("/" + asked[j]) == remote + "/" + asked[j];
      Anchored(f, remote, "/" + asked[j]);
    }
  }

  /** `_excludes`: the patterns for the copy of one folder. */
  method Excludes(remote: string, requested: seq<string>, asked: seq<string>) returns (nested: set<string>)
    ensures forall f :: Under(f, remote) ==> (LeftOut(f, remote, nested) <==> NotCopied(f, remote, requested, asked))
  {
    nested := {};
    for i := 0 to |requested|
      invariant forall p :: p in nested <==>
        exists j :: 0 <= j < i && Under(requested[j], remote) && p == requested[j][|remote|..]
    {
      if Under(requested[i], remote) {
        nested := nested + {requested[i][|remote|..]};
      }
    }
    ghost var mapped := nested;
    for i := 0 to |asked|
      invariant forall p :: p in nested <==>
        p in mapped || exists j :: 0 <= j < i && Usable(asked[j]) && p == "/" + asked[j]
    {
      if Usable(asked[i]) {
        nested := nested + {"/" + asked[i]};
      }
    }
    forall f | Under(f, remote) ensures LeftOut(f, remote, nested) <==> NotCopied(f, remote, requested, asked) {
      PatternsSay(f, remote, requested, asked, nested);
    }
  }

  /** The bytes one copy moves. */
  function CopiedBytes(files: seq<File>, remote: string, nested: set<string>): nat {
    if files == [] then 0
    else
      CopiedBytes(files[1..], remote, nested) +
      if Under(files[0].path, remote) && !LeftOut(files[0].path, remote, nested) then files[0].size else 0
  }

  /** The rows are the folders asked for, all measured; a scratch mount asks for none. */
  predicate Covers(rows: seq<Row>, requested: seq<string>) {
    && (forall i :: 0 <= i < |rows| ==> rows[i].Measured() && rows[i].path in requested)
    && (forall r :: r in requested && r != "" ==> exists i :: 0 <= i < |rows| && rows[i].path == r)
  }

  /** When the folders left out are mapped ones, the copy of row i moves its net bytes. */
  lemma {:induction false} CopyMovesNet(rows: seq<Row>, files: seq<File>, i: nat, asked: seq<string>,
    requested: seq<string>, nested: set<string>)
    requires Covers(rows, requested) && i < |rows|
    requires forall f :: Under(f, rows[i].path) ==>
      (LeftOut(f, rows[i].path, nested) <==> NotCopied(f, rows[i].path, requested, asked))
    requires forall j :: 0 <= j < |asked| && Usable(asked[j]) ==> rows[i].path + "/" + asked[j] in requested
    ensures CopiedBytes(files, rows[i].path, nested) == Net(rows, files, i)
  {
    if files != [] {
      CopyMovesNet(rows, files[1..], i, asked, requested, nested);
      var f := files[0].path;
      if Under(f, rows[i].path) {
        CutIsNotCopied(rows, i, f, requested, asked);
      }
    }
  }

  lemma CutIsNotCopied(rows: seq<Row>, i: nat, f: string, requested: seq<string>, asked: seq<string>)
    requires Covers(rows, requested) && i < |rows|
    requires forall j :: 0 <= j < |asked| && Usable(asked[j]) ==> rows[i].path + "/" + asked[j] in requested
    ensures Cut(rows, i, f) <==> NotCopied(f, rows[i].path, requested, asked)
  {
    hide Usable;
    if Cut(rows, i, f) {
      var j :| 0 <= j < |rows| && Inner(rows, j, i) && Under(f, rows[j].path);
      var k :| 0 <= k < |requested| && requested[k] == rows[j].path;
    }
    if NotCopied(f, rows[i].path, requested, asked) {
      if j :| 0 <= j < |requested| && Under(requested[j], rows[i].path) && Under(f, requested[j]) {
        UnderIs(requested[j], rows[i].path);
        assert requested[j] in requested && requested[j] != "";
        var k :| 0 <= k < |rows| && rows[k].path == requested[j];
        assert Inner(rows, k, i);
      }
    }
  }

  /** Row i is the one whose copy moves the file. */
  predicate Takes(rows: seq<Row>, i: nat, f: string)
    requires i < |rows|
  {
    Under(f, rows[i].path) && !Cut(rows, i, f)
  }

  /** A file under some mapped folder is moved by the copy of its deepest one and no other. */
  lemma MovedOnce(rows: seq<Row>, f: string, i: nat)
    requires Distinct(rows) && (forall j :: 0 <= j < |rows| ==> rows[j].Measured())
    requires i < |rows| && Under(f, rows[i].path)
    ensures exists k :: 0 <= k < |rows| && Takes(rows, k, f)
    ensures forall k, j :: 0 <= k < |rows| && 0 <= j < |rows| && Takes(rows, k, f) && Under(f, rows[j].path) ==>
      |rows[j].path| <= |rows[k].path|
    ensures forall k, j :: 0 <= k < |rows| && 0 <= j < |rows| && Takes(rows, k, f) && Takes(rows, j, f) ==> k == j
  {
    forall k, j | 0 <= k < |rows| && 0 <= j < |rows| && Takes(rows, k, f) && Under(f, rows[j].path)
      ensures |rows[j].path| <= |rows[k].path| && (j == k || Under(rows[k].path, rows[j].path))
    {
      if |rows[k].path| < |rows[j].path| {
        UnderComparable(f, rows[k].path, rows[j].path);
      } else {
        UnderComparable(f, rows[j].path, rows[k].path);
      }
    }
    forall k, j | 0 <= k < |rows| && 0 <= j < |rows| && Takes(rows, k, f) && Takes(rows, j, f) ensures k == j {
      assert Under(f, rows[j].path) && Under(f, rows[k].path);
      if k != j { assert Inner(rows, k, j); }
    }
    var k := Deepest(rows, f, i);
  }

  lemma {:induction false} Deepest(rows: seq<Row>, f: string, i: nat) returns (k: nat)
    requires (forall j :: 0 <= j < |rows| ==> rows[j].Measured()) && i < |rows| && Under(f, rows[i].path)
    ensures k < |rows| && Takes(rows, k, f)
    decreases |f| - |rows[i].path|
  {
    k := i;
    UnderIs(f, rows[i].path);
    if Cut(rows, i, f) {
      var j :| 0 <= j < |rows| && Inner(rows, j, i) && Under(f, rows[j].path);
      UnderIs(rows[j].path, rows[i].path);
      UnderIs(f, rows[j].path);
      k := Deepest(rows, f, j);
    }
  }
}
