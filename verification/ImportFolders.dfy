/** Where each imported folder lands in its volume. */
module ImportFolders {

  /** A folder to import: its volume, the place asked for in it, blank for none, and the name
      its last path component makes. */
  datatype Item = Item(claim: string, folder: string, base: string)

  datatype Place = Place(claim: string, folder: string)

  function Digit(d: nat): char
    requires d < 10
  {
    "0123456789"[d]
  }

  function Decimal(n: nat): (r: string)
    ensures r != ""
  {
    if n < 10 then [Digit(n)] else Decimal(n / 10) + [Digit(n % 10)]
  }

  function Value(s: string): nat {
    if s == "" then 0 else 10 * Value(s[..|s| - 1]) + if '0' <= s[|s| - 1] <= '9' then (s[|s| - 1] - '0') as nat else 0
  }

  lemma DigitIs(d: nat)
    requires d < 10
    ensures '0' <= Digit(d) <= '9' && (Digit(d) - '0') as nat == d
  {
  }

  lemma {:induction false} DecimalReads(n: nat)
    ensures Value(Decimal(n)) == n
  {
    hide Digit;
    var s := Decimal(n);
    DigitIs(n % 10);
    if n < 10 {
      assert s[..0] == "";
    } else {
      DecimalReads(n / 10);
      assert s[..|s| - 1] == Decimal(n / 10);
    }
  }

  function Numbered(base: string, k: nat): string { if k < 2 then base else base + "-" + Decimal(k) }

  lemma NumberedApart(base: string, j: nat, k: nat)
    requires 1 <= j < k
    ensures Numbered(base, j) != Numbered(base, k)
  {
    DecimalReads(j);
    DecimalReads(k);
    var n := |base| + 1;
    assert Numbered(base, k)[n..] == Decimal(k);
    if j >= 2 { assert Numbered(base, j)[n..] == Decimal(j); }
  }

  /** The first of name, name-2, name-3 and so on not in use. */
  ghost predicate FirstFree(base: string, used: set<string>, name: string) {
    name !in used && exists k: nat :: IsFirst(base, used, k) && name == Numbered(base, k)
  }

  ghost predicate IsFirst(base: string, used: set<string>, k: nat) {
    1 <= k && forall j :: 1 <= j < k ==> Numbered(base, j) in used
  }

  lemma FirstFreeUnique(base: string, used: set<string>, a: string, b: string)
    requires FirstFree(base, used, a) && FirstFree(base, used, b)
    ensures a == b
  {
    hide Numbered;
  }

  /** `_folder_name`. */
  method FolderName(base: string, used: set<string>) returns (name: string)
    ensures FirstFree(base, used, name)
  {
    hide Numbered;
    name := Numbered(base, 1);
    var suffix := 2;
    ghost var left := used;
    while name in used
      invariant suffix >= 2 && name == Numbered(base, suffix - 1)
      invariant IsFirst(base, used, suffix - 1)
      invariant forall n :: n in left <==> n in used && Unmet(base, suffix - 1, n)
      decreases left
    {
      forall j | 1 <= j < suffix - 1 ensures Numbered(base, j) != name { NumberedApart(base, j, suffix - 1); }
      left := left - {name};
      name := Numbered(base, suffix);
      suffix := suffix + 1;
    }
  }

  /** Not one of the names before the k-th. */
  predicate Unmet(base: string, k: nat, name: string) { forall j :: 1 <= j < k ==> Numbered(base, j) != name }

  lemma {:induction false} FreeFrom(base: string, used: set<string>, k: nat, left: set<string>)
    requires IsFirst(base, used, k) && forall n :: n in left <==> n in used && Unmet(base, k, n)
    ensures exists name :: FirstFree(base, used, name)
    decreases left
  {
    hide Numbered;
    var name := Numbered(base, k);
    if name in used {
      forall j | 1 <= j < k ensures Numbered(base, j) != name { NumberedApart(base, j, k); }
      FreeFrom(base, used, k + 1, left - {name});
    } else {
      assert FirstFree(base, used, name);
    }
  }

  /** The name made up for a base when some are in use. */
  ghost function MadeUp(base: string, used: set<string>): (name: string)
    ensures FirstFree(base, used, name)
  {
    FreeFrom(base, used, 1, used);
    var name :| FirstFree(base, used, name);
    name
  }

  // ---- where the rows land ----

  function Sharing(items: seq<Item>, claim: string): nat {
    if items == [] then 0 else Sharing(items[..|items| - 1], claim) + if items[|items| - 1].claim == claim then 1 else 0
  }

  lemma {:induction false} SharedByTwo(items: seq<Item>, i: nat, j: nat)
    requires i < j < |items| && items[i].claim == items[j].claim
    ensures Sharing(items, items[i].claim) > 1
  {
    var less := items[..|items| - 1];
    if j < |items| - 1 {
      SharedByTwo(less, i, j);
    } else {
      SharedByOne(less, i);
    }
  }

  lemma {:induction false} SharedByOne(items: seq<Item>, i: nat)
    requires i < |items|
    ensures Sharing(items, items[i].claim) > 0
  {
    if i < |items| - 1 { SharedByOne(items[..|items| - 1], i); }
  }

  /** Row i asks for no place, and its volume takes more than its folder. */
  predicate NeedsName(items: seq<Item>, i: nat)
    requires i < |items|
  {
    items[i].folder == "" && Sharing(items, items[i].claim) > 1
  }

  /** What row i asks for, or what is made up for it: the first name for its last path
      component that no row before it has in the same volume; or the root of a volume
      nothing else goes to. */
  ghost function FolderOf(items: seq<Item>, i: nat): string
    requires i < |items|
    decreases i, 1
  {
    if items[i].folder != "" then items[i].folder
    else if NeedsName(items, i) then MadeUp(items[i].base, Taken(items, items[i].claim, i))
    else ""
  }

  /** The names the first n rows have in a volume. */
  ghost function Taken(items: seq<Item>, claim: string, n: nat): set<string>
    requires n <= |items|
    decreases n, 0
  {
    set i | 0 <= i < n && items[i].claim == claim &&
      (items[i].folder != "" || NeedsName(items, i)) :: FolderOf(items, i)
  }

  ghost function PlaceOf(items: seq<Item>, i: nat): Place
    requires i < |items|
  {
    Place(items[i].claim, FolderOf(items, i))
  }

  predicate Distinct(places: seq<Place>) { forall i, j :: 0 <= i < j < |places| ==> places[i] != places[j] }

  /** The names of `used` in a volume. */
  function Names(used: set<Place>, claim: string): set<string> { set p | p in used && p.claim == claim :: p.folder }

  /** `used` has the places named by the first n rows. */
  ghost predicate Uses(items: seq<Item>, used: set<Place>, n: nat)
    requires n <= |items|
  {
    forall claim :: Names(used, claim) == Taken(items, claim, n)
  }

  /** The places of the rows, in order. */
  method Places(items: seq<Item>) returns (places: seq<Place>)
    ensures |places| == |items| && forall i :: 0 <= i < |items| ==> places[i] == PlaceOf(items, i)
  {
    hide FolderOf, Taken, Names, FirstFree, NeedsName, Uses;
    places := [];
    var used: set<Place> := {};
    NoneUsed(items);
    for i := 0 to |items|
      invariant |places| == i && forall j :: 0 <= j < i ==> places[j] == PlaceOf(items, j)
      invariant Uses(items, used, i)
    {
      var item := items[i];
      Step(items, used, i);
      if item.folder != "" {
        places := places + [Place(item.claim, item.folder)];
        used := used + {Place(item.claim, item.folder)};
      } else if NeedsName(items, i) {
        var name := FolderName(item.base, Names(used, item.claim));
        FirstFreeUnique(item.base, Names(used, item.claim), name, FolderOf(items, i));
        places := places + [Place(item.claim, name)];
        used := used + {Place(item.claim, name)};
      } else {
        places := places + [Place(item.claim, "")];
      }
    }
  }

  lemma NoneUsed(items: seq<Item>)
    ensures Uses(items, {}, 0)
  {
  }

  /** One row on. */
  lemma Step(items: seq<Item>, used: set<Place>, i: nat)
    requires i < |items| && Uses(items, used, i)
    ensures var row := items[i];
      && (row.folder != "" ==> FolderOf(items, i) == row.folder)
      && (row.folder == "" && NeedsName(items, i) ==> FirstFree(row.base, Names(used, row.claim), FolderOf(items, i)))
      && (row.folder == "" && !NeedsName(items, i) ==> FolderOf(items, i) == "")
    ensures items[i].folder != "" || NeedsName(items, i) ==> Uses(items, used + {PlaceOf(items, i)}, i + 1)
    ensures !(items[i].folder != "" || NeedsName(items, i)) ==> Uses(items, used, i + 1)
  {
    hide FirstFree;
    assert Names(used, items[i].claim) == Taken(items, items[i].claim, i);
    forall claim ensures Taken(items, claim, i + 1) == Taken(items, claim, i) +
      if items[i].claim == claim && (items[i].folder != "" || NeedsName(items, i)) then {FolderOf(items, i)} else {}
    {
      TakenMore(items, claim, i);
    }
    forall claim ensures Names(used + {PlaceOf(items, i)}, claim) == Names(used, claim) +
      if items[i].claim == claim then {FolderOf(items, i)} else {}
    {
      NamesMore(used, PlaceOf(items, i), claim);
    }
  }

  lemma TakenMore(items: seq<Item>, claim: string, i: nat)
    requires i < |items|
    ensures Taken(items, claim, i + 1) == Taken(items, claim, i) +
      if items[i].claim == claim && (items[i].folder != "" || NeedsName(items, i)) then {FolderOf(items, i)} else {}
  {
    hide FolderOf, NeedsName;
  }

  lemma NamesMore(used: set<Place>, p: Place, claim: string)
    ensures Names(used + {p}, claim) == Names(used, claim) + if p.claim == claim then {p.folder} else {}
  {
  }

  /** A row that asks for no place and whose volume no other row goes to lands at its root. */
  lemma LoneAtRoot(items: seq<Item>, i: nat)
    requires i < |items| && items[i].folder == ""
    requires forall j :: 0 <= j < |items| && j != i ==> items[j].claim != items[i].claim
    ensures PlaceOf(items, i) == Place(items[i].claim, "")
  {
    SharedOnce(items, i);
  }

  lemma {:induction false} SharedOnce(items: seq<Item>, i: nat)
    requires i < |items| && forall j :: 0 <= j < |items| && j != i ==> items[j].claim != items[i].claim
    ensures Sharing(items, items[i].claim) == 1
  {
    var less := items[..|items| - 1];
    if i < |less| {
      SharedOnce(less, i);
    } else {
      SharedByNone(less, items[i].claim);
    }
  }

  lemma {:induction false} SharedByNone(items: seq<Item>, claim: string)
    requires forall j :: 0 <= j < |items| ==> items[j].claim != claim
    ensures Sharing(items, claim) == 0
  {
    if items != [] { SharedByNone(items[..|items| - 1], claim); }
  }

  /** One of the rows before row i has that folder in the same volume. */
  ghost predicate HasBefore(items: seq<Item>, i: nat, folder: string)
    requires i < |items|
  {
    exists j :: 0 <= j < i && items[j].claim == items[i].claim && PlaceOf(items, j).folder == folder
  }

  /** A row that asks for no place in a volume that others go to as well lands in the first of
      its name, name-2, name-3 and so on that no row before it has. */
  lemma NamedByFirstFree(items: seq<Item>, i: nat, other: nat) returns (k: nat)
    requires i < |items| && items[i].folder == "" && other < |items| && other != i &&
      items[other].claim == items[i].claim
    ensures k >= 1 && PlaceOf(items, i) == Place(items[i].claim, Numbered(items[i].base, k))
    ensures !HasBefore(items, i, Numbered(items[i].base, k))
    ensures forall j :: 1 <= j < k ==> HasBefore(items, i, Numbered(items[i].base, j))
  {
    hide Numbered, Taken;
    AllNamed(items, i, other);
    var used := Taken(items, items[i].claim, i);
    assert FirstFree(items[i].base, used, FolderOf(items, i));
    k :| IsFirst(items[i].base, used, k) && FolderOf(items, i) == Numbered(items[i].base, k);
    forall folder ensures folder in used <==> HasBefore(items, i, folder) { TakenIs(items, i, other, folder); }
  }

  lemma AllNamed(items: seq<Item>, i: nat, other: nat)
    requires i < |items| && other < |items| && other != i && items[other].claim == items[i].claim
    ensures items[i].folder == "" ==> NeedsName(items, i)
  {
    if i < other { SharedByTwo(items, i, other); } else { SharedByTwo(items, other, i); }
  }

  lemma {:induction false} TakenIs(items: seq<Item>, i: nat, other: nat, folder: string)
    requires i < |items| && other < |items| && other != i && items[other].claim == items[i].claim
    ensures folder in Taken(items, items[i].claim, i) <==> HasBefore(items, i, folder)
  {
    hide FolderOf, NeedsName;
    forall j | 0 <= j < i && items[j].claim == items[i].claim ensures items[j].folder != "" || NeedsName(items, j) {
      AllNamed(items, j, i);
    }
  }

  /** The numbers are decimal ones. */
  lemma NumbersRead()
    ensures Numbered("photos", 1) == "photos" && Numbered("photos", 2) == "photos-2" &&
      Numbered("photos", 10) == "photos-10"
    ensures Numbered("photos", 305) == "photos-305"
  {
    assert Decimal(1) == "1" && Decimal(3) == "3" && Decimal(30) == "30";
    assert Decimal(10) == "10" && Decimal(305) == "305" && Decimal(2) == "2";
  }

  // ---- apart ----

  /** Row i asks for a place that row j, before it in the same volume, asks for as well, or
      that was made up for row j. */
  ghost predicate Clashes(items: seq<Item>, j: nat, i: nat)
    requires j < |items| && i < |items|
  {
    && j < i && items[j].claim == items[i].claim && items[i].folder != ""
    && items[i].folder == (if items[j].folder != "" then items[j].folder
                           else MadeUp(items[j].base, Taken(items, items[j].claim, j)))
  }

  /** Two rows of one volume: it takes more than one folder, so each has a name. */
  lemma {:induction false} BothNamed(items: seq<Item>, j: nat, i: nat)
    requires j < i < |items| && items[j].claim == items[i].claim
    ensures items[j].folder == "" ==> NeedsName(items, j)
    ensures items[i].folder == "" ==> NeedsName(items, i)
    ensures FolderOf(items, j) in Taken(items, items[i].claim, i)
  {
    hide FolderOf;
    SharedByTwo(items, j, i);
  }

  /** A made-up name is not one that a row before has. */
  lemma SamePlaceClashes(items: seq<Item>, j: nat, i: nat)
    requires j < i < |items|
    ensures PlaceOf(items, j) == PlaceOf(items, i) <==> Clashes(items, j, i)
  {
    hide Taken, NeedsName;
    if items[j].claim == items[i].claim {
      BothNamed(items, j, i);
    }
  }

  /** Every folder lands in a place of its own exactly when no row asks for a place that a row
      before it asks for, or had made up for it. */
  lemma ApartExactlyWhen(items: seq<Item>, places: seq<Place>)
    requires |places| == |items| && forall i :: 0 <= i < |items| ==> places[i] == PlaceOf(items, i)
    ensures Distinct(places) <==> !exists i, j :: 0 <= i < |items| && 0 <= j < |items| && Clashes(items, j, i)
  {
    hide Clashes, PlaceOf;
    forall i, j | 0 <= j < i < |items| ensures places[j] == places[i] <==> Clashes(items, j, i) {
      SamePlaceClashes(items, j, i);
    }
    forall i, j | 0 <= i <= j < |items| ensures !Clashes(items, j, i) { ClashesBefore(items, j, i); }
  }

  lemma ClashesBefore(items: seq<Item>, j: nat, i: nat)
    requires i <= j < |items|
    ensures !Clashes(items, j, i)
  {
  }

  /** In particular when the rows that ask come first and ask for different places. */
  lemma AskedFirst(items: seq<Item>, places: seq<Place>, n: nat)
    requires |places| == |items| && forall i :: 0 <= i < |items| ==> places[i] == PlaceOf(items, i)
    requires n <= |items| && forall i :: 0 <= i < |items| ==> (i < n <==> items[i].folder != "")
    requires forall i, j :: 0 <= j < i < n ==> items[j].claim != items[i].claim || items[j].folder != items[i].folder
    ensures Distinct(places)
  {
    forall i, j | 0 <= i < |items| && 0 <= j < |items| ensures !Clashes(items, j, i) {
    }
    ApartExactlyWhen(items, places);
  }

  /** A name made up for one row is not kept from a later row that asks for it. */
  lemma MadeUpThenAsked()
    ensures var items := [Item("data", "", "config"), Item("data", "config", "other")];
      PlaceOf(items, 0) == PlaceOf(items, 1) == Place("data", "config")
  {
    var items := [Item("data", "", "config"), Item("data", "config", "other")];
    SharedByTwo(items, 0, 1);
    assert Taken(items, "data", 0) == {};
    assert IsFirst("config", {}, 1) && Numbered("config", 1) == "config";
    FirstFreeUnique("config", {}, "config", MadeUp("config", {}));
  }
}
