/**
 * How a tree reaches the walk: scans of directories, each with the units of its subdirectories
 * and of the rest of a large directory, or a whole subtree as the list of its scans.
 */
module Delivery {
  import opened Tree

  /** Why an entry is not recorded. */
  datatype SkipReason = Special | NonUtf8 | NotOpened | ReadFailed

  /** What a scan has to say of one entry. */
  datatype Item =
    | Recorded(entry: Entry)
    | Skipped(name: Name, reason: SkipReason)
    | Failed(of: Option<Name>)

  /** The rows of one or several scans. `arc` tells shared allocations apart. */
  datatype Rows = Rows(arc: nat, items: seq<Item>)

  /** One scan: its items are `rows.items[start..end]`, and `more` is set if it did not reach the end. */
  datatype Scanned = Scanned(rows: Rows, start: nat, end: nat, unreadable: bool, more: Option<nat>)

  datatype Unit =
    | Dir(scanned: Scanned, subdirs: seq<Unit>, rest: seq<Unit>)
    | Whole(scans: seq<Scanned>, bytes: nat, count: nat)

  predicate ScannedOk(s: Scanned) {
    s.start <= s.end <= |s.rows.items|
  }

  function ItemsOf(s: Scanned): seq<Item> {
    if ScannedOk(s) then s.rows.items[s.start..s.end] else []
  }

  predicate IsDirectory(item: Item) {
    item.Recorded? && item.entry.Directory?
  }

  /** The nodes that some items and the units of their directories stand for. */
  function Decode(items: seq<Item>, subdirs: seq<Unit>): seq<Node>
    decreases subdirs, |items|
  {
    if items == [] then []
    else if IsDirectory(items[0]) then
      if subdirs == [] then []
      else [Node(items[0].entry, Children(subdirs[0]))] + Decode(items[1..], subdirs[1..])
    else Single(items[0]) + Decode(items[1..], subdirs)
  }

  /** The node of an item that is no directory: none if the walk records nothing for it. */
  function Single(item: Item): seq<Node> {
    if item.Recorded? then [Node(item.entry, [])] else []
  }

  /** The nodes of the later scans of a large directory. */
  function DecodeRest(rest: seq<Unit>): seq<Node>
    decreases rest
  {
    if rest == [] then []
    else (if rest[0].Dir? then Decode(ItemsOf(rest[0].scanned), rest[0].subdirs) else []) + DecodeRest(rest[1..])
  }

  /** The children of the directory that a unit reads. */
  function Children(unit: Unit): seq<Node>
    decreases unit
  {
    match unit
    case Dir(scanned, subdirs, rest) => Decode(ItemsOf(scanned), subdirs) + DecodeRest(rest)
    case Whole(scans, _, _) => Folded(scans)
  }

  // ----- a whole subtree as the list of its scans

  datatype Parse = Parsed(nodes: seq<Node>, unread: seq<Scanned>) | Broken

  function Prepend(nodes: seq<Node>, p: Parse): Parse {
    if p.Broken? then Broken else Parsed(nodes + p.nodes, p.unread)
  }

  /** The directory whose first scan is the next unread one, and the scans left unread after it. */
  function ParseDirectory(scans: seq<Scanned>): (p: Parse)
    ensures p.Parsed? ==> |p.unread| < |scans|
    decreases |scans|, 0
  {
    if scans == [] then Broken
    else ParseItems(ItemsOf(scans[0]), scans[0].more.Some?, scans[1..])
  }

  /** The rest of a directory: items still to read in a scan, and a later scan if there is more. */
  function ParseItems(items: seq<Item>, more: bool, scans: seq<Scanned>): (p: Parse)
    ensures p.Parsed? ==> |p.unread| <= |scans|
    decreases |scans|, 1 + |items|
  {
    if items == [] then
      if more then ParseDirectory(scans) else Parsed([], scans)
    else if IsDirectory(items[0]) then
      var below := ParseDirectory(scans);
      if below.Broken? then Broken
      else Prepend([Node(items[0].entry, below.nodes)], ParseItems(items[1..], more, below.unread))
    else
      Prepend(Single(items[0]), ParseItems(items[1..], more, scans))
  }

  /** The scans hold one directory and everything below it, and nothing else. */
  predicate Folds(scans: seq<Scanned>) {
    var p := ParseDirectory(scans);
    p.Parsed? && p.unread == [] && forall i :: 0 <= i < |scans| ==> ScannedOk(scans[i])
  }

  function Folded(scans: seq<Scanned>): seq<Node> {
    if Folds(scans) then ParseDirectory(scans).nodes else []
  }

  // ----- what the walk relies on

  function Directories(items: seq<Item>): nat {
    if items == [] then 0 else (if IsDirectory(items[0]) then 1 else 0) + Directories(items[1..])
  }

  /** One unit for each directory among the items; one read as a whole fits a part with its row. */
  predicate ItemsOk(items: seq<Item>, subdirs: seq<Unit>, budget: nat)
    decreases subdirs, |items|
  {
    if items == [] then subdirs == []
    else if IsDirectory(items[0]) then
      && subdirs != []
      && UnitOk(subdirs[0], budget)
      && (subdirs[0].Whole? ==> Own(items[0].entry) + subdirs[0].bytes <= budget)
      && ItemsOk(items[1..], subdirs[1..], budget)
    else ItemsOk(items[1..], subdirs, budget)
  }

  /** Later scans are never one unit and have no rest of their own. */
  predicate RestOk(rest: seq<Unit>, budget: nat)
    decreases rest
  {
    rest == [] ||
    (&& rest[0].Dir? && rest[0].rest == []
     && ScannedOk(rest[0].scanned)
     && ItemsOk(ItemsOf(rest[0].scanned), rest[0].subdirs, budget)
     && RestOk(rest[1..], budget))
  }

  predicate UnitOk(unit: Unit, budget: nat)
    decreases unit
  {
    match unit
    case Dir(scanned, subdirs, rest) =>
      && ScannedOk(scanned)
      && ItemsOk(ItemsOf(scanned), subdirs, budget)
      && RestOk(rest, budget)
    case Whole(scans, bytes, count) =>
      && Folds(scans)
      && bytes == SizeAll(Folded(scans))
      && count == CountAll(Folded(scans))
  }

  // ----- what could not be read

  predicate NoneFailed(items: seq<Item>) {
    forall i :: 0 <= i < |items| ==> !items[i].Failed?
  }

  /** Nothing in the unit failed to be read. */
  predicate CleanUnit(unit: Unit)
    decreases unit
  {
    match unit
    case Dir(scanned, subdirs, rest) =>
      !scanned.unreadable && NoneFailed(ItemsOf(scanned)) && CleanUnits(subdirs) && CleanRest(rest)
    case Whole(_, _, _) => true
  }

  predicate CleanUnits(units: seq<Unit>)
    decreases units
  {
    units == [] || (CleanUnit(units[0]) && CleanUnits(units[1..]))
  }

  predicate CleanRest(rest: seq<Unit>)
    decreases rest
  {
    rest == [] ||
    (&& (rest[0].Dir? ==> NoneFailed(ItemsOf(rest[0].scanned)) && CleanUnits(rest[0].subdirs))
     && CleanRest(rest[1..]))
  }

  // ----- how much there is to read

  function UnitWork(unit: Unit): nat
    decreases unit
  {
    match unit
    case Dir(scanned, subdirs, rest) => 1 + |ItemsOf(scanned)| + UnitsWork(subdirs) + RestWork(rest)
    case Whole(_, _, _) => 1
  }

  function UnitsWork(units: seq<Unit>): nat
    decreases units
  {
    if units == [] then 0 else UnitWork(units[0]) + UnitsWork(units[1..])
  }

  function RestWork(rest: seq<Unit>): nat
    decreases rest
  {
    if rest == [] then 0
    else 1 + (if rest[0].Dir? then |ItemsOf(rest[0].scanned)| + UnitsWork(rest[0].subdirs) else 0) + RestWork(rest[1..])
  }

  // ----- how many items are visited

  /** The items that a walk of the unit comes to; those of a whole subtree are never visited. */
  function UnitVisits(unit: Unit): nat
    decreases unit
  {
    match unit
    case Dir(scanned, subdirs, rest) => |ItemsOf(scanned)| + UnitsVisits(subdirs) + RestVisits(rest)
    case Whole(_, _, _) => 0
  }

  function UnitsVisits(units: seq<Unit>): nat
    decreases units
  {
    if units == [] then 0 else UnitVisits(units[0]) + UnitsVisits(units[1..])
  }

  function RestVisits(rest: seq<Unit>): nat
    decreases rest
  {
    if rest == [] then 0
    else (if rest[0].Dir? then |ItemsOf(rest[0].scanned)| + UnitsVisits(rest[0].subdirs) else 0) + RestVisits(rest[1..])
  }

  // ----- the same directory, delivered differently

  /** A unit of `Dir`s all the way down whose scans say whether another one follows. */
  predicate Plain(unit: Unit)
    decreases unit
  {
    && unit.Dir?
    && ScannedOk(unit.scanned)
    && (unit.scanned.more.Some? <==> unit.rest != [])
    && Directories(ItemsOf(unit.scanned)) == |unit.subdirs|
    && PlainAll(unit.subdirs)
    && PlainRest(unit.rest)
  }

  predicate PlainAll(units: seq<Unit>)
    decreases units
  {
    units == [] || (Plain(units[0]) && PlainAll(units[1..]))
  }

  predicate PlainRest(rest: seq<Unit>)
    decreases rest
  {
    rest == [] ||
    (&& rest[0].Dir?
     && ScannedOk(rest[0].scanned)
     && (rest[0].scanned.more.Some? <==> rest[1..] != [])
     && Directories(ItemsOf(rest[0].scanned)) == |rest[0].subdirs|
     && PlainAll(rest[0].subdirs)
     && PlainRest(rest[1..]))
  }

  /** Nothing of the unit comes as a whole subtree: every directory is read scan by scan. */
  predicate Walked(unit: Unit)
    decreases unit
  {
    unit.Dir? && WalkedAll(unit.subdirs) && WalkedRest(unit.rest)
  }

  predicate WalkedAll(units: seq<Unit>)
    decreases units
  {
    forall i :: 0 <= i < |units| ==> Walked(units[i])
  }

  predicate WalkedRest(rest: seq<Unit>)
    decreases rest
  {
    forall i :: 0 <= i < |rest| ==> rest[i].Dir? && WalkedAll(rest[i].subdirs)
  }

  lemma {:induction false} PlainIsWalked(unit: Unit)
    requires Plain(unit)
    ensures Walked(unit)
    decreases unit
  {
    PlainAllWalked(unit.subdirs);
    PlainRestWalked(unit.rest);
  }

  lemma {:induction false} PlainAllWalked(units: seq<Unit>)
    requires PlainAll(units)
    ensures WalkedAll(units)
    decreases units
  {
    if units != [] {
      PlainIsWalked(units[0]);
      PlainAllWalked(units[1..]);
      assert forall i :: 1 <= i < |units| ==> units[i] == units[1..][i - 1];
    }
  }

  lemma {:induction false} PlainRestWalked(rest: seq<Unit>)
    requires PlainRest(rest)
    ensures WalkedRest(rest)
    decreases rest
  {
    if rest != [] {
      PlainAllWalked(rest[0].subdirs);
      PlainRestWalked(rest[1..]);
      assert forall i :: 1 <= i < |rest| ==> rest[i] == rest[1..][i - 1];
    }
  }

  /** The scans of a unit in the order the walk enters their directories. */
  function Flatten(unit: Unit): seq<Scanned>
    decreases unit
  {
    match unit
    case Dir(scanned, subdirs, rest) => [scanned] + FlattenAll(subdirs) + FlattenRest(rest)
    case Whole(scans, _, _) => scans
  }

  function FlattenAll(units: seq<Unit>): seq<Scanned>
    decreases units
  {
    if units == [] then [] else Flatten(units[0]) + FlattenAll(units[1..])
  }

  function FlattenRest(rest: seq<Unit>): seq<Scanned>
    decreases rest
  {
    if rest == [] then []
    else (if rest[0].Dir? then [rest[0].scanned] + FlattenAll(rest[0].subdirs) else []) + FlattenRest(rest[1..])
  }

  /** Reading the flattened scans back gives the subtree and leaves what follows unread. */
  lemma {:induction false} ParsesUnit(unit: Unit, after: seq<Scanned>)
    requires Plain(unit)
    ensures ParseDirectory(Flatten(unit) + after) == Parsed(Children(unit), after)
    decreases |Flatten(unit)|, 0
  {
    var tail := FlattenAll(unit.subdirs) + (FlattenRest(unit.rest) + after);
    assert Flatten(unit) + after == [unit.scanned] + tail;
    assert ([unit.scanned] + tail)[1..] == tail;
    ParsesItems(ItemsOf(unit.scanned), unit.subdirs, unit.rest, after);
  }

  lemma {:induction false} ParsesItems(items: seq<Item>, subdirs: seq<Unit>, rest: seq<Unit>, after: seq<Scanned>)
    requires Directories(items) == |subdirs| && PlainAll(subdirs) && PlainRest(rest)
    ensures ParseItems(items, rest != [], FlattenAll(subdirs) + (FlattenRest(rest) + after))
         == Parsed(Decode(items, subdirs) + DecodeRest(rest), after)
    decreases |FlattenAll(subdirs)| + |FlattenRest(rest)|, 1 + |items|
  {
    hide Children, Folded, ParseDirectory, Plain, PlainRest, ScannedOk, UnitOk;
    var later := FlattenRest(rest) + after;
    if items == [] {
      assert FlattenAll(subdirs) + later == later;
      assert Decode(items, subdirs) + DecodeRest(rest) == DecodeRest(rest);
      if rest == [] {
        assert later == after;
      } else {
        ParsesRest(rest, after);
      }
    } else if IsDirectory(items[0]) {
      var tail := FlattenAll(subdirs[1..]) + later;
      assert FlattenAll(subdirs) + later == Flatten(subdirs[0]) + tail;
      ParsesUnit(subdirs[0], tail);
      ParsesItems(items[1..], subdirs[1..], rest, after);
      ParsesDirectoryItem(items, subdirs, rest, Flatten(subdirs[0]) + tail, tail, after);
    } else {
      ParsesItems(items[1..], subdirs, rest, after);
      PlusAssociates(Single(items[0]), Decode(items[1..], subdirs), DecodeRest(rest));
    }
  }

  lemma ParsesDirectoryItem(items: seq<Item>, subdirs: seq<Unit>, rest: seq<Unit>, scans: seq<Scanned>, tail: seq<Scanned>, after: seq<Scanned>)
    requires items != [] && IsDirectory(items[0]) && subdirs != []
    requires ParseDirectory(scans) == Parsed(Children(subdirs[0]), tail)
    requires ParseItems(items[1..], rest != [], tail)
          == Parsed(Decode(items[1..], subdirs[1..]) + DecodeRest(rest), after)
    ensures ParseItems(items, rest != [], scans) == Parsed(Decode(items, subdirs) + DecodeRest(rest), after)
  {
    var node := [Node(items[0].entry, Children(subdirs[0]))];
    PlusAssociates(node, Decode(items[1..], subdirs[1..]), DecodeRest(rest));
    assert Decode(items, subdirs) == node + Decode(items[1..], subdirs[1..]);
    assert ParseItems(items, rest != [], scans) == Prepend(node, ParseItems(items[1..], rest != [], tail));
  }

  lemma {:induction false} ParsesRest(rest: seq<Unit>, after: seq<Scanned>)
    requires rest != [] && PlainRest(rest)
    ensures ParseDirectory(FlattenRest(rest) + after) == Parsed(DecodeRest(rest), after)
    decreases |FlattenRest(rest)|, 0
  {
    var tail := FlattenAll(rest[0].subdirs) + (FlattenRest(rest[1..]) + after);
    assert FlattenRest(rest) + after == [rest[0].scanned] + tail;
    assert ([rest[0].scanned] + tail)[1..] == tail;
    ParsesItems(ItemsOf(rest[0].scanned), rest[0].subdirs, rest[1..], after);
  }

  lemma {:induction false} FlattenedOk(unit: Unit)
    requires Plain(unit)
    ensures forall scanned <- Flatten(unit) :: ScannedOk(scanned)
    decreases unit
  {
    FlattenedAllOk(unit.subdirs);
    FlattenedRestOk(unit.rest);
  }

  lemma {:induction false} FlattenedAllOk(units: seq<Unit>)
    requires PlainAll(units)
    ensures forall scanned <- FlattenAll(units) :: ScannedOk(scanned)
    decreases units
  {
    if units != [] {
      FlattenedOk(units[0]);
      FlattenedAllOk(units[1..]);
    }
  }

  lemma {:induction false} FlattenedRestOk(rest: seq<Unit>)
    requires PlainRest(rest)
    ensures forall scanned <- FlattenRest(rest) :: ScannedOk(scanned)
    decreases rest
  {
    if rest != [] {
      FlattenedAllOk(rest[0].subdirs);
      FlattenedRestOk(rest[1..]);
    }
  }

  /** A subtree read as one unit holds what walking it as a directory gives. */
  lemma WholeIsDirectory(unit: Unit, bytes: nat, count: nat)
    requires Plain(unit)
    ensures Folds(Flatten(unit))
    ensures Children(Whole(Flatten(unit), bytes, count)) == Children(unit)
  {
    FlattenedOk(unit);
    ParsesUnit(unit, []);
    assert Flatten(unit) + [] == Flatten(unit);
    assert forall i :: 0 <= i < |Flatten(unit)| ==> ScannedOk(Flatten(unit)[i]);
  }

  lemma {:induction false} DecodePlus(a: seq<Item>, b: seq<Item>, left: seq<Unit>, right: seq<Unit>)
    requires Directories(a) == |left|
    ensures Decode(a + b, left + right) == Decode(a, left) + Decode(b, right)
    decreases |a|
  {
    if a == [] {
      assert a + b == b && left + right == right;
    } else {
      assert (a + b)[1..] == a[1..] + b;
      if IsDirectory(a[0]) {
        assert (left + right)[1..] == left[1..] + right;
        DecodePlus(a[1..], b, left[1..], right);
      } else {
        DecodePlus(a[1..], b, left, right);
        PlusAssociates(Single(a[0]), Decode(a[1..], left), Decode(b, right));
      }
    }
  }

  function RestItems(rest: seq<Unit>): seq<Item> {
    if rest == [] then [] else (if rest[0].Dir? then ItemsOf(rest[0].scanned) else []) + RestItems(rest[1..])
  }

  function RestSubdirs(rest: seq<Unit>): seq<Unit> {
    if rest == [] then [] else (if rest[0].Dir? then rest[0].subdirs else []) + RestSubdirs(rest[1..])
  }

  /** However a directory's items are spread over scans, its children are those of one long scan. */
  lemma {:induction false} ScansJoin(items: seq<Item>, subdirs: seq<Unit>, rest: seq<Unit>, budget: nat)
    requires ItemsOk(items, subdirs, budget) && RestOk(rest, budget)
    ensures Decode(items, subdirs) + DecodeRest(rest) == Decode(items + RestItems(rest), subdirs + RestSubdirs(rest))
    decreases |rest|
  {
    ItemsOkCounts(items, subdirs, budget);
    if rest == [] {
      assert items + RestItems(rest) == items && subdirs + RestSubdirs(rest) == subdirs;
      assert Decode(items, subdirs) + [] == Decode(items, subdirs);
    } else {
      ScansJoin(ItemsOf(rest[0].scanned), rest[0].subdirs, rest[1..], budget);
      DecodePlus(items, RestItems(rest), subdirs, RestSubdirs(rest));
    }
  }

  lemma {:induction false} ItemsOkCounts(items: seq<Item>, subdirs: seq<Unit>, budget: nat)
    requires ItemsOk(items, subdirs, budget)
    ensures Directories(items) == |subdirs|
    decreases |items|
  {
    if items != [] {
      ItemsOkCounts(items[1..], if IsDirectory(items[0]) then subdirs[1..] else subdirs, budget);
    }
  }

  /** Only what each subdirectory's unit holds counts, not how it was read. */
  lemma {:induction false} SubdirsSame(items: seq<Item>, left: seq<Unit>, right: seq<Unit>)
    requires |left| == |right| && forall i :: 0 <= i < |left| ==> Children(left[i]) == Children(right[i])
    ensures Decode(items, left) == Decode(items, right)
    decreases |items|
  {
    if items != [] {
      if IsDirectory(items[0]) && left != [] {
        SubdirsSame(items[1..], left[1..], right[1..]);
      } else {
        SubdirsSame(items[1..], left, right);
      }
    }
  }

  // ----- what is read is well-kinded

  lemma {:induction false} ItemsKinds(items: seq<Item>, more: bool, scans: seq<Scanned>)
    ensures var p := ParseItems(items, more, scans); p.Parsed? ==> Kinds(p.nodes)
    decreases |scans|, 1 + |items|
  {
    if items == [] {
      if more {
        DirectoryKinds(scans);
      }
    } else if IsDirectory(items[0]) {
      DirectoryKinds(scans);
      var below := ParseDirectory(scans);
      if below.Parsed? {
        ItemsKinds(items[1..], more, below.unread);
        var after := ParseItems(items[1..], more, below.unread);
        if after.Parsed? {
          OneKind(Node(items[0].entry, below.nodes));
          KindsPlus([Node(items[0].entry, below.nodes)], after.nodes);
        }
      }
    } else {
      ItemsKinds(items[1..], more, scans);
      var after := ParseItems(items[1..], more, scans);
      if after.Parsed? {
        SingleKind(items[0]);
        KindsPlus(Single(items[0]), after.nodes);
      }
    }
  }

  lemma {:induction false} DirectoryKinds(scans: seq<Scanned>)
    ensures var p := ParseDirectory(scans); p.Parsed? ==> Kinds(p.nodes)
    decreases |scans|, 0
  {
    if scans != [] {
      ItemsKinds(ItemsOf(scans[0]), scans[0].more.Some?, scans[1..]);
    }
  }

  lemma SingleKind(item: Item)
    ensures Kinds(Single(item))
  {
    if item.Recorded? {
      assert Single(item)[1..] == [];
    }
  }

  lemma {:induction false} DecodeKinds(items: seq<Item>, subdirs: seq<Unit>)
    ensures Kinds(Decode(items, subdirs))
    decreases subdirs, |items|
  {
    if items != [] {
      if IsDirectory(items[0]) {
        if subdirs != [] {
          ChildrenKinds(subdirs[0]);
          DecodeKinds(items[1..], subdirs[1..]);
          var node := Node(items[0].entry, Children(subdirs[0]));
          OneKind(node);
          KindsPlus([node], Decode(items[1..], subdirs[1..]));
        }
      } else {
        DecodeKinds(items[1..], subdirs);
        SingleKind(items[0]);
        KindsPlus(Single(items[0]), Decode(items[1..], subdirs));
      }
    }
  }

  lemma {:induction false} DecodeRestKinds(rest: seq<Unit>)
    ensures Kinds(DecodeRest(rest))
    decreases rest
  {
    if rest != [] {
      if rest[0].Dir? {
        DecodeKinds(ItemsOf(rest[0].scanned), rest[0].subdirs);
      }
      DecodeRestKinds(rest[1..]);
      KindsPlus(if rest[0].Dir? then Decode(ItemsOf(rest[0].scanned), rest[0].subdirs) else [], DecodeRest(rest[1..]));
    }
  }

  /** Only directories have children in what a unit reads. */
  lemma {:induction false} ChildrenKinds(unit: Unit)
    ensures Kinds(Children(unit))
    decreases unit
  {
    match unit
    case Dir(scanned, subdirs, rest) =>
      DecodeKinds(ItemsOf(scanned), subdirs);
      DecodeRestKinds(rest);
      KindsPlus(Decode(ItemsOf(scanned), subdirs), DecodeRest(rest));
    case Whole(scans, _, _) =>
      DirectoryKinds(scans);
  }
}
