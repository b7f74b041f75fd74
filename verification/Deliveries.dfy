/** One tree has many deliveries: every tree has one, and what may differ between two changes nothing. */
module Deliveries {
  import opened Tree
  import opened Delivery

  // ----- a delivery for every tree

  function RecordedItems(nodes: seq<Node>): seq<Item> {
    seq(|nodes|, i requires 0 <= i < |nodes| => Recorded(nodes[i].entry))
  }

  /** The units of the directories among some nodes, each read in one scan. */
  function UnitsOf(nodes: seq<Node>): seq<Unit>
    decreases nodes, 0
  {
    if nodes == [] then []
    else (if nodes[0].entry.Directory? then [UnitOf(nodes[0].children)] else []) + UnitsOf(nodes[1..])
  }

  /** A directory with these children, read in one scan and everything below it likewise. */
  function UnitOf(nodes: seq<Node>): Unit
    decreases nodes, 1
  {
    Unit.Dir(Scanned(Rows(0, RecordedItems(nodes)), 0, |nodes|, false, None), UnitsOf(nodes), [])
  }

  /** Every tree whose files and links have nothing below them is delivered by some unit that the walk accepts. */
  lemma {:induction false} EveryTreeIsDelivered(nodes: seq<Node>, budget: nat)
    requires Kinds(nodes)
    ensures Children(UnitOf(nodes)) == nodes
    ensures UnitOk(UnitOf(nodes), budget) && Plain(UnitOf(nodes)) && CleanUnit(UnitOf(nodes))
    decreases nodes, 1
  {
    var unit := UnitOf(nodes);
    assert ItemsOf(unit.scanned) == RecordedItems(nodes);
    NodesAreDelivered(nodes, budget);
    assert Decode(RecordedItems(nodes), UnitsOf(nodes)) + [] == nodes;
  }

  lemma {:induction false} NodesAreDelivered(nodes: seq<Node>, budget: nat)
    requires Kinds(nodes)
    ensures Decode(RecordedItems(nodes), UnitsOf(nodes)) == nodes
    ensures ItemsOk(RecordedItems(nodes), UnitsOf(nodes), budget)
    ensures Directories(RecordedItems(nodes)) == |UnitsOf(nodes)| && PlainAll(UnitsOf(nodes)) && CleanUnits(UnitsOf(nodes))
    ensures NoneFailed(RecordedItems(nodes))
    decreases nodes, 0
  {
    hide UnitOf, UnitOk, Plain, CleanUnit, Children;
    if nodes != [] {
      var items := RecordedItems(nodes);
      assert items[1..] == RecordedItems(nodes[1..]);
      NodesAreDelivered(nodes[1..], budget);
      if nodes[0].entry.Directory? {
        EveryTreeIsDelivered(nodes[0].children, budget);
        assert UnitsOf(nodes)[1..] == UnitsOf(nodes[1..]);
      } else {
        assert [] + UnitsOf(nodes[1..]) == UnitsOf(nodes[1..]);
      }
      assert nodes == [nodes[0]] + nodes[1..];
    }
  }

  // ----- other deliveries of the same tree

  /** The items of a directory over all its scans. */
  function AllItems(unit: Unit): seq<Item>
    requires unit.Dir?
  {
    ItemsOf(unit.scanned) + RestItems(unit.rest)
  }

  function AllSubdirs(unit: Unit): seq<Unit>
    requires unit.Dir?
  {
    unit.subdirs + RestSubdirs(unit.rest)
  }

  lemma {:induction false} UnitIsSmaller(units: seq<Unit>, i: nat)
    requires i < |units|
    ensures UnitWork(units[i]) <= UnitsWork(units)
    decreases i
  {
    if i > 0 {
      UnitIsSmaller(units[1..], i - 1);
    }
  }

  lemma {:induction false} RestIsSmaller(rest: seq<Unit>, i: nat)
    requires i < |RestSubdirs(rest)|
    ensures UnitWork(RestSubdirs(rest)[i]) <= RestWork(rest)
    decreases |rest|
  {
    var first := if rest[0].Dir? then rest[0].subdirs else [];
    if i < |first| {
      UnitIsSmaller(first, i);
    } else {
      RestIsSmaller(rest[1..], i - |first|);
    }
  }

  lemma SubdirIsSmaller(unit: Unit, i: nat)
    requires unit.Dir? && i < |AllSubdirs(unit)|
    ensures UnitWork(AllSubdirs(unit)[i]) < UnitWork(unit)
  {
    if i < |unit.subdirs| {
      UnitIsSmaller(unit.subdirs, i);
    } else {
      RestIsSmaller(unit.rest, i - |unit.subdirs|);
    }
  }

  /**
   * Two deliveries that differ in one of these ways, anywhere in the unit and in as many places as may be: a directory
   * walked scan by scan in one is the whole of its flattened scans in the other, or its items are spread over other
   * scans.
   */
  ghost predicate Alike(left: Unit, right: Unit)
    decreases UnitWork(left)
  {
    || left == right
    || (left.Dir? && right.Whole? && Plain(left) && right.scans == Flatten(left))
    || (left.Whole? && right.Dir? && Plain(right) && left.scans == Flatten(right))
    || (&& left.Dir? && right.Dir?
        && AllItems(left) == AllItems(right) && |AllSubdirs(left)| == |AllSubdirs(right)|
        && forall i :: 0 <= i < |AllSubdirs(left)| ==>
             (SubdirIsSmaller(left, i); Alike(AllSubdirs(left)[i], AllSubdirs(right)[i])))
  }

  lemma {:induction false} ItemsAllOk(items: seq<Item>, subdirs: seq<Unit>, budget: nat, i: nat)
    requires ItemsOk(items, subdirs, budget) && i < |subdirs|
    ensures UnitOk(subdirs[i], budget)
    decreases |items|
  {
    if items != [] {
      if !IsDirectory(items[0]) {
        ItemsAllOk(items[1..], subdirs, budget, i);
      } else if i > 0 {
        ItemsAllOk(items[1..], subdirs[1..], budget, i - 1);
      }
    }
  }

  lemma {:induction false} RestAllOk(rest: seq<Unit>, budget: nat, i: nat)
    requires RestOk(rest, budget) && i < |RestSubdirs(rest)|
    ensures UnitOk(RestSubdirs(rest)[i], budget)
    decreases |rest|
  {
    if i < |rest[0].subdirs| {
      ItemsAllOk(ItemsOf(rest[0].scanned), rest[0].subdirs, budget, i);
    } else {
      RestAllOk(rest[1..], budget, i - |rest[0].subdirs|);
    }
  }

  lemma UnitParts(unit: Unit, budget: nat)
    requires unit.Dir? && UnitOk(unit, budget)
    ensures ItemsOk(ItemsOf(unit.scanned), unit.subdirs, budget) && RestOk(unit.rest, budget)
  {
  }

  lemma SubdirOk(unit: Unit, budget: nat, i: nat)
    requires unit.Dir? && UnitOk(unit, budget) && i < |AllSubdirs(unit)|
    ensures UnitOk(AllSubdirs(unit)[i], budget)
  {
    hide UnitOk, ItemsOk, RestOk;
    UnitParts(unit, budget);
    if i < |unit.subdirs| {
      ItemsAllOk(ItemsOf(unit.scanned), unit.subdirs, budget, i);
    } else {
      RestAllOk(unit.rest, budget, i - |unit.subdirs|);
    }
  }

  /** Such deliveries have the same children, so the walk cuts the same parts. */
  lemma {:induction false} AlikeDeliverTheSame(left: Unit, right: Unit, budget: nat)
    requires UnitOk(left, budget) && UnitOk(right, budget) && Alike(left, right)
    ensures Children(left) == Children(right)
    decreases UnitWork(left)
  {
    if left == right {
    } else if left.Dir? && right.Whole? {
      WholeIsDirectory(left, right.bytes, right.count);
    } else if left.Whole? {
      WholeIsDirectory(right, left.bytes, left.count);
    } else {
      ScansJoin(ItemsOf(left.scanned), left.subdirs, left.rest, budget);
      ScansJoin(ItemsOf(right.scanned), right.subdirs, right.rest, budget);
      forall i | 0 <= i < |AllSubdirs(left)|
        ensures Children(AllSubdirs(left)[i]) == Children(AllSubdirs(right)[i])
      {
        SubdirIsSmaller(left, i);
        SubdirOk(left, budget, i);
        SubdirOk(right, budget, i);
        AlikeDeliverTheSame(AllSubdirs(left)[i], AllSubdirs(right)[i], budget);
      }
      SubdirsSame(AllItems(left), AllSubdirs(left), AllSubdirs(right));
    }
  }

  /** Any number of such changes, one after the other. */
  lemma {:induction false} ManyChanges(units: seq<Unit>, budget: nat)
    requires units != [] && forall i :: 0 <= i < |units| ==> UnitOk(units[i], budget)
    requires forall i :: 0 <= i < |units| - 1 ==> Alike(units[i], units[i + 1])
    ensures Children(units[0]) == Children(units[|units| - 1])
    decreases |units|
  {
    if |units| > 1 {
      AlikeDeliverTheSame(units[0], units[1], budget);
      ManyChanges(units[1..], budget);
    }
  }
}
