/** From the disk to the walk: the scans of a directory and of all below it deliver its tree, in order of the names. */
module Disks {
  import opened Tree
  import opened Delivery
  import opened Order
  import opened Listings
  import opened Utf8
  import opened Windows
  import opened Scan
  import opened Scanning

  /**
   * A directory as scans find it: its listing and what is read of it, where its windows start, and the directories
   * among what is noted, in order.
   */
  datatype Dir = Dir(disk: Disk, answer: Answer, ahead: nat -> bool, starts: seq<nat>, subs: seq<Dir>)

  /** Everything that is noted of a directory, over all its windows. */
  function AllNoted(dir: Dir): seq<Item> {
    match dir.answer
    case NotReadable => []
    case Opened(failures) => FailedItems(failures) + NotedRange(dir.disk, dir.ahead, 0, |dir.disk.entries|)
  }

  /** Errors are skipped, the windows tile the listing, and there is one directory for each one noted. */
  ghost predicate DirOk(dir: Dir)
    decreases dir
  {
    && Complete(dir.disk) && !dir.disk.fail
    && Tiled(dir.disk.entries, dir.starts, |dir.disk.entries|) && dir.starts[0] == 0
    && |dir.subs| == Directories(AllNoted(dir))
    && forall i :: 0 <= i < |dir.subs| ==> DirOk(dir.subs[i])
  }

  // ----- the tree on the disk

  function TreeOf(dir: Dir): seq<Node>
    decreases dir, 1
  {
    Grow(AllNoted(dir), dir, 0)
  }

  /** The nodes of some items of a directory, its directories being those from number `from` on. */
  function Grow(items: seq<Item>, dir: Dir, from: nat): seq<Node>
    decreases dir, 0, |items|
  {
    if items == [] then []
    else if IsDirectory(items[0]) then
      if from < |dir.subs| then [Node(items[0].entry, TreeOf(dir.subs[from]))] + Grow(items[1..], dir, from + 1) else []
    else Single(items[0]) + Grow(items[1..], dir, from)
  }

  // ----- its delivery, window by window

  function ScanOf(items: seq<Item>, unreadable: bool, more: Option<nat>): Scanned {
    Scanned(Delivery.Rows(0, items), 0, |items|, unreadable, more)
  }

  /** What the scan of window `i` notes. */
  function NotedBy(dir: Dir, i: nat): seq<Item> {
    var n := |dir.disk.entries|;
    if i < |dir.starts| && dir.starts[i] <= EndOf(dir.starts, n, i) <= n then
      (if i == 0 && dir.answer.Opened? then FailedItems(dir.answer.failures) else [])
      + NotedRange(dir.disk, dir.ahead, dir.starts[i], EndOf(dir.starts, n, i))
    else []
  }

  function MoreBehind(dir: Dir, i: nat): Option<nat> {
    if i + 1 < |dir.starts| then Some(dir.starts[i + 1]) else None
  }

  /** The unit of a directory: its first window with the units of its directories, and the scans of its rest. */
  function UnitFor(dir: Dir): Unit
    decreases dir, 2
  {
    if dir.answer == NotReadable then Unit.Dir(ScanOf([], true, None), [], [])
    else
      var items := NotedBy(dir, 0);
      Unit.Dir(ScanOf(items, false, MoreBehind(dir, 0)), UnitsFor(dir, 0, Directories(items)), RestFor(dir, 1, Directories(items)))
  }

  /** The units of the directories from number `from` to number `to`. */
  function UnitsFor(dir: Dir, from: nat, to: nat): seq<Unit>
    decreases dir, 0
  {
    if from <= to <= |dir.subs| then seq(to - from, i requires 0 <= i < to - from => UnitFor(dir.subs[from + i])) else []
  }

  /** The later scans of a directory, from window `i` on. */
  function RestFor(dir: Dir, i: nat, from: nat): seq<Unit>
    decreases dir, 1, |dir.starts| - i
  {
    if i >= |dir.starts| then []
    else
      var items := NotedBy(dir, i);
      [Unit.Dir(ScanOf(items, false, MoreBehind(dir, i)), UnitsFor(dir, from, from + Directories(items)), [])]
      + RestFor(dir, i + 1, from + Directories(items))
  }

  /** The scan of window `i`, as the walk gets it. */
  function ScanAt(unit: Unit, i: nat): Option<Scanned> {
    if unit.Whole? then None
    else if i == 0 then Some(unit.scanned)
    else if i <= |unit.rest| && unit.rest[i - 1].Dir? then Some(unit.rest[i - 1].scanned)
    else None
  }

  lemma {:induction false} RestAt(dir: Dir, i: nat, from: nat, k: nat)
    requires i <= k < |dir.starts|
    ensures var rest := RestFor(dir, i, from);
            |rest| == |dir.starts| - i && rest[k - i].Dir? && rest[k - i].scanned == ScanOf(NotedBy(dir, k), false, MoreBehind(dir, k))
    decreases |dir.starts| - i
  {
    hide NotedBy, UnitsFor;
    var next := from + Directories(NotedBy(dir, i));
    if i < k {
      RestAt(dir, i + 1, next, k);
    } else if i + 1 < |dir.starts| {
      RestAt(dir, i + 1, next, i + 1);
    }
  }

  /** The scans of the unit are those that a scanner makes: their items, and where it says that the next window starts. */
  lemma ScansAreMade(dir: Dir, i: nat, items: seq<Item>, next: Option<nat>)
    requires DirOk(dir) && dir.answer.Opened? && i < |dir.starts|
    requires forall k :: 1 <= k < |dir.starts| ==> dir.starts[k] < |dir.disk.entries|
    requires if i == 0 then Notes(dir.disk, dir.ahead, Anew(dir.answer), items, dir.starts[1..], next)
             else Notes(dir.disk, dir.ahead, Work.From(dir.starts[i]), items, [], next)
    ensures ScanAt(UnitFor(dir), i) == Some(Scanned(Delivery.Rows(0, items), 0, |items|, false, next))
  {
    hide DirOk, Notes, NotedBy, MoreBehind, UnitFor, Tiled, ScanAt;
    StartsOk(dir);
    MadeItems(dir, i, items, next);
    MadeNext(dir, i, items, next);
    ScanIs(dir, i);
  }

  lemma ScanIs(dir: Dir, i: nat)
    requires dir.answer.Opened? && i < |dir.starts|
    ensures ScanAt(UnitFor(dir), i) == Some(ScanOf(NotedBy(dir, i), false, MoreBehind(dir, i)))
  {
    hide NotedBy, MoreBehind, UnitsFor;
    if i > 0 {
      RestAt(dir, 1, Directories(NotedBy(dir, 0)), i);
    }
  }

  lemma MadeNext(dir: Dir, i: nat, items: seq<Item>, next: Option<nat>)
    requires Tiled(dir.disk.entries, dir.starts, |dir.disk.entries|) && dir.starts[0] == 0 && !dir.disk.fail
    requires forall k :: 1 <= k < |dir.starts| ==> dir.starts[k] < |dir.disk.entries|
    requires dir.answer.Opened? && i < |dir.starts|
    requires if i == 0 then Notes(dir.disk, dir.ahead, Anew(dir.answer), items, dir.starts[1..], next)
             else Notes(dir.disk, dir.ahead, Work.From(dir.starts[i]), items, [], next)
    ensures next == MoreBehind(dir, i)
  {
    hide Notes, Tiled;
    assert [0] + dir.starts[1..] == dir.starts;
    NextIsAnnounced(dir.disk, dir.ahead, dir.starts[1..], i, items, next);
  }

  lemma StartsOk(dir: Dir)
    requires DirOk(dir)
    ensures Tiled(dir.disk.entries, dir.starts, |dir.disk.entries|) && dir.starts[0] == 0 && !dir.disk.fail
  {
  }

  lemma MadeItems(dir: Dir, i: nat, items: seq<Item>, next: Option<nat>)
    requires Tiled(dir.disk.entries, dir.starts, |dir.disk.entries|) && dir.starts[0] == 0 && !dir.disk.fail
    requires dir.answer.Opened? && i < |dir.starts|
    requires if i == 0 then Notes(dir.disk, dir.ahead, Anew(dir.answer), items, dir.starts[1..], next)
             else Notes(dir.disk, dir.ahead, Work.From(dir.starts[i]), items, [], next)
    ensures NotedBy(dir, i) == items
  {
    hide NotedRange, FailedItems, IsWindow;
    var n := |dir.disk.entries|;
    var end :| Reaches(dir.disk.entries, dir.starts[i], end, next)
            && items == (if i == 0 then FailedItems(dir.answer.failures) else []) + NotedRange(dir.disk, dir.ahead, dir.starts[i], end);
    assert IsWindow(dir.disk.entries, dir.starts[i], EndOf(dir.starts, n, i));
    WindowsAreUnique(dir.disk.entries, dir.starts[i], end, EndOf(dir.starts, n, i));
  }

  /** And a directory that cannot be read is the one scan that says so. */
  lemma UnreadableIsMade(dir: Dir, items: seq<Item>, rest: seq<nat>, next: Option<nat>)
    requires dir.answer.NotReadable? && Notes(dir.disk, dir.ahead, Anew(dir.answer), items, rest, next)
    ensures UnitFor(dir) == Unit.Dir(Scanned(Delivery.Rows(0, items), 0, |items|, true, next), [], [])
  {
  }

  // ----- the windows together

  lemma WindowLies(listing: seq<Listed>, starts: seq<nat>, i: nat)
    requires Tiled(listing, starts, |listing|) && i < |starts|
    ensures starts[i] <= EndOf(starts, |listing|, i) <= |listing|
  {
    assert IsWindow(listing, starts[i], EndOf(starts, |listing|, i));
  }

  lemma {:induction false} DirectoriesPlus(a: seq<Item>, b: seq<Item>)
    ensures Directories(a + b) == Directories(a) + Directories(b)
    decreases |a|
  {
    if a == [] {
      assert a + b == b;
    } else {
      assert (a + b)[1..] == a[1..] + b;
      DirectoriesPlus(a[1..], b);
    }
  }

  /** The items of the windows from `i` on. */
  function From(dir: Dir, i: nat): seq<Item>
    requires i < |dir.starts| && dir.starts[i] <= |dir.disk.entries|
  {
    NotedRange(dir.disk, dir.ahead, dir.starts[i], |dir.disk.entries|)
  }

  lemma WindowThenRest(dir: Dir, i: nat)
    requires Tiled(dir.disk.entries, dir.starts, |dir.disk.entries|) && !dir.disk.fail && i < |dir.starts|
    ensures dir.starts[i] <= |dir.disk.entries|
    ensures i + 1 < |dir.starts| ==> dir.starts[i + 1] <= |dir.disk.entries|
    ensures var noted := NotedRange(dir.disk, dir.ahead, dir.starts[i], |dir.disk.entries|);
            NotedBy(dir, i) + (if i + 1 < |dir.starts| then From(dir, i + 1) else [])
            == (if i == 0 && dir.answer.Opened? then FailedItems(dir.answer.failures) else []) + noted
  {
    hide Noted, NotedRange, FailedItems;
    var n := |dir.disk.entries|;
    WindowLies(dir.disk.entries, dir.starts, i);
    var first := if i == 0 && dir.answer.Opened? then FailedItems(dir.answer.failures) else [];
    if i + 1 < |dir.starts| {
      WindowLies(dir.disk.entries, dir.starts, i + 1);
      NotedPlus(dir.disk, dir.ahead, dir.starts[i], dir.starts[i + 1], n);
      PlusAssociates(first, NotedRange(dir.disk, dir.ahead, dir.starts[i], dir.starts[i + 1]), From(dir, i + 1));
    } else {
      assert NotedBy(dir, i) + [] == NotedBy(dir, i);
    }
  }

  lemma UnitsJoin(dir: Dir, from: nat, middle: nat, to: nat)
    requires from <= middle <= to <= |dir.subs|
    ensures UnitsFor(dir, from, middle) + UnitsFor(dir, middle, to) == UnitsFor(dir, from, to)
  {
    hide UnitFor;
  }

  /** The later scans hold what the windows note, with the units of their directories. */
  lemma {:induction false} RestHolds(dir: Dir, i: nat, from: nat)
    requires Tiled(dir.disk.entries, dir.starts, |dir.disk.entries|) && !dir.disk.fail && 0 < i < |dir.starts|
    requires dir.starts[i] <= |dir.disk.entries| && from + Directories(From(dir, i)) == |dir.subs|
    ensures RestItems(RestFor(dir, i, from)) == From(dir, i)
    ensures RestSubdirs(RestFor(dir, i, from)) == UnitsFor(dir, from, |dir.subs|)
    decreases |dir.starts| - i
  {
    hide NotedRange, Noted, UnitFor, NotedBy, Tiled;
    WindowThenRest(dir, i);
    var items := NotedBy(dir, i);
    var rest := RestFor(dir, i, from);
    var middle := from + Directories(items);
    assert ItemsOf(rest[0].scanned) == items;
    assert rest[1..] == RestFor(dir, i + 1, middle);
    assert items + (if i + 1 < |dir.starts| then From(dir, i + 1) else []) == From(dir, i) by {
      assert [] + From(dir, i) == From(dir, i);
    }
    if i + 1 < |dir.starts| {
      DirectoriesPlus(items, From(dir, i + 1));
      RestHolds(dir, i + 1, middle);
      UnitsJoin(dir, from, middle, |dir.subs|);
    } else {
      assert items + [] == items;
      assert UnitsFor(dir, from, |dir.subs|) + [] == UnitsFor(dir, from, |dir.subs|);
    }
  }

  /** All items of the unit's scans, and all units of its directories. */
  lemma UnitHolds(dir: Dir)
    requires DirOk(dir) && dir.answer.Opened?
    ensures var items, n := NotedBy(dir, 0), Directories(NotedBy(dir, 0));
            && n <= |dir.subs|
            && items + RestItems(RestFor(dir, 1, n)) == AllNoted(dir)
            && UnitsFor(dir, 0, n) + RestSubdirs(RestFor(dir, 1, n)) == UnitsFor(dir, 0, |dir.subs|)
  {
    hide NotedRange, Noted, UnitFor, NotedBy, Complete;
    WindowThenRest(dir, 0);
    var items, n := NotedBy(dir, 0), Directories(NotedBy(dir, 0));
    if |dir.starts| > 1 {
      DirectoriesPlus(items, From(dir, 1));
      hide Tiled;
      RestHolds(dir, 1, n);
      UnitsJoin(dir, 0, n, |dir.subs|);
    } else {
      assert items + [] == items;
      assert UnitsFor(dir, 0, n) + [] == UnitsFor(dir, 0, n);
    }
  }

  // ----- what is delivered

  lemma {:induction false} UnitsFit(items: seq<Item>, units: seq<Unit>, budget: nat)
    requires Directories(items) == |units| && forall i :: 0 <= i < |units| ==> UnitOk(units[i], budget) && units[i].Dir?
    ensures ItemsOk(items, units, budget)
    decreases |items|
  {
    if items != [] {
      UnitsFit(items[1..], if IsDirectory(items[0]) then units[1..] else units, budget);
    }
  }

  lemma {:induction false} AllPlain(units: seq<Unit>)
    requires forall i :: 0 <= i < |units| ==> Plain(units[i])
    ensures PlainAll(units)
    decreases |units|
  {
    if units != [] {
      AllPlain(units[1..]);
    }
  }

  /** Each directory below is delivered as it should be. */
  ghost predicate SubsDelivered(dir: Dir, budget: nat) {
    forall i :: 0 <= i < |dir.subs| ==>
      var unit := UnitFor(dir.subs[i]);
      UnitOk(unit, budget) && Plain(unit) && Children(unit) == TreeOf(dir.subs[i])
  }

  lemma SomeUnits(dir: Dir, from: nat, to: nat, items: seq<Item>, budget: nat)
    requires SubsDelivered(dir, budget) && from <= to <= |dir.subs| && Directories(items) == to - from
    ensures ItemsOk(items, UnitsFor(dir, from, to), budget) && PlainAll(UnitsFor(dir, from, to))
    ensures |UnitsFor(dir, from, to)| == to - from
  {
    hide UnitOk, Plain, UnitFor, ItemsOk, PlainAll, Directories;
    var units := UnitsFor(dir, from, to);
    forall i | 0 <= i < |units|
      ensures UnitOk(units[i], budget) && Plain(units[i]) && units[i].Dir?
    {
      assert units[i] == UnitFor(dir.subs[from + i]);
      PlainIsDir(units[i]);
    }
    UnitsFit(items, units, budget);
    AllPlain(units);
  }

  lemma PlainIsDir(unit: Unit)
    requires Plain(unit)
    ensures unit.Dir?
  {
  }

  lemma {:induction false} RestIsOk(dir: Dir, i: nat, from: nat, budget: nat)
    requires Tiled(dir.disk.entries, dir.starts, |dir.disk.entries|) && !dir.disk.fail && 0 < i < |dir.starts|
    requires dir.starts[i] <= |dir.disk.entries| && from + Directories(From(dir, i)) == |dir.subs|
    requires SubsDelivered(dir, budget)
    ensures RestOk(RestFor(dir, i, from), budget) && PlainRest(RestFor(dir, i, from)) && RestFor(dir, i, from) != []
    decreases |dir.starts| - i
  {
    hide NotedRange, Noted, UnitFor, NotedBy, Tiled, SubsDelivered, UnitsFor, ItemsOk;
    WindowThenRest(dir, i);
    var items := NotedBy(dir, i);
    var rest := RestFor(dir, i, from);
    var middle := from + Directories(items);
    assert ItemsOf(rest[0].scanned) == items;
    assert rest[1..] == RestFor(dir, i + 1, middle);
    assert [] + From(dir, i) == From(dir, i);
    if i + 1 < |dir.starts| {
      DirectoriesPlus(items, From(dir, i + 1));
      SomeUnits(dir, from, middle, items, budget);
      RestIsOk(dir, i + 1, middle, budget);
    } else {
      assert items + [] == items;
      SomeUnits(dir, from, middle, items, budget);
    }
  }

  lemma {:induction false} GrowIsDecode(items: seq<Item>, dir: Dir, from: nat, budget: nat)
    requires SubsDelivered(dir, budget) && from + Directories(items) == |dir.subs|
    ensures Decode(items, UnitsFor(dir, from, |dir.subs|)) == Grow(items, dir, from)
    decreases |items|
  {
    hide UnitFor, TreeOf, UnitOk, Plain, Children;
    if items != [] {
      if IsDirectory(items[0]) {
        var units := UnitsFor(dir, from, |dir.subs|);
        assert units[0] == UnitFor(dir.subs[from]) && units[1..] == UnitsFor(dir, from + 1, |dir.subs|);
        GrowIsDecode(items[1..], dir, from + 1, budget);
      } else {
        GrowIsDecode(items[1..], dir, from, budget);
      }
    }
  }

  /** Scanning a directory and everything below it delivers its tree, in a unit that the walk accepts. */
  lemma {:induction false} ScansDeliverTheTree(dir: Dir, budget: nat)
    requires DirOk(dir)
    ensures UnitOk(UnitFor(dir), budget) && Plain(UnitFor(dir)) && Children(UnitFor(dir)) == TreeOf(dir)
    decreases dir
  {
    forall i | 0 <= i < |dir.subs|
      ensures var unit := UnitFor(dir.subs[i]); UnitOk(unit, budget) && Plain(unit) && Children(unit) == TreeOf(dir.subs[i])
    {
      ScansDeliverTheTree(dir.subs[i], budget);
    }
    assert SubsDelivered(dir, budget);
    if dir.answer.Opened? {
      OpenedIsDelivered(dir, budget);
    }
  }

  lemma OpenedIsDelivered(dir: Dir, budget: nat)
    requires DirOk(dir) && dir.answer.Opened? && SubsDelivered(dir, budget)
    ensures UnitOk(UnitFor(dir), budget) && Plain(UnitFor(dir)) && Children(UnitFor(dir)) == TreeOf(dir)
  {
    hide NotedRange, Noted, NotedBy, Complete, SubsDelivered, UnitsFor, ItemsOk, AllNoted, FailedItems;
    UnitHolds(dir);
    WindowThenRest(dir, 0);
    var items, n := NotedBy(dir, 0), Directories(NotedBy(dir, 0));
    var unit := UnitFor(dir);
    assert ItemsOf(unit.scanned) == items;
    SomeUnits(dir, 0, n, items, budget);
    if |dir.starts| > 1 {
      AllFromFirst(dir);
      RestIsOk(dir, 1, n, budget);
    }
    ScansJoin(items, unit.subdirs, unit.rest, budget);
    GrowIsDecode(AllNoted(dir), dir, 0, budget);
  }

  lemma AllFromFirst(dir: Dir)
    requires DirOk(dir) && dir.answer.Opened? && |dir.starts| > 1
    ensures dir.starts[1] <= |dir.disk.entries| && Directories(NotedBy(dir, 0)) + Directories(From(dir, 1)) == |dir.subs|
  {
    WindowThenRest(dir, 0);
    assert |dir.subs| == Directories(AllNoted(dir)) && AllNoted(dir) == NotedBy(dir, 0) + From(dir, 1);
    hide DirOk, NotedBy, AllNoted, NotedRange, Tiled, From;
    DirectoriesPlus(NotedBy(dir, 0), From(dir, 1));
  }

  // ----- in order of the names

  /** The names of the listing are those of an operating system, in order, and no name comes twice. */
  ghost predicate NamesAscend(d: Disk) {
    && (forall i :: 0 <= i < |d.entries| ==> PlainName(NameIn(d, i)))
    && (forall i, j :: 0 <= i < j < |d.entries| ==> Compare(NameIn(d, i), NameIn(d, j)) == Less)
  }

  /** A listing that was sorted is in such order if it gives no name twice. */
  lemma SortedNamesAscend(d: Disk)
    requires NamesInOrder(d.entries, d.names)
    requires forall i :: 0 <= i < |d.entries| ==> PlainName(NameIn(d, i))
    requires forall i, j :: 0 <= i < j < |d.entries| ==> NameIn(d, i) != NameIn(d, j)
    ensures NamesAscend(d)
  {
    forall i, j | 0 <= i < j < |d.entries|
      ensures Compare(NameIn(d, i), NameIn(d, j)) == Less
    {
      CompareEqual(NameIn(d, i), NameIn(d, j));
      assert Compare(NameOf(d.entries[i], d.names), NameOf(d.entries[j], d.names)) != Greater;
    }
  }

  ghost predicate AllAscend(dir: Dir)
    decreases dir
  {
    NamesAscend(dir.disk) && forall i :: 0 <= i < |dir.subs| ==> AllAscend(dir.subs[i])
  }

  /** The node carries the name of an entry at `start` or behind it. */
  ghost predicate FromPlace(d: Disk, node: Node, start: nat) {
    exists place :: start <= place < |d.entries| && node.entry.name == NameIn(d, place)
  }

  lemma NotedName(d: Disk, ahead: bool, place: nat)
    requires place < |d.entries|
    ensures |Noted(d, ahead, place)| <= 1
    ensures forall item <- Noted(d, ahead, place) :: item.Recorded? ==> item.entry.name == NameIn(d, place)
  {
    hide IsText;
  }

  /** The first item of some, and those behind it. */
  lemma GrowPlus(a: seq<Item>, b: seq<Item>, dir: Dir, from: nat)
    requires |a| <= 1
    ensures a == [] ==> Grow(a + b, dir, from) == Grow(b, dir, from)
    ensures a != [] && !a[0].Recorded? ==> Grow(a + b, dir, from) == Grow(b, dir, from)
    ensures a != [] && a[0].Recorded? && !IsDirectory(a[0]) ==>
              Grow(a + b, dir, from) == [Node(a[0].entry, [])] + Grow(b, dir, from)
    ensures a != [] && IsDirectory(a[0]) ==>
              Grow(a + b, dir, from)
              == if from < |dir.subs| then [Node(a[0].entry, TreeOf(dir.subs[from]))] + Grow(b, dir, from + 1) else []
  {
    hide TreeOf;
    if a == [] {
      assert a + b == b;
    } else {
      assert (a + b)[1..] == b && (a + b)[0] == a[0];
      assert [] + Grow(b, dir, from) == Grow(b, dir, from);
    }
  }

  lemma {:induction false} FailuresGrowNothing(failures: seq<Option<Name>>, items: seq<Item>, dir: Dir, from: nat)
    ensures Grow(FailedItems(failures) + items, dir, from) == Grow(items, dir, from)
    decreases |failures|
  {
    if failures == [] {
      assert FailedItems(failures) + items == items;
    } else {
      var first := [Item.Failed(failures[0])];
      assert FailedItems(failures) + items == first + (FailedItems(failures[1..]) + items);
      GrowPlus(first, FailedItems(failures[1..]) + items, dir, from);
      FailuresGrowNothing(failures[1..], items, dir, from);
    }
  }

  /** The nodes of the entries from `start` on carry their names, in order. */
  lemma {:induction false} NotedIsSorted(dir: Dir, start: nat, from: nat)
    requires start <= |dir.disk.entries| && NamesAscend(dir.disk) && !dir.disk.fail
    requires forall i :: 0 <= i < |dir.subs| ==> SortedTree(TreeOf(dir.subs[i]))
    ensures var nodes := Grow(NotedRange(dir.disk, dir.ahead, start, |dir.disk.entries|), dir, from);
            SortedTree(nodes) && forall k :: 0 <= k < |nodes| ==> FromPlace(dir.disk, nodes[k], start)
    decreases |dir.disk.entries| - start
  {
    hide Noted, TreeOf, NameIn, Grow, NotedRange, FromPlace, NamesAscend, SortedTree;
    var d, n := dir.disk, |dir.disk.entries|;
    NotedNext(d, dir.ahead, start);
    NothingSorted();
    if start == n {
      GrowNothing(dir, from);
    } else {
      var a, b := Noted(d, dir.ahead(start), start), NotedRange(d, dir.ahead, start + 1, n);
      NotedName(d, dir.ahead(start), start);
      GrowPlus(a, b, dir, from);
      var directory := a != [] && IsDirectory(a[0]);
      NotedIsSorted(dir, start + 1, if directory then from + 1 else from);
      var rest := Grow(b, dir, if directory then from + 1 else from);
      LaterPlaces(d, rest, start);
      if a != [] && a[0].Recorded? && (directory ==> from < |dir.subs|) {
        var node := Node(a[0].entry, if directory then TreeOf(dir.subs[from]) else []);
        FirstInOrder(d, node, rest, start);
      }
    }
  }

  lemma NotedNext(d: Disk, ahead: nat -> bool, start: nat)
    requires start <= |d.entries| && !d.fail
    ensures NotedRange(d, ahead, start, |d.entries|)
         == if start < |d.entries| then Noted(d, ahead(start), start) + NotedRange(d, ahead, start + 1, |d.entries|) else []
  {
    hide Noted;
  }

  lemma GrowNothing(dir: Dir, from: nat)
    ensures Grow([], dir, from) == []
  {
  }

  lemma NothingSorted()
    ensures SortedTree([])
  {
  }

  lemma LaterPlaces(d: Disk, nodes: seq<Node>, start: nat)
    requires forall k :: 0 <= k < |nodes| ==> FromPlace(d, nodes[k], start + 1)
    ensures forall k :: 0 <= k < |nodes| ==> FromPlace(d, nodes[k], start)
  {
    forall k | 0 <= k < |nodes|
      ensures FromPlace(d, nodes[k], start)
    {
      var place :| start + 1 <= place < |d.entries| && nodes[k].entry.name == NameIn(d, place);
    }
  }

  lemma FirstInOrder(d: Disk, node: Node, rest: seq<Node>, start: nat)
    requires start < |d.entries| && NamesAscend(d) && node.entry.name == NameIn(d, start)
    requires SortedTree(node.children) && SortedTree(rest)
    requires forall k :: 0 <= k < |rest| ==> FromPlace(d, rest[k], start + 1)
    ensures SortedTree([node] + rest)
    ensures forall k :: 0 <= k < |[node] + rest| ==> FromPlace(d, ([node] + rest)[k], start)
  {
    hide NameIn, Compare, PlainName;
    var nodes := [node] + rest;
    assert nodes[0] == node && nodes[1..] == rest;
    forall k | 0 <= k < |rest|
      ensures Compare(node.entry.name, rest[k].entry.name) == Less
    {
      assert FromPlace(d, rest[k], start + 1);
      var place :| start + 1 <= place < |d.entries| && rest[k].entry.name == NameIn(d, place);
    }
    LaterPlaces(d, rest, start);
    assert FromPlace(d, node, start);
  }

  /** The tree of sorted listings is sorted, so its rows come in walk order. */
  lemma {:induction false} TheTreeIsSorted(dir: Dir)
    requires DirOk(dir) && AllAscend(dir)
    ensures SortedTree(TreeOf(dir))
    decreases dir
  {
    forall i | 0 <= i < |dir.subs|
      ensures SortedTree(TreeOf(dir.subs[i]))
    {
      TheTreeIsSorted(dir.subs[i]);
    }
    hide DirOk, AllAscend, NotedRange;
    if dir.answer.Opened? {
      NotedIsSorted(dir, 0, 0);
      FailuresGrowNothing(dir.answer.failures, NotedRange(dir.disk, dir.ahead, 0, |dir.disk.entries|), dir, 0);
    }
  }
}
