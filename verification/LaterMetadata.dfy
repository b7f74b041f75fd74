/**
 * Metadata read later: a walk that reads kinds only cuts the same parts, and filling its parts in gives what a walk
 * that reads all metadata gives.
 */
module LaterMetadata {
  import opened Tree
  import opened Rule
  import opened RuleFacts
  import opened Delivery
  import opened Utf8
  import opened Listings
  import opened Windows
  import opened Scan
  import opened Scanning
  import opened Disks
  import Part
  import Fill

  // ----- filling a tree in

  /** An entry with the metadata read of it later; it stays as it is if that cannot be read. */
  function Later(entry: Entry, stat: Option<Fill.Stat>): Entry {
    if stat.None? then entry
    else
      match entry
      case File(name, _, _, _) => Entry.File(name, stat.value.size, stat.value.mtime, stat.value.mode)
      case Directory(name, _, _) => Entry.Directory(name, stat.value.mtime, stat.value.mode)
      case Symlink(name, target, _, directory) => Entry.Symlink(name, target, stat.value.mtime, directory)
  }

  function LaterNode(node: Node, at: Path, fs: Fill.Filesystem): Node
    decreases node, 1
  {
    Node(Later(node.entry, Fill.Reopened(fs, at, node.entry.name)), LaterTree(node.children, at + [node.entry.name], fs))
  }

  function LaterTree(nodes: seq<Node>, at: Path, fs: Fill.Filesystem): (later: seq<Node>)
    ensures |later| == |nodes|
    decreases nodes
  {
    if nodes == [] then [] else [LaterNode(nodes[0], at, fs)] + LaterTree(nodes[1..], at, fs)
  }

  function LaterRow(row: Row, fs: Fill.Filesystem): Row {
    Row(row.dir, Later(row.entry, Fill.Reopened(fs, row.dir, row.entry.name)))
  }

  function LaterRows(rows: seq<Row>, fs: Fill.Filesystem): seq<Row> {
    if rows == [] then [] else [LaterRow(rows[0], fs)] + LaterRows(rows[1..], fs)
  }

  function LaterParts(parts: seq<seq<Row>>, fs: Fill.Filesystem): (later: seq<seq<Row>>)
    ensures |later| == |parts| && forall k :: 0 <= k < |parts| ==> later[k] == LaterRows(parts[k], fs)
  {
    seq(|parts|, k requires 0 <= k < |parts| => LaterRows(parts[k], fs))
  }

  // ----- it changes no part

  lemma SameOwn(entry: Entry, stat: Option<Fill.Stat>)
    ensures Own(Later(entry, stat)) == Own(entry) && Later(entry, stat).name == entry.name
    ensures Later(entry, stat).Directory? == entry.Directory? && Part.KindOf(Later(entry, stat)) == Part.KindOf(entry)
  {
  }

  lemma {:induction false} SameSizes(nodes: seq<Node>, at: Path, fs: Fill.Filesystem)
    ensures SizeAll(LaterTree(nodes, at, fs)) == SizeAll(nodes)
    decreases nodes
  {
    if nodes != [] {
      SameOwn(nodes[0].entry, Fill.Reopened(fs, at, nodes[0].entry.name));
      SameSizes(nodes[0].children, at + [nodes[0].entry.name], fs);
      SameSizes(nodes[1..], at, fs);
      assert LaterTree(nodes, at, fs)[1..] == LaterTree(nodes[1..], at, fs);
    }
  }

  lemma {:induction false} RowsPlus(a: seq<Row>, b: seq<Row>, fs: Fill.Filesystem)
    ensures LaterRows(a + b, fs) == LaterRows(a, fs) + LaterRows(b, fs)
    decreases |a|
  {
    if a == [] {
      assert a + b == b;
    } else {
      RowsPlus(a[1..], b, fs);
      assert (a + b)[1..] == a[1..] + b;
    }
  }

  lemma RowsOne(row: Row, fs: Fill.Filesystem)
    ensures LaterRows([row], fs) == [LaterRow(row, fs)]
  {
    assert [row][1..] == [] && LaterRows([], fs) == [];
  }

  lemma {:induction false} RowsLater(nodes: seq<Node>, at: Path, fs: Fill.Filesystem)
    ensures Pre(at, LaterTree(nodes, at, fs)) == LaterRows(Pre(at, nodes), fs)
    decreases nodes
  {
    hide Pre, LaterRows;
    if nodes == [] {
      PreNone(at);
      NoRows(fs);
    } else {
      var node, later := nodes[0], LaterTree(nodes, at, fs);
      var below := at + [node.entry.name];
      SameOwn(node.entry, Fill.Reopened(fs, at, node.entry.name));
      RowsLater(node.children, below, fs);
      RowsLater(nodes[1..], at, fs);
      assert later[1..] == LaterTree(nodes[1..], at, fs);
      PreStep(at, nodes);
      PreStep(at, later);
      RowsPlus([Row(at, node.entry)] + Pre(below, node.children), Pre(at, nodes[1..]), fs);
      RowsPlus([Row(at, node.entry)], Pre(below, node.children), fs);
      RowsOne(Row(at, node.entry), fs);
    }
  }

  lemma NoRows(fs: Fill.Filesystem)
    ensures LaterRows([], fs) == []
  {
  }

  /** A cut with all its rows filled in. */
  function LaterCut(cut: Cut, fs: Fill.Filesystem): Cut {
    Cut(LaterParts(cut.parts, fs), LaterRows(cut.carry, fs))
  }

  lemma {:induction false} SameCuts(dir: Path, nodes: seq<Node>, budget: nat, carry: seq<Row>, group: seq<Row>, bytes: nat, fs: Fill.Filesystem)
    ensures Split(dir, LaterTree(nodes, dir, fs), budget, LaterRows(carry, fs), LaterRows(group, fs), bytes)
         == LaterCut(Split(dir, nodes, budget, carry, group, bytes), fs)
    decreases nodes, 0
  {
    hide Pre, SizeAll, Descend, Later;
    var later := LaterTree(nodes, dir, fs);
    SameFlush(carry, group, fs);
    if nodes != [] {
      var node := nodes[0];
      assert later[1..] == LaterTree(nodes[1..], dir, fs) && later[0] == LaterNode(node, dir, fs);
      SameNode(node, dir, fs);
      if Oversize(node, budget) {
        var before := Flush(carry, group);
        SameDescend(dir, node, budget, before.carry, fs);
        var child := Descend(dir, node, budget, before.carry);
        SameCuts(dir, nodes[1..], budget, child.carry, [], 0, fs);
        var after := Split(dir, nodes[1..], budget, child.carry, [], 0);
        PartsPlus(before.parts, child.parts, fs);
        PartsPlus(before.parts + child.parts, after.parts, fs);
      } else if group != [] && bytes + Size(node) > budget {
        SameCuts(dir, nodes[1..], budget, [], Pre(dir, [node]), Size(node), fs);
        var after := Split(dir, nodes[1..], budget, [], Pre(dir, [node]), Size(node));
        PartsPlus([carry + group], after.parts, fs);
        RowsPlus(carry, group, fs);
      } else {
        SameCuts(dir, nodes[1..], budget, carry, group + Pre(dir, [node]), bytes + Size(node), fs);
        RowsPlus(group, Pre(dir, [node]), fs);
      }
    }
  }

  lemma SameFlush(carry: seq<Row>, group: seq<Row>, fs: Fill.Filesystem)
    ensures Flush(LaterRows(carry, fs), LaterRows(group, fs)) == LaterCut(Flush(carry, group), fs)
    ensures LaterRows(group, fs) == [] <==> group == []
  {
    RowsPlus(carry, group, fs);
  }

  lemma PartsPlus(a: seq<seq<Row>>, b: seq<seq<Row>>, fs: Fill.Filesystem)
    ensures LaterParts(a + b, fs) == LaterParts(a, fs) + LaterParts(b, fs)
  {
  }

  lemma SameNode(node: Node, at: Path, fs: Fill.Filesystem)
    ensures var later := LaterNode(node, at, fs);
            && Size(later) == Size(node) && later.entry.Directory? == node.entry.Directory?
            && Pre(at, [later]) == LaterRows(Pre(at, [node]), fs)
  {
    hide Pre;
    SameOwn(node.entry, Fill.Reopened(fs, at, node.entry.name));
    SameSizes(node.children, at + [node.entry.name], fs);
    RowsLater([node], at, fs);
    TreeOfOne(node, at, fs);
  }

  lemma TreeOfOne(node: Node, at: Path, fs: Fill.Filesystem)
    ensures LaterTree([node], at, fs) == [LaterNode(node, at, fs)]
  {
    assert [node][1..] == [] && LaterTree([], at, fs) == [];
  }

  lemma {:induction false} SameDescend(dir: Path, node: Node, budget: nat, carry: seq<Row>, fs: Fill.Filesystem)
    ensures Descend(dir, LaterNode(node, dir, fs), budget, LaterRows(carry, fs)) == LaterCut(Descend(dir, node, budget, carry), fs)
    decreases node, 1
  {
    hide Split, LaterRows, Later;
    var own, below := Row(dir, node.entry), dir + [node.entry.name];
    SameOwn(node.entry, Fill.Reopened(fs, dir, node.entry.name));
    RowsPlus(carry, [own], fs);
    RowsOne(own, fs);
    SameCuts(below, node.children, budget, carry + [own], [], 0, fs);
    NoRows(fs);
    var inner := Split(below, node.children, budget, carry + [own], [], 0);
    CarryLeaves(below, node.children, budget, carry + [own], [], 0);
    LastRow(carry, own, fs);
    PartsPlus(inner.parts, [inner.carry], fs);
  }

  lemma LastRow(carry: seq<Row>, own: Row, fs: Fill.Filesystem)
    ensures var rows := LaterRows(carry + [own], fs); rows != [] && rows[|rows| - 1] == LaterRow(own, fs)
  {
    RowsPlus(carry, [own], fs);
    RowsOne(own, fs);
  }

  /** The rule cuts the filled tree just where it cuts the other. */
  lemma PartsLater(tree: seq<Node>, budget: nat, fs: Fill.Filesystem)
    ensures Parts(LaterTree(tree, [], fs), budget) == LaterParts(Parts(tree, budget), fs)
  {
    hide Split;
    SameCuts([], tree, budget, [], [], 0, fs);
    NoRows(fs);
  }

  // ----- two scans of one disk

  /** What a scan that reads all metadata reads of an entry. */
  function ReadOf(d: Disk, ahead: bool, place: nat): Option<Stat>
    requires place < |d.entries|
  {
    if d.entries[place].kind == DirectoryKind && d.statsItself then if ahead then d.own(place) else d.named(place)
    else d.stats(place)
  }

  /** The later read answers what the scan read. */
  ghost predicate AnswersAlike(d: Disk, ahead: bool, place: nat, at: Path, fs: Fill.Filesystem)
    requires place < |d.entries|
  {
    match ReadOf(d, ahead, place)
    case None => false
    case Some(stat) => Fill.Reopened(fs, at, NameIn(d, place)) == Some(Fill.Stat(stat.size, stat.mtime, stat.mode))
  }

  /** A row and the same row filled in; anything else and itself. */
  predicate Matches(item: Item, later: Item, at: Path, fs: Fill.Filesystem) {
    if item.Recorded? then later == Recorded(Later(item.entry, Fill.Reopened(fs, at, item.entry.name))) else later == item
  }

  predicate AllMatch(items: seq<Item>, later: seq<Item>, at: Path, fs: Fill.Filesystem) {
    |later| == |items| && forall i :: 0 <= i < |items| ==> Matches(items[i], later[i], at, fs)
  }

  /** The same scan, of kinds only. */
  function KindsOnly(d: Disk): Disk {
    d.(full := false)
  }

  /** Every read of the scan that is for a row succeeds, and the later read answers what it read. */
  ghost predicate ReadsAlike(d: Disk, ahead: bool, place: nat, at: Path, fs: Fill.Filesystem)
    requires place < |d.entries|
  {
    && ((exists item <- Noted(KindsOnly(d), ahead, place) :: item.Recorded?) ==> AnswersAlike(d, ahead, place, at, fs))
    && (d.entries[place].kind.SymlinkKind? && Kept(d, place) && IsText(NameIn(d, place)) ==> d.stats(place).Some?)
  }

  lemma EntryMatches(d: Disk, ahead: bool, other: bool, place: nat, at: Path, fs: Fill.Filesystem)
    requires place < |d.entries| && d.full
    requires ReadsAlike(d, ahead, place, at, fs)
    ensures AllMatch(Noted(KindsOnly(d), other, place), Noted(d, ahead, place), at, fs)
  {
    hide IsText, Fill.Reopened;
    var k := KindsOnly(d);
    var name := NameIn(d, place);
    assert NameIn(k, place) == name;
    KindsNeedNothingAhead(d, ahead, other, place);
    OthersNoted(d, ahead, place);
    OthersNoted(k, other, place);
    if IsText(name) {
      match d.entries[place].kind
      case FileKind =>
        FileNoted(d, ahead, place);
        FileNoted(k, other, place);
      case DirectoryKind =>
        DirectoryNoted(d, ahead, place);
        DirectoryNoted(k, other, place);
      case SymlinkKind(_) =>
        SymlinkNoted(d, ahead, place);
        SymlinkNoted(k, other, place);
      case UnknownKind =>
        UnknownNoted(d, ahead, place);
        UnknownNoted(k, other, place);
      case _ =>
    }
  }

  /** A scan of kinds reads nothing from a directory opened ahead. */
  lemma KindsNeedNothingAhead(d: Disk, ahead: bool, other: bool, place: nat)
    requires place < |d.entries|
    ensures Noted(KindsOnly(d), ahead, place) == Noted(KindsOnly(d), other, place)
  {
    hide IsText;
  }

  lemma {:induction false} RangeMatches(d: Disk, ahead: nat -> bool, other: nat -> bool, start: nat, at: Path, fs: Fill.Filesystem)
    requires start <= |d.entries| && d.full && !d.fail
    requires forall place :: start <= place < |d.entries| ==> ReadsAlike(d, ahead(place), place, at, fs)
    ensures AllMatch(NotedRange(KindsOnly(d), other, start, |d.entries|), NotedRange(d, ahead, start, |d.entries|), at, fs)
    decreases |d.entries| - start
  {
    hide Noted, Matches, ReadsAlike, HasFailure;
    if start < |d.entries| {
      EntryMatches(d, ahead(start), other(start), start, at, fs);
      RangeMatches(d, ahead, other, start + 1, at, fs);
      MatchPlus(Noted(KindsOnly(d), other(start), start), NotedRange(KindsOnly(d), other, start + 1, |d.entries|),
                Noted(d, ahead(start), start), NotedRange(d, ahead, start + 1, |d.entries|), at, fs);
    }
  }

  lemma MatchPlus(a: seq<Item>, b: seq<Item>, x: seq<Item>, y: seq<Item>, at: Path, fs: Fill.Filesystem)
    requires AllMatch(a, x, at, fs) && AllMatch(b, y, at, fs)
    ensures AllMatch(a + b, x + y, at, fs)
  {
    hide Matches;
  }

  lemma FailuresMatch(names: seq<Option<Name>>, at: Path, fs: Fill.Filesystem)
    ensures AllMatch(FailedItems(names), FailedItems(names), at, fs)
  {
  }

  /** One disk, scanned for kinds and scanned for all metadata, by whatever schedules; `fs` is what a later read sees. */
  ghost predicate Twins(dir: Dir, full: Dir, at: Path, fs: Fill.Filesystem)
    decreases dir
  {
    && full.disk.full && !full.disk.fail && dir.disk == KindsOnly(full.disk) && dir.answer == full.answer
    && (dir.answer.Opened? ==>
          forall place :: 0 <= place < |full.disk.entries| ==> ReadsAlike(full.disk, full.ahead(place), place, at, fs))
    && |dir.subs| == |full.subs| == |DirectoryNames(AllNoted(dir))|
    && forall i :: 0 <= i < |dir.subs| ==> Twins(dir.subs[i], full.subs[i], at + [DirectoryNames(AllNoted(dir))[i]], fs)
  }

  lemma NotedMatches(dir: Dir, full: Dir, at: Path, fs: Fill.Filesystem)
    requires Twins(dir, full, at, fs)
    ensures AllMatch(AllNoted(dir), AllNoted(full), at, fs)
  {
    hide Matches, ReadsAlike, NotedRange, DirectoryNames;
    if dir.answer.Opened? {
      FailuresMatch(dir.answer.failures, at, fs);
      RangeMatches(full.disk, full.ahead, dir.ahead, 0, at, fs);
      var n := |full.disk.entries|;
      MatchPlus(FailedItems(dir.answer.failures), NotedRange(dir.disk, dir.ahead, 0, n),
                FailedItems(dir.answer.failures), NotedRange(full.disk, full.ahead, 0, n), at, fs);
    }
  }

  lemma {:induction false} TreesMatch(dir: Dir, full: Dir, at: Path, fs: Fill.Filesystem)
    requires Twins(dir, full, at, fs)
    ensures LaterTree(TreeOf(dir), at, fs) == TreeOf(full)
    decreases dir, 1
  {
    hide LaterTree, Twins, DirectoryNames, AllMatch, Grow;
    NotedMatches(dir, full, at, fs);
    GrowMatches(AllNoted(dir), AllNoted(full), dir, full, 0, at, fs);
  }

  lemma {:induction false} GrowMatches(items: seq<Item>, later: seq<Item>, dir: Dir, full: Dir, from: nat, at: Path, fs: Fill.Filesystem)
    requires Twins(dir, full, at, fs) && AllMatch(items, later, at, fs)
    requires from <= |DirectoryNames(AllNoted(dir))| && DirectoryNames(AllNoted(dir))[from..] == DirectoryNames(items)
    ensures LaterTree(Grow(items, dir, from), at, fs) == Grow(later, full, from)
    decreases dir, 0, |items|
  {
    hide Twins, AllNoted, TreeOf, Later;
    if items != [] {
      assert Matches(items[0], later[0], at, fs);
      GrowStep(items, dir, from);
      GrowStep(later, full, from);
      var fewer, rest := items[1..], later[1..];
      if IsDirectory(items[0]) {
        var names, name := DirectoryNames(AllNoted(dir)), items[0].entry.name;
        NamesStep(items);
        assert names[from] == name && names[from + 1..] == DirectoryNames(fewer);
        TwinsBelow(dir, full, at, fs, from);
        TreesMatch(dir.subs[from], full.subs[from], at + [name], fs);
        GrowMatches(fewer, rest, dir, full, from + 1, at, fs);
        TreeStep(Node(items[0].entry, TreeOf(dir.subs[from])), Grow(fewer, dir, from + 1), at, fs);
        SameOwn(items[0].entry, Fill.Reopened(fs, at, name));
      } else {
        NamesStep(items);
        GrowMatches(fewer, rest, dir, full, from, at, fs);
        assert [] + Grow(fewer, dir, from) == Grow(fewer, dir, from) && [] + Grow(rest, full, from) == Grow(rest, full, from);
        assert [] + DirectoryNames(fewer) == DirectoryNames(fewer);
        if items[0].Recorded? {
          TreeStep(Node(items[0].entry, []), Grow(fewer, dir, from), at, fs);
          SameOwn(items[0].entry, Fill.Reopened(fs, at, items[0].entry.name));
        }
      }
    }
  }

  lemma TwinsBelow(dir: Dir, full: Dir, at: Path, fs: Fill.Filesystem, i: nat)
    requires Twins(dir, full, at, fs)
    ensures |dir.subs| == |full.subs| == |DirectoryNames(AllNoted(dir))|
    ensures i < |dir.subs| ==> Twins(dir.subs[i], full.subs[i], at + [DirectoryNames(AllNoted(dir))[i]], fs)
  {
    hide AllNoted, DirectoryNames, ReadsAlike;
  }

  lemma NamesStep(items: seq<Item>)
    requires items != []
    ensures DirectoryNames(items) == (if IsDirectory(items[0]) then [items[0].entry.name] else []) + DirectoryNames(items[1..])
  {
  }

  lemma GrowStep(items: seq<Item>, dir: Dir, from: nat)
    requires items != []
    ensures Grow(items, dir, from)
         == if IsDirectory(items[0]) then
              if from < |dir.subs| then [Node(items[0].entry, TreeOf(dir.subs[from]))] + Grow(items[1..], dir, from + 1) else []
            else (if items[0].Recorded? then [Node(items[0].entry, [])] else []) + Grow(items[1..], dir, from)
  {
    hide TreeOf;
  }

  lemma TreeStep(node: Node, rest: seq<Node>, at: Path, fs: Fill.Filesystem)
    ensures LaterTree([node] + rest, at, fs) == [LaterNode(node, at, fs)] + LaterTree(rest, at, fs)
    ensures node.children == [] ==> LaterNode(node, at, fs).children == []
  {
    assert ([node] + rest)[1..] == rest;
  }

  // ----- and the parts built of it

  lemma {:induction false} KindLater(rows: seq<Row>, kind: Part.Kind, fs: Fill.Filesystem)
    ensures Part.OfKind(LaterRows(rows, fs), kind) == LaterRows(Part.OfKind(rows, kind), fs)
    decreases |rows|
  {
    hide Later;
    if rows != [] {
      SameOwn(rows[0].entry, Fill.Reopened(fs, rows[0].dir, rows[0].entry.name));
      KindLater(rows[1..], kind, fs);
      var first := if Part.KindOf(rows[0].entry) == kind then [rows[0]] else [];
      RowsOne(rows[0], fs);
      NoRows(fs);
      RowsPlus(first, Part.OfKind(rows[1..], kind), fs);
      assert LaterRows(rows, fs)[1..] == LaterRows(rows[1..], fs);
    }
  }

  lemma {:induction false} RowAt(rows: seq<Row>, fs: Fill.Filesystem, i: nat)
    ensures |LaterRows(rows, fs)| == |rows| && (i < |rows| ==> LaterRows(rows, fs)[i] == LaterRow(rows[i], fs))
    decreases |rows|
  {
    if rows != [] {
      RowAt(rows[1..], fs, if i == 0 then 0 else i - 1);
    }
  }

  lemma TableLater(before: seq<Row>, after: seq<Row>, fs: Fill.Filesystem)
    requires |after| == |before| && forall i :: 0 <= i < |before| ==> after[i] == LaterRow(before[i], fs)
    ensures after == LaterRows(before, fs)
  {
    RowAt(before, fs, 0);
    forall i | 0 <= i < |before|
      ensures after[i] == LaterRows(before, fs)[i]
    {
      RowAt(before, fs, i);
    }
  }

  /** A part that is filled in holds its rows filled in. */
  lemma FilledHolds(c: Part.Content, rows: seq<Row>, fs: Fill.Filesystem, to: Part.Content)
    requires Part.Holds(c, rows) && Fill.Filled(c, fs, to, |c.directories|, |c.files|, |c.symlinks|)
    ensures Part.Holds(to, LaterRows(rows, fs))
  {
    hide Part.OfKind, Part.NodePath, Fill.Reopened, LaterRows;
    Fill.FilledShape(c, fs, to, |c.directories|, |c.files|, |c.symlinks|);
    TablesLater(c, fs, to);
    KindLater(rows, Part.ADirectory, fs);
    KindLater(rows, Part.AFile, fs);
    KindLater(rows, Part.ASymlink, fs);
  }

  lemma TablesLater(c: Part.Content, fs: Fill.Filesystem, to: Part.Content)
    requires Part.Consistent(c) && Part.Consistent(to) && Fill.SameShape(c, to)
    requires Fill.Filled(c, fs, to, |c.directories|, |c.files|, |c.symlinks|)
    ensures Part.Directories(to) == LaterRows(Part.Directories(c), fs)
    ensures Part.Files(to) == LaterRows(Part.Files(c), fs)
    ensures Part.Symlinks(to) == LaterRows(Part.Symlinks(c), fs)
  {
    hide Part.NodePath, Fill.Reopened, LaterRows;
    forall i | 0 <= i < |c.directories|
      ensures Part.DirectoryOf(to, i) == LaterRow(Part.DirectoryOf(c, i), fs)
    {
      Fill.ShapePaths(c, to, c.directories[i].parent);
    }
    TableLater(Part.Directories(c), Part.Directories(to), fs);
    forall i | 0 <= i < |c.files|
      ensures Part.FileOf(to, i) == LaterRow(Part.FileOf(c, i), fs)
    {
      Fill.ShapePaths(c, to, c.files[i].parent);
    }
    TableLater(Part.Files(c), Part.Files(to), fs);
    forall i | 0 <= i < |c.symlinks|
      ensures Part.SymlinkOf(to, i) == LaterRow(Part.SymlinkOf(c, i), fs)
    {
      Fill.ShapePaths(c, to, c.symlinks[i].parent);
    }
    TableLater(Part.Symlinks(c), Part.Symlinks(to), fs);
  }

  /**
   * The parts are the same either way: a walk that reads all metadata cuts as many parts as one that reads kinds, and a
   * part of the latter, filled in later, holds exactly the rows of the former's part, if the file system answers alike.
   */
  lemma FilledPartsAreTheFull(dir: Dir, full: Dir, budget: nat, fs: Fill.Filesystem, k: nat, c: Part.Content, to: Part.Content)
    requires Twins(dir, full, [], fs) && k < |Parts(TreeOf(dir), budget)|
    requires Part.Holds(c, Parts(TreeOf(dir), budget)[k])
    requires Fill.Filled(c, fs, to, |c.directories|, |c.files|, |c.symlinks|)
    ensures |Parts(TreeOf(full), budget)| == |Parts(TreeOf(dir), budget)|
    ensures Part.Holds(to, Parts(TreeOf(full), budget)[k])
  {
    hide Twins, TreeOf, Parts, Part.Holds, Fill.Filled, LaterTree, LaterRows;
    TreesMatch(dir, full, [], fs);
    PartsLater(TreeOf(dir), budget, fs);
    FilledHolds(c, Parts(TreeOf(dir), budget)[k], fs, to);
  }
}
