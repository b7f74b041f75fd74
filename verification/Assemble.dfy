/** Building a part from a cut list: the room its rows take, and the rows unfolded into the tables. */
module Assemble {
  import opened Tree
  import opened Delivery
  import opened CutLists
  import opened Tape
  import opened Part

  // ----- what a part's rows take

  datatype Room = Room(directories: nat, files: nat, symlinks: nat, bytes: nat)

  function Plus(a: Room, b: Room): Room {
    Room(a.directories + b.directories, a.files + b.files, a.symlinks + b.symlinks, a.bytes + b.bytes)
  }

  const NO_ROOM := Room(0, 0, 0, 0)

  lemma Rooms(a: Room, b: Room, c: Room)
    ensures Plus(a, Plus(b, c)) == Plus(Plus(a, b), c)
    ensures Plus(NO_ROOM, a) == a && Plus(a, NO_ROOM) == a
  {
  }

  function EntryRoom(entry: Entry): Room {
    match entry
    case Directory(name, _, _) => Room(1, 0, 0, |name|)
    case File(name, _, _, _) => Room(0, 1, 0, |name|)
    case Symlink(name, target, _, _) => Room(0, 0, 1, |name| + |target|)
  }

  function LinesRoom(lines: seq<Line>): Room {
    if lines == [] then NO_ROOM else Plus(EntryRoom(lines[0].entry), LinesRoom(lines[1..]))
  }

  function ItemRoom(item: Item): Room {
    if item.Recorded? then EntryRoom(item.entry) else NO_ROOM
  }

  function ItemsRoom(items: seq<Item>): Room {
    if items == [] then NO_ROOM else Plus(ItemRoom(items[0]), ItemsRoom(items[1..]))
  }

  function ScansRoom(scans: seq<Scanned>): Room {
    if scans == [] then NO_ROOM else Plus(ItemsRoom(ItemsOf(scans[0])), ScansRoom(scans[1..]))
  }

  lemma {:induction false} LinesRoomPlus(a: seq<Line>, b: seq<Line>)
    ensures LinesRoom(a + b) == Plus(LinesRoom(a), LinesRoom(b))
    decreases |a|
  {
    hide Plus, EntryRoom;
    if a == [] {
      assert a + b == b;
      Rooms(LinesRoom(b), NO_ROOM, NO_ROOM);
    } else {
      assert (a + b)[1..] == a[1..] + b;
      LinesRoomPlus(a[1..], b);
      Rooms(EntryRoom(a[0].entry), LinesRoom(a[1..]), LinesRoom(b));
    }
  }

  lemma {:induction false} ItemsRoomLines(items: seq<Item>, depth: nat)
    ensures ItemsRoom(items) == LinesRoom(ItemLines(items, depth))
    decreases |items|
  {
    hide Plus, EntryRoom;
    if items != [] {
      ItemsRoomLines(items[1..], depth);
      var first := if items[0].Recorded? then [Line(depth, items[0].entry)] else [];
      LinesRoomPlus(first, ItemLines(items[1..], depth));
      FirstRoom(items[0], depth);
    }
  }

  lemma FirstRoom(item: Item, depth: nat)
    ensures LinesRoom(if item.Recorded? then [Line(depth, item.entry)] else []) == ItemRoom(item)
  {
    if item.Recorded? {
      assert [Line(depth, item.entry)][1..] == [];
    }
  }

  lemma SingleRoom(item: Item, depth: nat)
    requires !IsDirectory(item)
    ensures LinesRoom(Lines(depth, Single(item))) == ItemRoom(item)
  {
    if item.Recorded? {
      assert Single(item)[1..] == [];
      assert Lines(depth, Single(item)) == [Line(depth, item.entry)];
      assert [Line(depth, item.entry)][1..] == [];
    }
  }

  lemma NodeRoom(entry: Entry, below: seq<Node>, depth: nat)
    ensures LinesRoom(Lines(depth, [Node(entry, below)])) == Plus(EntryRoom(entry), LinesRoom(Lines(depth + 1, below)))
  {
    assert [Node(entry, below)][1..] == [];
    assert Lines(depth, [Node(entry, below)]) == [Line(depth, entry)] + Lines(depth + 1, below);
    LinesRoomPlus([Line(depth, entry)], Lines(depth + 1, below));
    assert [Line(depth, entry)][1..] == [];
  }

  lemma {:induction false} LinesPlus(depth: nat, a: seq<Node>, b: seq<Node>)
    ensures Lines(depth, a + b) == Lines(depth, a) + Lines(depth, b)
    decreases |a|
  {
    if a == [] {
      assert a + b == b;
    } else {
      assert (a + b)[1..] == a[1..] + b;
      LinesPlus(depth, a[1..], b);
    }
  }

  /** Reading scans moves what they hold into nodes, each item once. */
  lemma {:induction false} ItemsParseRoom(items: seq<Item>, more: bool, scans: seq<Scanned>, depth: nat)
    ensures var p := ParseItems(items, more, scans);
            p.Parsed? ==> Plus(ItemsRoom(items), ScansRoom(scans)) == Plus(LinesRoom(Lines(depth, p.nodes)), ScansRoom(p.unread))
    decreases |scans|, 1 + |items|
  {
    hide Lines, LinesRoom, Plus, EntryRoom, ItemRoom;
    if items == [] {
      assert Lines(depth, []) == [] && LinesRoom([]) == NO_ROOM by { NoLines(depth); }
      Rooms(ScansRoom(scans), NO_ROOM, NO_ROOM);
      if more {
        DirectoryParseRoom(scans, depth);
      }
    } else if IsDirectory(items[0]) {
      DirectoryParseRoom(scans, depth + 1);
      var below := ParseDirectory(scans);
      if below.Parsed? {
        ItemsParseRoom(items[1..], more, below.unread, depth);
        var after := ParseItems(items[1..], more, below.unread);
        if after.Parsed? {
          DirectoryRoom(items[0], ItemsRoom(items[1..]), below.nodes, after.nodes, depth,
                        ScansRoom(scans), ScansRoom(below.unread), ScansRoom(after.unread));
        }
      }
    } else {
      ItemsParseRoom(items[1..], more, scans, depth);
      var after := ParseItems(items[1..], more, scans);
      if after.Parsed? {
        LinesPlus(depth, Single(items[0]), after.nodes);
        LinesRoomPlus(Lines(depth, Single(items[0])), Lines(depth, after.nodes));
        SingleRoom(items[0], depth);
        Rooms(ItemRoom(items[0]), ItemsRoom(items[1..]), ScansRoom(scans));
        Rooms(ItemRoom(items[0]), LinesRoom(Lines(depth, after.nodes)), ScansRoom(after.unread));
      }
    }
  }

  lemma NoLines(depth: nat)
    ensures Lines(depth, []) == [] && LinesRoom([]) == NO_ROOM
  {
  }

  lemma DirectoryRoom(item: Item, items: Room, below: seq<Node>, after: seq<Node>, depth: nat, scans: Room, between: Room, unread: Room)
    requires IsDirectory(item)
    requires scans == Plus(LinesRoom(Lines(depth + 1, below)), between)
    requires Plus(items, between) == Plus(LinesRoom(Lines(depth, after)), unread)
    ensures Plus(Plus(ItemRoom(item), items), scans)
         == Plus(LinesRoom(Lines(depth, [Node(item.entry, below)] + after)), unread)
  {
    hide Lines, LinesRoom;
    var node := Node(item.entry, below);
    LinesPlus(depth, [node], after);
    LinesRoomPlus(Lines(depth, [node]), Lines(depth, after));
    NodeRoom(item.entry, below, depth);
  }

  lemma {:induction false} DirectoryParseRoom(scans: seq<Scanned>, depth: nat)
    ensures var p := ParseDirectory(scans);
            p.Parsed? ==> ScansRoom(scans) == Plus(LinesRoom(Lines(depth, p.nodes)), ScansRoom(p.unread))
    decreases |scans|, 0
  {
    if scans != [] {
      ItemsParseRoom(ItemsOf(scans[0]), scans[0].more.Some?, scans[1..], depth);
    }
  }

  /** Adds the room of some items of a scan. */
  method AddItems(room: Room, rows: Rows, from: nat, to: nat) returns (sum: Room)
    requires from <= to <= |rows.items|
    ensures sum == Plus(room, ItemsRoom(rows.items[from..to]))
  {
    hide Plus, ItemsRoom, ItemRoom;
    sum := room;
    for i := from to to
      invariant Plus(sum, ItemsRoom(rows.items[i..to])) == Plus(room, ItemsRoom(rows.items[from..to]))
    {
      ItemsRoomFirst(rows.items, i, to);
      Rooms(sum, ItemRoom(rows.items[i]), ItemsRoom(rows.items[i + 1..to]));
      sum := AddItem(sum, rows.items[i]);
    }
    ItemsRoomNone(rows.items, to);
    Rooms(sum, sum, sum);
  }

  /** Adds the room of one item. */
  method AddItem(room: Room, item: Item) returns (sum: Room)
    ensures sum == Plus(room, ItemRoom(item))
  {
    sum := room;
    match item {
    case Recorded(entry) =>
      match entry {
        case Directory(name, _, _) =>
          sum := sum.(directories := sum.directories + 1, bytes := sum.bytes + |name|);
        case File(name, _, _, _) =>
          sum := sum.(files := sum.files + 1, bytes := sum.bytes + |name|);
        case Symlink(name, target, _, _) =>
          sum := sum.(symlinks := sum.symlinks + 1, bytes := sum.bytes + |name| + |target|);
      }
    case Skipped(_, _) =>
    case Failed(_) =>
    }
  }

  lemma ItemsRoomFirst(items: seq<Item>, i: nat, to: nat)
    requires i < to <= |items|
    ensures ItemsRoom(items[i..to]) == Plus(ItemRoom(items[i]), ItemsRoom(items[i + 1..to]))
  {
    hide Plus, ItemRoom;
    assert items[i..to][0] == items[i] && items[i..to][1..] == items[i + 1..to];
  }

  lemma ItemsRoomNone(items: seq<Item>, to: nat)
    requires to <= |items|
    ensures ItemsRoom(items[to..to]) == NO_ROOM
  {
  }

  /** The room of all rows of some sources, and of the stem's text. */
  method CountRoom(stem: Path, sources: seq<RowSource>) returns (room: Room)
    requires SourcesOk(sources)
    ensures room == Plus(Room(0, 0, 0, Total(stem)), LinesRoom(Flat(sources)))
  {
    hide Flat, SourceOk, LinesRoom, Total, SourceLines;
    room := NO_ROOM;
    NoText(stem);
    for i := 0 to |stem|
      invariant room == Room(0, 0, 0, Total(stem[..i]))
    {
      TextMore(stem, i);
      room := room.(bytes := room.bytes + |stem[i]|);
    }
    ghost var start := room;
    assert sources[0..] == sources;
    for i := 0 to |sources|
      invariant Plus(room, LinesRoom(Flat(sources[i..]))) == Plus(start, LinesRoom(Flat(sources)))
    {
      RoomNext(sources, i);
      room := AddSource(room, sources[i]);
    }
    RoomEnds(sources);
  }

  lemma NoText(stem: Path)
    ensures Total(stem[..0]) == 0 && stem[..|stem|] == stem
  {
  }

  lemma TextMore(stem: Path, i: nat)
    requires i < |stem|
    ensures Total(stem[..i + 1]) == Total(stem[..i]) + |stem[i]|
  {
    assert stem[..i + 1][..i] == stem[..i];
  }

  lemma RoomNext(sources: seq<RowSource>, i: nat)
    requires SourcesOk(sources) && i < |sources|
    ensures LinesRoom(Flat(sources[i..])) == Plus(LinesRoom(SourceLines(sources[i])), LinesRoom(Flat(sources[i + 1..])))
  {
    hide LinesRoom, SourceLines, SourceOk;
    assert sources[i..][0] == sources[i] && sources[i..][1..] == sources[i + 1..];
    LinesRoomPlus(SourceLines(sources[i]), Flat(sources[i + 1..]));
  }

  lemma RoomEnds(sources: seq<RowSource>)
    ensures LinesRoom(Flat(sources[|sources|..])) == NO_ROOM
  {
  }

  method AddSource(room: Room, source: RowSource) returns (sum: Room)
    requires SourceOk(source)
    ensures sum == Plus(room, LinesRoom(SourceLines(source)))
  {
    match source
    case Range(rows, from, to, depth, _) =>
      sum := AddItems(room, rows, from, to);
      ItemsRoomLines(rows.items[from..to], depth);
    case Subtree(scans, depth, _) =>
      sum := AddScans(room, scans);
      DirectoryParseRoom(scans, depth);
      Rooms(LinesRoom(Lines(depth, Folded(scans))), NO_ROOM, NO_ROOM);
  }

  /** Adds the room of all items of some scans. */
  method AddScans(room: Room, scans: seq<Scanned>) returns (sum: Room)
    requires forall i :: 0 <= i < |scans| ==> ScannedOk(scans[i])
    ensures sum == Plus(room, ScansRoom(scans))
  {
    hide Plus, ScansRoom, ItemsRoom;
    sum := room;
    assert scans[0..] == scans;
    for i := 0 to |scans|
      invariant Plus(sum, ScansRoom(scans[i..])) == Plus(room, ScansRoom(scans))
    {
      ScansRoomFirst(scans, i);
      Rooms(sum, ItemsRoom(ItemsOf(scans[i])), ScansRoom(scans[i + 1..]));
      sum := AddItems(sum, scans[i].rows, scans[i].start, scans[i].end);
    }
    ScansRoomNone(scans);
    Rooms(sum, sum, sum);
  }

  lemma ScansRoomFirst(scans: seq<Scanned>, i: nat)
    requires i < |scans|
    ensures ScansRoom(scans[i..]) == Plus(ItemsRoom(ItemsOf(scans[i])), ScansRoom(scans[i + 1..]))
  {
    hide Plus, ItemsRoom;
    assert scans[i..][0] == scans[i] && scans[i..][1..] == scans[i + 1..];
  }

  lemma ScansRoomNone(scans: seq<Scanned>)
    ensures ScansRoom(scans[|scans|..]) == NO_ROOM
  {
  }

  // ----- the tables take as much as was counted

  lemma {:induction false} RoomOfRows(rows: seq<Row>)
    ensures var room := LinesRoom(Strip(rows));
            && room.directories == |OfKind(rows, ADirectory)|
            && room.files == |OfKind(rows, AFile)|
            && room.symlinks == |OfKind(rows, ASymlink)|
    decreases |rows|
  {
    if rows != [] {
      assert Strip(rows)[1..] == Strip(rows[1..]);
      RoomOfRows(rows[1..]);
    }
  }

  // ----- how far a part is built

  /** The node of the open directory at each depth. */
  ghost predicate NodesOk(c: Content, nodes: seq<nat>, dirs: Path)
    requires Consistent(c)
  {
    && |nodes| == |dirs| + 1
    && forall d :: 0 <= d < |nodes| ==> nodes[d] < Nodes(c) && NodePath(c, nodes[d]) == dirs[..d]
  }

  /** The part's stem, read back from its text. */
  ghost predicate StemIs(c: Content, stem: Path)
    requires Consistent(c)
  {
    |c.stem| == |stem| && forall i :: 0 <= i < |stem| ==> c.text[c.stem[i]] == stem[i]
  }

  /** The first `k` of `rows` are in the tables, and `nodes` lead to the directories open now. */
  ghost predicate Building(c: Content, nodes: seq<nat>, stem: Path, rows: seq<Row>, k: nat) {
    && k <= |rows|
    && Holds(c, rows[..k])
    && StemIs(c, stem)
    && NodesOk(c, nodes, EndOf(stem, rows[..k]))
    && Linked(EndOf(stem, rows[..k]), rows[k..])
    && Total(c.text) == Total(stem) + LinesRoom(Strip(rows[..k])).bytes
    && |c.text| == |stem| + Strings(LinesRoom(Strip(rows[..k])))
  }

  /** How many strings some rows have. */
  function Strings(room: Room): nat {
    room.directories + room.files + 2 * room.symlinks
  }

  /** A part with these rows passes what its indexes can address. */
  predicate Outgrows(stem: Path, room: Room) {
    || Total(stem) + room.bytes > U32_MAX
    || |stem| + Strings(room) > U32_MAX + 1
    || (room.directories > 0 && |stem| + room.directories > U32_MAX)
  }

  /** The row that comes next, as its line and the open directories give it. */
  lemma NextRow(c: Content, nodes: seq<nat>, stem: Path, rows: seq<Row>, k: nat, line: Line)
    requires Building(c, nodes, stem, rows, k) && k < |rows| && Strip(rows)[k] == line
    ensures line.depth < |nodes| && |rows[k].dir| == line.depth
    ensures nodes[line.depth] < Nodes(c) && rows[k] == Row(NodePath(c, nodes[line.depth]), line.entry)
  {
    hide Total, LinesRoom, Strings, EndOf, NodePath, OfKind, Part.Directories, Files, Symlinks;
    var dirs := EndOf(stem, rows[..k]);
    assert Strip(rows)[k] == Line(|rows[k].dir|, rows[k].entry);
    hide Strip;
    assert rows[k..][0] == rows[k];
    assert rows[k].dir <= dirs;
    hide Linked;
    assert rows[k].dir == dirs[..line.depth];
  }

  /** One more row in the tables. */
  lemma BuiltMore(c: Content, to: Content, nodes: seq<nat>, after: seq<nat>, stem: Path, rows: seq<Row>, k: nat)
    requires Building(c, nodes, stem, rows, k) && k < |rows|
    requires Extends(c, to) && Holds(to, rows[..k] + [rows[k]])
    requires |rows[k].dir| < |nodes|
    requires if rows[k].entry.Directory?
             then Nodes(to) > Nodes(c) && NodePath(to, Nodes(c)) == PathOf(rows[k]) && after == nodes[..|rows[k].dir| + 1] + [Nodes(c)]
             else after == nodes
    requires Total(to.text) == Total(c.text) + EntryRoom(rows[k].entry).bytes
    requires |to.text| == |c.text| + Strings(EntryRoom(rows[k].entry))
    ensures Building(to, after, stem, rows, k + 1)
  {
    hide Total, LinesRoom, Holds, StemIs, NodesOk, Linked, EndOf, Nodes, NodePath, Extends, Strings, EntryRoom;
    var row, done := rows[k], rows[..k];
    assert rows[..k + 1] == done + [row];
    HoldsConsistent(c, done);
    HoldsConsistent(to, done + [row]);
    BuiltDirs(stem, rows, k);
    BuiltNodes(c, to, nodes, after, EndOf(stem, done), done, row);
    BuiltText(done, row);
    BuiltStrings(LinesRoom(Strip(done)), EntryRoom(row.entry));
    StemStays(c, to, stem);
  }

  lemma StemStays(c: Content, to: Content, stem: Path)
    requires Consistent(c) && Consistent(to) && StemIs(c, stem) && Extends(c, to)
    ensures StemIs(to, stem)
  {
  }

  lemma BuiltStrings(room: Room, more: Room)
    ensures Strings(Plus(room, more)) == Strings(room) + Strings(more)
    ensures Plus(room, more).bytes == room.bytes + more.bytes
  {
  }

  /** The rows behind the next one are linked below it. */
  lemma BuiltDirs(stem: Path, rows: seq<Row>, k: nat)
    requires k < |rows| && Linked(EndOf(stem, rows[..k]), rows[k..])
    ensures var dirs := EndOf(stem, rows[..k]);
            && rows[k].dir <= dirs
            && EndOf(stem, rows[..k + 1]) == Below(dirs, rows[k])
            && Linked(Below(dirs, rows[k]), rows[k + 1..])
  {
    var row, dirs := rows[k], EndOf(stem, rows[..k]);
    assert rows[..k + 1] == rows[..k] + [row];
    LinkedPlus(stem, rows[..k], [row]);
    assert EndOf(dirs, [row]) == Below(dirs, row) by { assert [row][1..] == []; }
    assert rows[k..] == [row] + rows[k + 1..];
    LinkedPlus(dirs, [row], rows[k + 1..]);
    LinkedFirst(dirs, row);
  }

  lemma BuiltNodes(c: Content, to: Content, nodes: seq<nat>, after: seq<nat>, dirs: Path, rows: seq<Row>, row: Row)
    requires Holds(c, rows) && Holds(to, rows + [row]) && Extends(c, to) && NodesOk(c, nodes, dirs)
    requires row.dir <= dirs && |row.dir| < |nodes|
    requires if row.entry.Directory?
             then Nodes(to) > Nodes(c) && NodePath(to, Nodes(c)) == PathOf(row) && after == nodes[..|row.dir| + 1] + [Nodes(c)]
             else after == nodes
    ensures NodesOk(to, after, Below(dirs, row))
  {
    hide OfKind, Part.Directories, Files, Symlinks;
    forall d | 0 <= d < |after|
      ensures after[d] < Nodes(to) && NodePath(to, after[d]) == Below(dirs, row)[..d]
    {
      if d < |nodes| && after[d] == nodes[d] {
        PathStays(c, to, nodes[d]);
      }
    }
  }

  lemma LinkedFirst(dirs: Path, row: Row)
    requires Linked(dirs, [row])
    ensures row.dir <= dirs
  {
  }

  lemma BuiltText(done: seq<Row>, row: Row)
    ensures LinesRoom(Strip(done + [row])) == Plus(LinesRoom(Strip(done)), EntryRoom(row.entry))
  {
    StripPlus(done, [row]);
    LinesRoomPlus(Strip(done), Strip([row]));
    assert Strip([row]) == [Line(|row.dir|, row.entry)] && [Line(|row.dir|, row.entry)][1..] == [];
    Rooms(EntryRoom(row.entry), NO_ROOM, NO_ROOM);
  }

  /** A row that does not fit the tables is one of a part that outgrows its indexes. */
  lemma RoomGrows(stem: Path, rows: seq<Row>, k: nat)
    requires k < |rows|
    ensures var now, next, all := LinesRoom(Strip(rows[..k])), EntryRoom(rows[k].entry), LinesRoom(Strip(rows));
            && now.bytes + next.bytes <= all.bytes
            && now.directories + next.directories <= all.directories
            && Strings(now) + Strings(next) <= Strings(all)
  {
    assert rows == (rows[..k] + [rows[k]]) + rows[k + 1..];
    StripPlus(rows[..k] + [rows[k]], rows[k + 1..]);
    LinesRoomPlus(Strip(rows[..k] + [rows[k]]), Strip(rows[k + 1..]));
    BuiltText(rows[..k], rows[k]);
  }

  /** How much of each kind is in the tables so far. */
  lemma BuiltSoFar(c: Content, nodes: seq<nat>, stem: Path, rows: seq<Row>, k: nat)
    requires Building(c, nodes, stem, rows, k)
    ensures k <= |rows|
    ensures var room := LinesRoom(Strip(rows[..k]));
            && |c.stem| == |stem| && |c.directories| == room.directories
            && Total(c.text) == Total(stem) + room.bytes && |c.text| == |stem| + Strings(room)
  {
    hide Strip, LinesRoom, Total, NodesOk, Linked, EndOf, OfKind, Strings;
    RoomOfRows(rows[..k]);
  }

  /** What a refused row says about the part. */
  lemma RefusedRow(c: Content, nodes: seq<nat>, stem: Path, rows: seq<Row>, k: nat, names: seq<Name>)
    requires Building(c, nodes, stem, rows, k) && k < |rows|
    requires Total(names) == EntryRoom(rows[k].entry).bytes && |names| == Strings(EntryRoom(rows[k].entry))
    requires Refuses(c.text, names) || (rows[k].entry.Directory? && Nodes(c) > U32_MAX)
    ensures Outgrows(stem, LinesRoom(Strip(rows)))
  {
    hide Strip, LinesRoom, Total, Building;
    BuiltSoFar(c, nodes, stem, rows, k);
    RoomGrows(stem, rows, k);
  }

  // ----- pushing rows

  /** Adds what a scan found in the directory that is open at `depth`. */
  method Push(part: TreePart, nodes: seq<nat>, item: Item, depth: nat, ghost stem: Path, ghost rows: seq<Row>, ghost k: nat)
    returns (ok: bool, directory: bool, after: seq<nat>)
    requires part.Valid() && Building(part.Value(), nodes, stem, rows, k) && depth < |nodes|
    requires item.Recorded? ==> k < |rows| && Strip(rows)[k] == Line(depth, item.entry)
    modifies part, part.tape
    ensures part.Valid()
    ensures ok ==> Building(part.Value(), after, stem, rows, if item.Recorded? then k + 1 else k)
    ensures ok ==> directory == IsDirectory(item) && |after| == if directory then depth + 2 else |nodes|
    ensures !ok ==> Outgrows(stem, LinesRoom(Strip(rows)))
  {
    hide Building, Holds, Consistent, NodesOk, Linked, Strip, LinesRoom, NodePath, Outgrows, Refuses, Total;
    var parent := nodes[depth];
    directory, after := false, nodes;
    ghost var c := part.Value();
    if item.Recorded? {
      NextRow(c, nodes, stem, rows, k, Line(depth, item.entry));
      BuildingHolds(c, nodes, stem, rows, k);
      NamesOf(rows[k].entry, c.text);
    }
    match item
    case Recorded(entry) =>
      match entry {
        case Directory(name, mtime, mode) =>
          var node := part.PushDirectory(parent, name, mtime, mode);
          ok := node.Some?;
          if ok {
            after := nodes[..depth + 1] + [node.value];
            directory := true;
            HoldsDirectory(c, rows[..k], parent, name, mtime, mode);
            BuiltMore(c, part.Value(), nodes, after, stem, rows, k);
          } else {
            RefusedRow(c, nodes, stem, rows, k, [name]);
          }
        case File(name, size, mtime, mode) =>
          ok := part.PushFile(parent, name, size, mtime, mode);
          if ok {
            HoldsFile(c, rows[..k], parent, name, size, mtime, mode);
            BuiltMore(c, part.Value(), nodes, after, stem, rows, k);
          } else {
            RefusedRow(c, nodes, stem, rows, k, [name]);
          }
        case Symlink(name, target, mtime, link) =>
          ok := part.PushSymlink(parent, name, target, mtime, link);
          if ok {
            HoldsSymlink(c, rows[..k], parent, name, target, mtime, link);
            BuiltMore(c, part.Value(), nodes, after, stem, rows, k);
          } else {
            RefusedRow(c, nodes, stem, rows, k, [name, target]);
          }
      }
    case Skipped(_, _) => ok := true;
    case Failed(_) => ok := true;
  }

  lemma BuildingHolds(c: Content, nodes: seq<nat>, stem: Path, rows: seq<Row>, k: nat)
    requires Building(c, nodes, stem, rows, k)
    ensures k <= |rows| && Holds(c, rows[..k])
  {
  }

  /** The strings of an entry, and a text with them behind it. */
  lemma NamesOf(entry: Entry, text: seq<Name>)
    ensures Total(text + [entry.name]) == Total(text) + |entry.name| && Total([entry.name]) == |entry.name|
    ensures entry.Symlink? ==>
              && Total([entry.name, entry.target]) == |entry.name| + |entry.target|
              && Total(text + [entry.name] + [entry.target]) == Total(text) + |entry.name| + |entry.target|
    ensures EntryRoom(entry).bytes == |entry.name| + (if entry.Symlink? then |entry.target| else 0)
    ensures Strings(EntryRoom(entry)) == if entry.Symlink? then 2 else 1
  {
    TotalFew(text, entry.name, if entry.Symlink? then entry.target else []);
    if entry.Symlink? {
      TotalFew(text + [entry.name], entry.target, []);
    }
  }

  /** Adds the rows of a range of one scan. */
  method PushRange(part: TreePart, nodes: seq<nat>, range: RowSource, ghost stem: Path, ghost rows: seq<Row>, ghost k: nat)
    returns (ok: bool, after: seq<nat>)
    requires part.Valid() && Building(part.Value(), nodes, stem, rows, k)
    requires range.Range? && SourceOk(range) && k + range.count <= |rows|
    requires SourceLines(range) == Strip(rows)[k..k + range.count]
    modifies part, part.tape
    ensures part.Valid()
    ensures ok ==> Building(part.Value(), after, stem, rows, k + range.count)
    ensures !ok ==> Outgrows(stem, LinesRoom(Strip(rows)))
  {
    hide Building, Consistent, NodesOk, Linked, Strip, LinesRoom, NodePath, Outgrows, ItemLines, Holds;
    after := nodes;
    ghost var done := k;
    ghost var end := k + range.count;
    StripLength(rows);
    FirstLine(range);
    NextRow(part.Value(), nodes, stem, rows, k, Strip(rows)[k]);
    for i := range.from to range.to
      invariant part.Valid() && k <= done <= end && Building(part.Value(), after, stem, rows, done)
      invariant range.depth < |after|
      invariant ItemLines(range.rows.items[i..range.to], range.depth) == Strip(rows)[done..end]
    {
      ghost var items := range.rows.items[i..range.to];
      assert items[0] == range.rows.items[i] && items[1..] == range.rows.items[i + 1..range.to];
      RangeStep(items, range.depth, Strip(rows), done, end);
      var directory;
      ok, directory, after := Push(part, after, range.rows.items[i], range.depth, stem, rows, done);
      if !ok {
        return;
      }
      if range.rows.items[i].Recorded? {
        done := done + 1;
      }
    }
    RangeEnd(range.rows.items, range.to, range.depth, Strip(rows), done, end);
    ok := true;
  }

  lemma StripLength(rows: seq<Row>)
    ensures |Strip(rows)| == |rows|
  {
  }

  /** The first item of what is left of a range, against the lines still to come. */
  lemma RangeStep(items: seq<Item>, depth: nat, lines: seq<Line>, done: nat, end: nat)
    requires items != [] && done <= end <= |lines| && ItemLines(items, depth) == lines[done..end]
    ensures items[0].Recorded? ==> done < end && lines[done] == Line(depth, items[0].entry) && ItemLines(items[1..], depth) == lines[done + 1..end]
    ensures !items[0].Recorded? ==> ItemLines(items[1..], depth) == lines[done..end]
  {
    var later := ItemLines(items[1..], depth);
    if items[0].Recorded? {
      assert lines[done..end] == [Line(depth, items[0].entry)] + later;
      assert lines[done] == lines[done..end][0];
      assert later == lines[done..end][1..];
    } else {
      assert lines[done..end] == [] + later == later;
    }
  }

  lemma RangeEnd(items: seq<Item>, to: nat, depth: nat, lines: seq<Line>, done: nat, end: nat)
    requires to <= |items| && done <= end <= |lines| && ItemLines(items[to..to], depth) == lines[done..end]
    ensures done == end
  {
    assert items[to..to] == [];
  }

  lemma FirstLine(source: RowSource)
    requires SourceOk(source)
    ensures SourceLines(source) != [] && SourceLines(source)[0].depth == source.depth
  {
    SourceLength(source);
    if source.Range? {
      ItemsDepth(source.rows.items[source.from..source.to], source.depth);
    }
  }

  // ----- unfolding a whole subtree

  /** How far one directory is read: in which scan, up to which item, and how deep its entries lie. */
  datatype Frame = Frame(scan: nat, next: nat, depth: nat)

  predicate FrameOk(frame: Frame, scans: seq<Scanned>) {
    && frame.scan < |scans| && ScannedOk(scans[frame.scan])
    && scans[frame.scan].start <= frame.next <= scans[frame.scan].end
  }

  function FrameItems(frame: Frame, scans: seq<Scanned>): seq<Item>
    requires FrameOk(frame, scans)
  {
    scans[frame.scan].rows.items[frame.next..scans[frame.scan].end]
  }

  /** The lines that the directories being read still give, innermost first, with `unread` scans left. */
  function Unfolds(open: seq<Frame>, scans: seq<Scanned>, unread: seq<Scanned>): Option<seq<Line>>
    requires forall i :: 0 <= i < |open| ==> FrameOk(open[i], scans)
  {
    if open == [] then if unread == [] then Some([]) else None
    else
      var top := open[|open| - 1];
      var p := ParseItems(FrameItems(top, scans), scans[top.scan].more.Some?, unread);
      if p.Broken? then None
      else
        var outer := Unfolds(open[..|open| - 1], scans, p.unread);
        if outer.None? then None else Some(Lines(top.depth, p.nodes) + outer.value)
  }

  /** How much there is left to look at in the scans being read. */
  function FramesWork(open: seq<Frame>, scans: seq<Scanned>): nat {
    if open == [] then 0
    else
      var top := open[|open| - 1];
      FramesWork(open[..|open| - 1], scans) + 1 + if FrameOk(top, scans) then |FrameItems(top, scans)| else 0
  }

  /** The frames of the directories being read fit the scans and the open directories. */
  ghost predicate FramesOk(open: seq<Frame>, scans: seq<Scanned>, depths: nat) {
    && (forall i :: 0 <= i < |open| ==> FrameOk(open[i], scans))
    && (forall i, j :: 0 <= i < j < |open| ==> open[i].depth < open[j].depth)
    && (open != [] ==> open[|open| - 1].depth < depths)
  }

  lemma UnfoldsTop(outer: seq<Frame>, top: Frame, scans: seq<Scanned>, unread: seq<Scanned>)
    requires FrameOk(top, scans) && forall i :: 0 <= i < |outer| ==> FrameOk(outer[i], scans)
    ensures forall i :: 0 <= i < |outer + [top]| ==> FrameOk((outer + [top])[i], scans)
    ensures var p := ParseItems(FrameItems(top, scans), scans[top.scan].more.Some?, unread);
            Unfolds(outer + [top], scans, unread)
            == if p.Broken? then None
               else if Unfolds(outer, scans, p.unread).None? then None
               else Some(Lines(top.depth, p.nodes) + Unfolds(outer, scans, p.unread).value)
    ensures FramesWork(outer + [top], scans) == FramesWork(outer, scans) + 1 + |FrameItems(top, scans)|
  {
    var open := outer + [top];
    assert open[..|open| - 1] == outer;
  }

  /** A scan is used up: the rest of the directory is the next unread scan, or there is none. */
  lemma UnfoldsEnd(outer: seq<Frame>, top: Frame, scans: seq<Scanned>, unread: nat, lines: seq<Line>)
    requires FrameOk(top, scans) && forall i :: 0 <= i < |outer| ==> FrameOk(outer[i], scans)
    requires FrameItems(top, scans) == [] && unread <= |scans| && forall i :: 0 <= i < |scans| ==> ScannedOk(scans[i])
    requires Unfolds(outer + [top], scans, scans[unread..]) == Some(lines)
    ensures scans[top.scan].more.Some? ==>
              && unread < |scans|
              && FrameOk(Frame(unread, scans[unread].start, top.depth), scans)
              && Unfolds(outer + [Frame(unread, scans[unread].start, top.depth)], scans, scans[unread + 1..]) == Some(lines)
    ensures scans[top.scan].more.None? ==> Unfolds(outer, scans, scans[unread..]) == Some(lines)
  {
    hide Unfolds, Lines;
    UnfoldsTop(outer, top, scans, scans[unread..]);
    if scans[top.scan].more.Some? {
      assert scans[unread..][1..] == scans[unread + 1..];
      var next := Frame(unread, scans[unread].start, top.depth);
      UnfoldsTop(outer, next, scans, scans[unread + 1..]);
    } else {
      NoLines(top.depth);
      assert forall more: seq<Line> :: [] + more == more;
    }
  }

  /** The next item is no directory: it gives its line, if any, and the rest follows. */
  lemma UnfoldsItem(outer: seq<Frame>, top: Frame, scans: seq<Scanned>, unread: seq<Scanned>, lines: seq<Line>)
    requires FrameOk(top, scans) && forall i :: 0 <= i < |outer| ==> FrameOk(outer[i], scans)
    requires FrameItems(top, scans) != [] && !IsDirectory(FrameItems(top, scans)[0])
    requires Unfolds(outer + [top], scans, unread) == Some(lines)
    ensures var item, next := FrameItems(top, scans)[0], top.(next := top.next + 1);
            && FrameOk(next, scans)
            && FramesWork(outer + [next], scans) < FramesWork(outer + [top], scans)
            && (item.Recorded? ==> lines != [] && lines[0] == Line(top.depth, item.entry))
            && Unfolds(outer + [next], scans, unread) == Some(if item.Recorded? then lines[1..] else lines)
  {
    hide Unfolds, FramesWork;
    var items, next := FrameItems(top, scans), top.(next := top.next + 1);
    assert FrameItems(next, scans) == items[1..];
    UnfoldsTop(outer, top, scans, unread);
    UnfoldsTop(outer, next, scans, unread);
    var p := ParseItems(items[1..], scans[top.scan].more.Some?, unread);
    LinesPlus(top.depth, Single(items[0]), p.nodes);
    SingleLines(items[0], top.depth);
    var later := Lines(top.depth, p.nodes) + Unfolds(outer, scans, p.unread).value;
    PlusAssociates(Lines(top.depth, Single(items[0])), Lines(top.depth, p.nodes), Unfolds(outer, scans, p.unread).value);
    assert lines == Lines(top.depth, Single(items[0])) + later;
    if !items[0].Recorded? {
      assert [] + later == later;
    }
  }

  lemma SingleLines(item: Item, depth: nat)
    requires !IsDirectory(item)
    ensures Lines(depth, Single(item)) == if item.Recorded? then [Line(depth, item.entry)] else []
  {
    if item.Recorded? {
      assert Single(item)[1..] == [];
    }
  }

  lemma ParsesStep(items: seq<Item>, more: bool, scans: seq<Scanned>)
    requires items != [] && IsDirectory(items[0])
    ensures var below := ParseDirectory(scans);
            && ParseItems(items, more, scans)
               == (if below.Broken? then Broken
                   else Prepend([Node(items[0].entry, below.nodes)], ParseItems(items[1..], more, below.unread)))
            && (below.Parsed? ==> scans != [] && below == ParseItems(ItemsOf(scans[0]), scans[0].more.Some?, scans[1..]))
  {
  }

  /** The line of a directory, what is below it and what comes after it, put together in two ways. */
  lemma LinesJoin(own: Line, below: seq<Line>, after: seq<Line>, outer: seq<Line>, lines: seq<Line>)
    requires lines == (([own] + below) + after) + outer
    ensures lines != [] && lines[0] == own && lines[1..] == below + (after + outer)
  {
  }

  /** The next item is a directory: its line, then what its own scans give, the next unread one first. */
  lemma UnfoldsDirectory(outer: seq<Frame>, top: Frame, scans: seq<Scanned>, unread: nat, lines: seq<Line>)
    requires FrameOk(top, scans) && forall i :: 0 <= i < |outer| ==> FrameOk(outer[i], scans)
    requires unread <= |scans| && forall i :: 0 <= i < |scans| ==> ScannedOk(scans[i])
    requires FrameItems(top, scans) != [] && IsDirectory(FrameItems(top, scans)[0])
    requires Unfolds(outer + [top], scans, scans[unread..]) == Some(lines)
    ensures unread < |scans|
    ensures var item, next := FrameItems(top, scans)[0], top.(next := top.next + 1);
            var below := Frame(unread, scans[unread].start, top.depth + 1);
            && FrameOk(next, scans) && FrameOk(below, scans)
            && lines != [] && lines[0] == Line(top.depth, item.entry)
            && Unfolds(outer + [next] + [below], scans, scans[unread + 1..]) == Some(lines[1..])
  {
    hide Unfolds, FramesWork, ParseItems, ParseDirectory, Lines;
    var items, next := FrameItems(top, scans), top.(next := top.next + 1);
    assert FrameItems(next, scans) == items[1..];
    UnfoldsTop(outer, top, scans, scans[unread..]);
    ParsesStep(items, scans[top.scan].more.Some?, scans[unread..]);
    var inner := ParseDirectory(scans[unread..]);
    assert scans[unread..][1..] == scans[unread + 1..];
    var below := Frame(unread, scans[unread].start, top.depth + 1);
    assert FrameItems(below, scans) == ItemsOf(scans[unread]);
    var p := ParseItems(items[1..], scans[top.scan].more.Some?, inner.unread);
    UnfoldsTop(outer, next, scans, inner.unread);
    UnfoldsTop(outer + [next], below, scans, scans[unread + 1..]);
    var node := Node(items[0].entry, inner.nodes);
    LinesPlus(top.depth, [node], p.nodes);
    NodeLines(node, top.depth);
    LinesJoin(Line(top.depth, items[0].entry), Lines(top.depth + 1, inner.nodes), Lines(top.depth, p.nodes),
              Unfolds(outer, scans, p.unread).value, lines);
  }

  lemma NodeLines(node: Node, depth: nat)
    ensures Lines(depth, [node]) == [Line(depth, node.entry)] + Lines(depth + 1, node.children)
  {
    assert [node][1..] == [];
  }

  lemma UnfoldsStart(scans: seq<Scanned>, depth: nat)
    requires Folds(scans)
    ensures scans != [] && FrameOk(Frame(0, scans[0].start, depth), scans)
    ensures Unfolds([Frame(0, scans[0].start, depth)], scans, scans[1..]) == Some(Lines(depth, Folded(scans)))
  {
    var first := Frame(0, scans[0].start, depth);
    assert FrameItems(first, scans) == ItemsOf(scans[0]);
    UnfoldsTop([], first, scans, scans[1..]);
    assert [] + [first] == [first];
    assert Unfolds([], scans, []) == Some([]);
    assert Lines(depth, Folded(scans)) + [] == Lines(depth, Folded(scans));
  }

  /** The directories being read give exactly `lines`, and no more than `depths` of them are open in the part. */
  ghost predicate Unfolding(open: seq<Frame>, scans: seq<Scanned>, unread: nat, depths: nat, lines: seq<Line>) {
    && FramesOk(open, scans, depths)
    && unread <= |scans|
    && (forall i :: 0 <= i < |scans| ==> ScannedOk(scans[i]))
    && Unfolds(open, scans, scans[unread..]) == Some(lines)
  }

  lemma FramesMore(outer: seq<Frame>, top: Frame, next: Frame, scans: seq<Scanned>, depths: nat)
    requires FramesOk(outer + [top], scans, depths) && FrameOk(next, scans) && next.depth == top.depth
    ensures FramesOk(outer + [next], scans, depths)
  {
    var open := outer + [next];
    assert forall i :: 0 <= i < |outer| ==> open[i] == (outer + [top])[i];
    assert (outer + [top])[|outer|] == top;
  }

  lemma FramesFewer(outer: seq<Frame>, top: Frame, scans: seq<Scanned>, depths: nat)
    requires FramesOk(outer + [top], scans, depths)
    ensures FramesOk(outer, scans, depths) && FrameOk(top, scans) && top.depth < depths
    ensures FramesWork(outer, scans) < FramesWork(outer + [top], scans)
  {
    assert forall i :: 0 <= i < |outer| ==> outer[i] == (outer + [top])[i];
    assert (outer + [top])[|outer|] == top;
    UnfoldsTop(outer, top, scans, []);
  }

  /** After a directory is entered the part has one open directory below its depth and no more. */
  lemma FramesEnter(outer: seq<Frame>, top: Frame, next: Frame, below: Frame, scans: seq<Scanned>, depths: nat)
    requires FramesOk(outer + [top], scans, depths) && FrameOk(next, scans) && FrameOk(below, scans)
    requires next.depth == top.depth && below.depth == top.depth + 1
    ensures FramesOk(outer + [next] + [below], scans, top.depth + 2)
  {
    FramesMore(outer, top, next, scans, depths);
    var open := outer + [next];
    assert open[|outer|] == next;
    forall i | 0 <= i < |open|
      ensures open[i].depth < below.depth
    {
    }
  }

  /** The top frame of the directories being read. */
  lemma TopFrame(open: seq<Frame>, scans: seq<Scanned>, unread: nat, depths: nat, lines: seq<Line>)
    requires Unfolding(open, scans, unread, depths, lines)
    ensures unread <= |scans|
    ensures open != [] ==> FrameOk(open[|open| - 1], scans) && open[|open| - 1].depth < depths
  {
    hide Unfolds, ScannedOk;
  }

  /** The top scan is used up: its rest is read on, or its directory is done. */
  lemma StepEnd(outer: seq<Frame>, top: Frame, scans: seq<Scanned>, unread: nat, depths: nat, lines: seq<Line>)
    requires Unfolding(outer + [top], scans, unread, depths, lines) && FrameOk(top, scans) && top.next == scans[top.scan].end
    ensures scans[top.scan].more.Some? ==>
              unread < |scans| && Unfolding(outer + [Frame(unread, scans[unread].start, top.depth)], scans, unread + 1, depths, lines)
    ensures scans[top.scan].more.None? ==>
              Unfolding(outer, scans, unread, depths, lines) && FramesWork(outer, scans) < FramesWork(outer + [top], scans)
  {
    hide FramesOk;
    hide Unfolds, FramesWork;
    FramesFewer(outer, top, scans, depths);
    UnfoldsEnd(outer, top, scans, unread, lines);
    if scans[top.scan].more.Some? {
      FramesMore(outer, top, Frame(unread, scans[unread].start, top.depth), scans, depths);
    }
  }

  /** The top scan has one more item: what it gives, and what follows when it was pushed. */
  lemma StepItem(outer: seq<Frame>, top: Frame, scans: seq<Scanned>, unread: nat, depths: nat, lines: seq<Line>)
    requires Unfolding(outer + [top], scans, unread, depths, lines) && FrameOk(top, scans) && top.next < scans[top.scan].end
    ensures var item, next := scans[top.scan].rows.items[top.next], top.(next := top.next + 1);
            && (item.Recorded? ==> lines != [] && lines[0] == Line(top.depth, item.entry))
            && (IsDirectory(item) ==>
                  && unread < |scans|
                  && Unfolding(outer + [next] + [Frame(unread, scans[unread].start, top.depth + 1)], scans, unread + 1, top.depth + 2, lines[1..]))
            && (!IsDirectory(item) ==>
                  && Unfolding(outer + [next], scans, unread, depths, if item.Recorded? then lines[1..] else lines)
                  && FramesWork(outer + [next], scans) < FramesWork(outer + [top], scans))
  {
    hide Unfolds, FramesWork;
    var item, next := scans[top.scan].rows.items[top.next], top.(next := top.next + 1);
    FramesFewer(outer, top, scans, depths);
    FramesMore(outer, top, next, scans, depths);
    assert FrameItems(top, scans)[0] == item;
    if IsDirectory(item) {
      UnfoldsDirectory(outer, top, scans, unread, lines);
      FramesEnter(outer, top, next, Frame(unread, scans[unread].start, top.depth + 1), scans, depths);
    } else {
      UnfoldsItem(outer, top, scans, scans[unread..], lines);
    }
  }

  /** What the rows still to come start with. */
  lemma NextLine(rows: seq<Row>, done: nat, end: nat)
    requires done <= end <= |rows| && Strip(rows)[done..end] != []
    ensures done < end
    ensures Strip(rows)[done..end][0] == Strip(rows)[done]
    ensures Strip(rows)[done..end][1..] == Strip(rows)[done + 1..end]
  {
  }

  /** Adds the rows of a whole subtree, its scans being in the order the walk enters their directories. */
  method Unfold(part: TreePart, nodes: seq<nat>, subtree: RowSource, ghost stem: Path, ghost rows: seq<Row>, ghost k: nat)
    returns (ok: bool, after: seq<nat>)
    requires part.Valid() && Building(part.Value(), nodes, stem, rows, k)
    requires subtree.Subtree? && SourceOk(subtree) && k + subtree.count <= |rows|
    requires SourceLines(subtree) == Strip(rows)[k..k + subtree.count]
    modifies part, part.tape
    ensures part.Valid()
    ensures ok ==> Building(part.Value(), after, stem, rows, k + subtree.count)
    ensures !ok ==> Outgrows(stem, LinesRoom(Strip(rows)))
  {
    hide Building, Consistent, NodesOk, Linked, Strip, LinesRoom, NodePath, Outgrows, Lines, Holds, Unfolds, Unfolding, FramesWork,
         FramesOk, Folds, Folded, CountAll;
    after := nodes;
    ghost var done := k;
    ghost var end := k + subtree.count;
    var scans := subtree.scans;
    StripLength(rows);
    FirstLine(subtree);
    NextLine(rows, k, end);
    NextRow(part.Value(), nodes, stem, rows, k, Strip(rows)[k]);
    UnfoldingStart(scans, subtree.depth, |nodes|);
    var open := [Frame(0, scans[0].start, subtree.depth)];
    var unread := 1;
    while open != []
      invariant part.Valid() && k <= done <= end && Building(part.Value(), after, stem, rows, done)
      invariant Unfolding(open, scans, unread, |after|, Strip(rows)[done..end])
      decreases |scans| - unread, FramesWork(open, scans)
    {
      var top := open[|open| - 1];
      var outer := open[..|open| - 1];
      ghost var lines := Strip(rows)[done..end];
      assert open == outer + [top];
      TopFrame(open, scans, unread, |after|, lines);
      var scanned := scans[top.scan];
      if top.next == scanned.end {
        StepEnd(outer, top, scans, unread, |after|, lines);
        if scanned.more.Some? {
          open := outer + [Frame(unread, scans[unread].start, top.depth)];
          unread := unread + 1;
        } else {
          open := outer;
        }
      } else {
        var item := scanned.rows.items[top.next];
        StepItem(outer, top, scans, unread, |after|, lines);
        if item.Recorded? {
          NextLine(rows, done, end);
        }
        var directory;
        ok, directory, after := Push(part, after, item, top.depth, stem, rows, done);
        if !ok {
          return;
        }
        if item.Recorded? {
          done := done + 1;
        }
        open := outer + [top.(next := top.next + 1)];
        if directory {
          open := open + [Frame(unread, scans[unread].start, top.depth + 1)];
          unread := unread + 1;
        }
      }
    }
    UnfoldingDone(scans, unread, |after|, Strip(rows)[done..end]);
    ok := true;
  }

  lemma UnfoldingStart(scans: seq<Scanned>, depth: nat, depths: nat)
    requires Folds(scans) && depth < depths
    ensures scans != []
    ensures Unfolding([Frame(0, scans[0].start, depth)], scans, 1, depths, Lines(depth, Folded(scans)))
  {
    UnfoldsStart(scans, depth);
  }

  /** All scans have been read, and all lines are pushed. */
  lemma UnfoldingDone(scans: seq<Scanned>, unread: nat, depths: nat, lines: seq<Line>)
    requires Unfolding([], scans, unread, depths, lines)
    ensures lines == [] && unread == |scans|
  {
  }

  // ----- the whole part

  lemma TotalFirst(names: seq<Name>, i: nat)
    requires i < |names|
    ensures names[..i + 1] == names[..i] + [names[i]]
    ensures Total(names[..i + 1]) == Total(names[..i]) + |names[i]|
    ensures Total(names[..i + 1]) <= Total(names)
    decreases |names| - i
  {
    assert names[..i + 1][..i] == names[..i];
    if i + 1 < |names| {
      TotalFirst(names, i + 1);
    } else {
      assert names[..i + 1] == names;
    }
  }

  function Ids(n: nat): seq<nat> {
    seq(n, i requires 0 <= i < n => i as nat)
  }

  /** A part of a stem and nothing else. */
  ghost predicate StemOnly(c: Content, stem: Path) {
    && c.directories == [] && c.files == [] && c.symlinks == []
    && c.text == stem && c.stem == Ids(|stem|)
  }

  lemma StemMore(c: Content, stem: Path, name: Name)
    requires StemOnly(c, stem)
    ensures StemOnly(WithStem(c, name), stem + [name])
  {
  }

  lemma StemBuilt(c: Content, cut: CutList, rows: seq<Row>)
    requires Means(cut, rows) && StemOnly(c, cut.stem)
    ensures Building(c, Ids(|cut.stem| + 1), cut.stem, rows, 0)
  {
    assert rows[..0] == [] && rows[0..] == rows;
    forall d | 0 <= d < |cut.stem| + 1
      ensures NodePath(c, d) == cut.stem[..d]
    {
      StemPaths(c, cut.stem, d);
    }
  }

  lemma StemRefused(stem: Path, i: nat, rows: seq<Row>)
    requires i < |stem| && Refuses(stem[..i], [stem[i]])
    ensures Outgrows(stem, LinesRoom(Strip(rows)))
  {
    TotalFirst(stem, i);
    TotalFew([], stem[i], []);
  }

  /** The next source gives the lines of the next rows. */
  lemma NextSource(sources: seq<RowSource>, i: nat, rows: seq<Row>, done: nat)
    requires SourcesOk(sources) && i < |sources| && done <= |rows|
    requires Flat(sources[i..]) == Strip(rows)[done..]
    ensures done + sources[i].count <= |rows|
    ensures SourceLines(sources[i]) == Strip(rows)[done..done + sources[i].count]
    ensures Flat(sources[i + 1..]) == Strip(rows)[done + sources[i].count..]
  {
    assert sources[i..][0] == sources[i] && sources[i..][1..] == sources[i + 1..];
    SourceLength(sources[i]);
    var lines := Strip(rows)[done..];
    assert lines == SourceLines(sources[i]) + Flat(sources[i + 1..]);
    assert SourceLines(sources[i]) == lines[..sources[i].count];
    assert Flat(sources[i + 1..]) == lines[sources[i].count..];
  }

  lemma AllBuilt(c: Content, nodes: seq<nat>, stem: Path, rows: seq<Row>, done: nat, sources: seq<RowSource>)
    requires Building(c, nodes, stem, rows, done)
    requires Flat(sources[|sources|..]) == Strip(rows)[done..]
    ensures Holds(c, rows) && StemIs(c, stem)
    ensures Total(c.text) == Total(stem) + LinesRoom(Strip(rows)).bytes
    ensures |c.text| == |stem| + Strings(LinesRoom(Strip(rows)))
  {
    hide Holds, StemIs, Consistent, NodesOk, Linked;
    assert sources[|sources|..] == [];
    assert |Strip(rows)[done..]| == |rows| - done;
    assert rows[..done] == rows;
  }

  /** Puts the directories above the first row into an empty part. */
  method AddStem(part: TreePart, stem: Path, ghost rows: seq<Row>) returns (ok: bool)
    requires part.Valid() && part.Value() == Content([], [], [], [], [])
    modifies part`stem, part.tape
    ensures part.Valid()
    ensures ok ==> StemOnly(part.Value(), stem)
    ensures !ok ==> Outgrows(stem, LinesRoom(Strip(rows)))
  {
    hide Consistent, Strip, LinesRoom, Outgrows, StemOnly, Refuses, Addressable, Total;
    StemNone(part.Value(), stem);
    for i := 0 to |stem|
      invariant part.Valid() && part.directories == []
      invariant StemOnly(part.Value(), stem[..i])
    {
      TotalFirst(stem, i);
      StemMore(part.Value(), stem[..i], stem[i]);
      StemText(part.Value(), stem[..i]);
      ok := part.PushStem(stem[i]);
      if !ok {
        StemRefused(stem, i, rows);
        return;
      }
    }
    assert stem[..|stem|] == stem;
    ok := true;
  }

  /**
   * Builds the part that a cut list stands for. The room is counted before the part is built; what is built
   * takes exactly that room.
   */
  method Assemble(cut: CutList, ghost rows: seq<Row>) returns (ok: bool, part: TreePart, room: Room)
    requires Means(cut, rows)
    ensures fresh(part) && fresh(part.tape) && part.Valid()
    ensures ok ==> Holds(part.Value(), rows) && StemIs(part.Value(), cut.stem)
    ensures ok ==>
              && room.directories == |part.directories| && room.files == |part.files| && room.symlinks == |part.symlinks|
              && room.bytes == Total(part.Value().text)
              && |cut.stem| + Strings(room) == |part.Value().text|
    ensures ok ==> EstimateOf(part.Value()) == Bytes(rows) + Total(cut.stem)
    ensures ok <==> !Outgrows(cut.stem, LinesRoom(Strip(rows)))
  {
    hide EstimateOf, Bytes, Building, Consistent, NodesOk, Linked, Strip, LinesRoom, NodePath, Outgrows, Holds, StemIs, Lines,
         Folded, SourceOk, StemOnly, Flat, EndOf, Refuses, Addressable, Total;
    var sources := cut.sources;
    room := CountRoom(cut.stem, sources);
    part := new TreePart();
    ok := AddStem(part, cut.stem, rows);
    if !ok {
      return;
    }
    var nodes := Ids(|cut.stem| + 1);
    StemBuilt(part.Value(), cut, rows);
    ghost var done: nat := 0;
    StripLength(rows);
    assert sources[0..] == sources && Strip(rows)[0..] == Strip(rows);
    for i := 0 to |sources|
      invariant fresh(part) && fresh(part.tape) && part.Valid()
      invariant done <= |rows| && Building(part.Value(), nodes, cut.stem, rows, done)
      invariant Flat(sources[i..]) == Strip(rows)[done..]
    {
      NextSource(sources, i, rows, done);
      if sources[i].Range? {
        ok, nodes := PushRange(part, nodes, sources[i], cut.stem, rows, done);
      } else {
        ok, nodes := Unfold(part, nodes, sources[i], cut.stem, rows, done);
      }
      if !ok {
        return;
      }
      done := done + sources[i].count;
    }
    AllBuilt(part.Value(), nodes, cut.stem, rows, done, sources);
    TablesTakeTheRoom(part.Value(), rows);
    NotOutgrown(part.Value(), cut.stem, rows);
    EstimateIsWhatTheWalkAdded(part.Value(), cut.stem, rows);
    ok := true;
  }

  /** A part that could be built does not outgrow its indexes. */
  lemma NotOutgrown(c: Content, stem: Path, rows: seq<Row>)
    requires Holds(c, rows) && StemIs(c, stem) && Addressable(c)
    requires Total(c.text) == Total(stem) + LinesRoom(Strip(rows)).bytes
    requires |c.text| == |stem| + Strings(LinesRoom(Strip(rows)))
    ensures !Outgrows(stem, LinesRoom(Strip(rows)))
  {
    TablesTakeTheRoom(c, rows);
  }

  lemma StemNone(c: Content, stem: Path)
    requires c == Content([], [], [], [], [])
    ensures StemOnly(c, stem[..0])
  {
  }

  lemma StemText(c: Content, stem: Path)
    requires StemOnly(c, stem)
    ensures c.text == stem && c.directories == [] && c.files == [] && c.symlinks == []
  {
  }

  lemma TablesTakeTheRoom(c: Content, rows: seq<Row>)
    requires Holds(c, rows)
    ensures var room := LinesRoom(Strip(rows));
            room.directories == |c.directories| && room.files == |c.files| && room.symlinks == |c.symlinks|
  {
    RoomOfRows(rows);
  }

  /** The estimates of some rows, by what they take. */
  lemma {:induction false} EstimatesByRoom(rows: seq<Row>)
    ensures var room := LinesRoom(Strip(rows));
            Bytes(rows) == DIRECTORY_ROW * room.directories + FILE_ROW * room.files + SYMLINK_ROW * room.symlinks + room.bytes
    decreases |rows|
  {
    if rows != [] {
      EstimatesByRoom(rows[1..]);
      BuiltText([], rows[0]);
      assert Strip(rows)[1..] == Strip(rows[1..]);
    }
  }

  /**
   * The estimate of a part is what the walk added up for its rows, and the text of the stem, exactly if the part's
   * text is that of its stem and its rows; a target that was refused leaves its link's name behind.
   */
  lemma EstimateIsWhatTheWalkAdded(c: Content, stem: Path, rows: seq<Row>)
    requires Holds(c, rows)
    ensures EstimateOf(c) == Bytes(rows) + Total(stem) <==> Total(c.text) == Total(stem) + LinesRoom(Strip(rows)).bytes
  {
    TablesTakeTheRoom(c, rows);
    EstimatesByRoom(rows);
  }
}
