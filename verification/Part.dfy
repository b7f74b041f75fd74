/**
 * One part of a walk: three tables of rows, one per kind. A row stores the node id of its parent
 * directory and the index of its name, and node ids lead back to its path.
 */
module Part {
  import opened Tree
  import opened Tape
  import opened Order
  import opened Sorting

  datatype FileRow = FileRow(parent: nat, name: nat, size: nat, mtime: Option<Timestamp>, mode: nat)
  datatype DirectoryRow = DirectoryRow(parent: nat, name: nat, mtime: Option<Timestamp>, mode: nat)
  datatype SymlinkRow = SymlinkRow(parent: nat, name: nat, target: nat, mtime: Option<Timestamp>, directory: Option<bool>)

  /** What a part holds. Node 0 is the root, then the stem, then the directory rows. */
  datatype Content = Content(
    text: seq<Name>,
    stem: seq<nat>,
    directories: seq<DirectoryRow>,
    files: seq<FileRow>,
    symlinks: seq<SymlinkRow>)

  function Nodes(c: Content): nat {
    1 + |c.stem| + |c.directories|
  }

  /** Every index is of this part, and every directory comes after the one that holds it. */
  predicate Consistent(c: Content) {
    && (forall i :: 0 <= i < |c.stem| ==> c.stem[i] < |c.text|)
    && (forall i :: 0 <= i < |c.directories| ==>
          c.directories[i].parent < 1 + |c.stem| + i && c.directories[i].name < |c.text|)
    && (forall i :: 0 <= i < |c.files| ==> c.files[i].parent < Nodes(c) && c.files[i].name < |c.text|)
    && (forall i :: 0 <= i < |c.symlinks| ==>
          c.symlinks[i].parent < Nodes(c) && c.symlinks[i].name < |c.text| && c.symlinks[i].target < |c.text|)
  }

  /** The node that holds node `node`, which has a smaller id, and the node's own name. */
  function Up(c: Content, node: nat): (up: (nat, Name))
    requires Consistent(c) && 0 < node < Nodes(c)
    ensures up.0 < node
  {
    if node <= |c.stem| then (node - 1, c.text[c.stem[node - 1]])
    else
      var row := c.directories[node - |c.stem| - 1];
      (row.parent, c.text[row.name])
  }

  /** The path of the directory with id `node`. */
  function NodePath(c: Content, node: nat): Path
    requires Consistent(c) && node < Nodes(c)
    decreases node
  {
    if node == 0 then [] else NodePath(c, Up(c, node).0) + [Up(c, node).1]
  }

  // ----- the rows a content stands for, table by table

  function DirectoryOf(c: Content, i: nat): Row
    requires Consistent(c) && i < |c.directories|
  {
    var row := c.directories[i];
    Row(NodePath(c, row.parent), Entry.Directory(c.text[row.name], row.mtime, row.mode))
  }

  function FileOf(c: Content, i: nat): Row
    requires Consistent(c) && i < |c.files|
  {
    var row := c.files[i];
    Row(NodePath(c, row.parent), Entry.File(c.text[row.name], row.size, row.mtime, row.mode))
  }

  function SymlinkOf(c: Content, i: nat): Row
    requires Consistent(c) && i < |c.symlinks|
  {
    var row := c.symlinks[i];
    Row(NodePath(c, row.parent), Entry.Symlink(c.text[row.name], c.text[row.target], row.mtime, row.directory))
  }

  function Directories(c: Content): seq<Row>
    requires Consistent(c)
  {
    seq(|c.directories|, i requires 0 <= i < |c.directories| => DirectoryOf(c, i))
  }

  function Files(c: Content): seq<Row>
    requires Consistent(c)
  {
    seq(|c.files|, i requires 0 <= i < |c.files| => FileOf(c, i))
  }

  function Symlinks(c: Content): seq<Row>
    requires Consistent(c)
  {
    seq(|c.symlinks|, i requires 0 <= i < |c.symlinks| => SymlinkOf(c, i))
  }

  /** The rows of one kind, in order. */
  function OfKind(rows: seq<Row>, kind: Kind): seq<Row> {
    if rows == [] then []
    else (if KindOf(rows[0].entry) == kind then [rows[0]] else []) + OfKind(rows[1..], kind)
  }

  datatype Kind = AFile | ADirectory | ASymlink

  function KindOf(entry: Entry): Kind {
    match entry
    case File(_, _, _, _) => AFile
    case Directory(_, _, _) => ADirectory
    case Symlink(_, _, _, _) => ASymlink
  }

  /** The three tables hold exactly `rows`, each kind in the order of `rows`, every row with its path. */
  ghost predicate Holds(c: Content, rows: seq<Row>) {
    && Consistent(c)
    && Directories(c) == OfKind(rows, ADirectory)
    && Files(c) == OfKind(rows, AFile)
    && Symlinks(c) == OfKind(rows, ASymlink)
  }

  // ----- appending a row

  function WithStem(c: Content, name: Name): Content {
    c.(text := c.text + [name], stem := c.stem + [|c.text|])
  }

  function WithDirectory(c: Content, parent: nat, name: Name, mtime: Option<Timestamp>, mode: nat): Content {
    c.(text := c.text + [name], directories := c.directories + [DirectoryRow(parent, |c.text|, mtime, mode)])
  }

  function WithFile(c: Content, parent: nat, name: Name, size: nat, mtime: Option<Timestamp>, mode: nat): Content {
    c.(text := c.text + [name], files := c.files + [FileRow(parent, |c.text|, size, mtime, mode)])
  }

  function WithSymlink(c: Content, parent: nat, name: Name, target: Name, mtime: Option<Timestamp>, directory: Option<bool>): Content {
    c.(text := c.text + [name] + [target],
       symlinks := c.symlinks + [SymlinkRow(parent, |c.text|, |c.text| + 1, mtime, directory)])
  }

  /** `to` holds everything `c` holds under the same ids. */
  ghost predicate Extends(c: Content, to: Content) {
    && c.text <= to.text && c.stem == to.stem && c.directories <= to.directories
    && c.files <= to.files && c.symlinks <= to.symlinks
  }

  /** Appending moves no node. */
  lemma {:induction false} PathStays(c: Content, to: Content, node: nat)
    requires Consistent(c) && Consistent(to) && Extends(c, to) && node < Nodes(c)
    ensures NodePath(to, node) == NodePath(c, node)
    decreases node
  {
    if node > 0 {
      assert Up(to, node) == Up(c, node);
      PathStays(c, to, Up(c, node).0);
    }
  }

  lemma TablesStay(c: Content, to: Content)
    requires Consistent(c) && Consistent(to) && Extends(c, to)
    ensures Directories(c) <= Directories(to) && Files(c) <= Files(to) && Symlinks(c) <= Symlinks(to)
  {
    forall i | 0 <= i < |c.directories|
      ensures DirectoryOf(to, i) == DirectoryOf(c, i)
    {
      PathStays(c, to, c.directories[i].parent);
    }
    forall i | 0 <= i < |c.files|
      ensures FileOf(to, i) == FileOf(c, i)
    {
      PathStays(c, to, c.files[i].parent);
    }
    forall i | 0 <= i < |c.symlinks|
      ensures SymlinkOf(to, i) == SymlinkOf(c, i)
    {
      PathStays(c, to, c.symlinks[i].parent);
    }
  }

  lemma {:induction false} OfKindPlus(a: seq<Row>, b: seq<Row>, kind: Kind)
    ensures OfKind(a + b, kind) == OfKind(a, kind) + OfKind(b, kind)
    decreases |a|
  {
    if a == [] {
      assert a + b == b;
    } else {
      assert (a + b)[1..] == a[1..] + b;
      OfKindPlus(a[1..], b, kind);
      PlusAssociates(if KindOf(a[0].entry) == kind then [a[0]] else [], OfKind(a[1..], kind), OfKind(b, kind));
    }
  }

  /** A row pushed under the node of its directory is the last row held. */
  lemma HoldsMore(c: Content, to: Content, rows: seq<Row>, row: Row)
    requires Holds(c, rows) && Consistent(to) && Extends(c, to)
    requires Directories(to) == Directories(c) + (if KindOf(row.entry) == ADirectory then [row] else [])
    requires Files(to) == Files(c) + (if KindOf(row.entry) == AFile then [row] else [])
    requires Symlinks(to) == Symlinks(c) + (if KindOf(row.entry) == ASymlink then [row] else [])
    ensures Holds(to, rows + [row])
  {
    OfKindPlus(rows, [row], ADirectory);
    OfKindPlus(rows, [row], AFile);
    OfKindPlus(rows, [row], ASymlink);
    assert [row][1..] == [];
  }

  lemma HoldsDirectory(c: Content, rows: seq<Row>, parent: nat, name: Name, mtime: Option<Timestamp>, mode: nat)
    requires Holds(c, rows) && parent < Nodes(c)
    ensures var to := WithDirectory(c, parent, name, mtime, mode);
            var row := Row(NodePath(c, parent), Entry.Directory(name, mtime, mode));
            && Extends(c, to) && Holds(to, rows + [row])
            && Nodes(to) == Nodes(c) + 1 && NodePath(to, Nodes(c)) == PathOf(row)
  {
    var to := WithDirectory(c, parent, name, mtime, mode);
    var row := Row(NodePath(c, parent), Entry.Directory(name, mtime, mode));
    TablesStay(c, to);
    PathStays(c, to, parent);
    assert DirectoryOf(to, |c.directories|) == row;
    assert Directories(to) == Directories(c) + [row];
    assert Files(to) == Files(c) && Symlinks(to) == Symlinks(c);
    HoldsMore(c, to, rows, row);
  }

  lemma HoldsConsistent(c: Content, rows: seq<Row>)
    requires Holds(c, rows)
    ensures Consistent(c)
  {
  }

  lemma HoldsFile(c: Content, rows: seq<Row>, parent: nat, name: Name, size: nat, mtime: Option<Timestamp>, mode: nat)
    requires Holds(c, rows) && parent < Nodes(c)
    ensures var to := WithFile(c, parent, name, size, mtime, mode);
            Extends(c, to) && Holds(to, rows + [Row(NodePath(c, parent), Entry.File(name, size, mtime, mode))])
  {
    hide Consistent, Holds, NodePath, Addressable;
    HoldsConsistent(c, rows);
    ConsistentFile(c, parent, name, size, mtime, mode);
    var to := WithFile(c, parent, name, size, mtime, mode);
    var row := Row(NodePath(c, parent), Entry.File(name, size, mtime, mode));
    TablesStay(c, to);
    PathStays(c, to, parent);
    assert FileOf(to, |c.files|) == row;
    assert Files(to) == Files(c) + [row];
    assert Directories(to) == Directories(c) && Symlinks(to) == Symlinks(c);
    HoldsMore(c, to, rows, row);
  }

  lemma HoldsSymlink(c: Content, rows: seq<Row>, parent: nat, name: Name, target: Name, mtime: Option<Timestamp>, directory: Option<bool>)
    requires Holds(c, rows) && parent < Nodes(c)
    ensures var to := WithSymlink(c, parent, name, target, mtime, directory);
            Extends(c, to) && Holds(to, rows + [Row(NodePath(c, parent), Entry.Symlink(name, target, mtime, directory))])
  {
    hide Consistent, Holds, NodePath, Addressable;
    HoldsConsistent(c, rows);
    ConsistentSymlink(c, parent, name, target, mtime, directory);
    var to := WithSymlink(c, parent, name, target, mtime, directory);
    var row := Row(NodePath(c, parent), Entry.Symlink(name, target, mtime, directory));
    TablesStay(c, to);
    PathStays(c, to, parent);
    assert SymlinkOf(to, |c.symlinks|) == row;
    assert Symlinks(to) == Symlinks(c) + [row];
    assert Directories(to) == Directories(c) && Files(to) == Files(c);
    HoldsMore(c, to, rows, row);
  }

  /** The nodes of a stem are its prefixes. */
  lemma {:induction false} StemPaths(c: Content, stem: Path, node: nat)
    requires Consistent(c) && |stem| == |c.stem| && forall i :: 0 <= i < |stem| ==> c.text[c.stem[i]] == stem[i]
    requires node <= |stem|
    ensures NodePath(c, node) == stem[..node]
    decreases node
  {
    if node > 0 {
      StemPaths(c, stem, node - 1);
    }
  }

  /** One of `more` does not go into a tape that holds `text`: an index or the length passes a `u32`. */
  predicate Refuses(text: seq<Name>, more: seq<Name>) {
    |text| + |more| > U32_MAX + 1 || Total(text) + Total(more) > U32_MAX
  }

  /** Every index, the length of the text and every directory's node id fits a `u32`. */
  predicate Addressable(c: Content) {
    && |c.text| <= U32_MAX + 1 && Total(c.text) <= U32_MAX
    && (c.directories != [] ==> |c.stem| + |c.directories| <= U32_MAX)
  }

  lemma ConsistentText(c: Content, name: Name)
    requires Consistent(c)
    ensures Consistent(c.(text := c.text + [name]))
  {
  }

  lemma ConsistentStem(c: Content, name: Name)
    requires Consistent(c) && c.directories == []
    ensures Consistent(WithStem(c, name))
  {
  }

  lemma ConsistentDirectory(c: Content, parent: nat, name: Name, mtime: Option<Timestamp>, mode: nat)
    requires Consistent(c) && parent < Nodes(c)
    ensures Consistent(WithDirectory(c, parent, name, mtime, mode))
  {
  }

  lemma ConsistentFile(c: Content, parent: nat, name: Name, size: nat, mtime: Option<Timestamp>, mode: nat)
    requires Consistent(c) && parent < Nodes(c)
    ensures Consistent(WithFile(c, parent, name, size, mtime, mode))
  {
  }

  /** The two strings of a symlink, one after the other. */
  lemma SymlinkFits(c: Content, parent: nat, name: Name, target: Name, mtime: Option<Timestamp>, directory: Option<bool>)
    requires Consistent(c) && Addressable(c) && parent < Nodes(c)
    ensures var first := |c.text| <= U32_MAX && Total(c.text) + |name| <= U32_MAX;
            var later := c.text + [name];
            var second := |later| <= U32_MAX && Total(later) + |target| <= U32_MAX;
            && (first ==> Consistent(c.(text := later)) && Addressable(c.(text := later)))
            && (first && second ==>
                  var to := WithSymlink(c, parent, name, target, mtime, directory);
                  Consistent(to) && Addressable(to))
            && (Refuses(c.text, [name, target]) <==> !(first && second))
  {
    hide Consistent, Total;
    ConsistentText(c, name);
    ConsistentSymlink(c, parent, name, target, mtime, directory);
    TotalFew(c.text, name, target);
    TotalFew(c.text + [name], target, []);
  }

  lemma ConsistentSymlink(c: Content, parent: nat, name: Name, target: Name, mtime: Option<Timestamp>, directory: Option<bool>)
    requires Consistent(c) && parent < Nodes(c)
    ensures Consistent(WithSymlink(c, parent, name, target, mtime, directory))
  {
  }

  lemma TotalFew(text: seq<Name>, a: Name, b: Name)
    ensures Total([a]) == |a| && Total([a, b]) == |a| + |b| && Total(text + [a]) == Total(text) + |a|
  {
    assert [a][..0] == [] && [a, b][..1] == [a] && (text + [a])[..|text|] == text;
  }

  function EstimateOf(c: Content): nat {
    DIRECTORY_ROW * |c.directories| + FILE_ROW * |c.files| + SYMLINK_ROW * |c.symlinks| + Total(c.text)
  }

  // ----- every entry, in walk order

  datatype Found = Found(path: seq<Byte>, kind: Kind)

  /** Rows as a reader of the part sees them. */
  function Shown(rows: seq<Row>): seq<Found> {
    seq(|rows|, i requires 0 <= i < |rows| => Found(Slashed(PathOf(rows[i])), KindOf(rows[i].entry)))
  }

  /** Table after table. */
  function Collected(c: Content): seq<Found>
    requires Consistent(c)
  {
    Shown(Directories(c)) + Shown(Files(c)) + Shown(Symlinks(c))
  }

  predicate NotAfter(left: Found, right: Found) {
    WalkOrder(left.path, right.path) != Greater
  }

  function Sorted(all: seq<Found>): seq<Found> {
    SortedBy(all, NotAfter)
  }

  function Earlier(left: Option<seq<Byte>>, right: Option<seq<Byte>>): Option<seq<Byte>> {
    if left.None? then right
    else if right.Some? && WalkOrder(right.value, left.value) == Less then right
    else left
  }

  function FirstOf(found: seq<Found>): Option<seq<Byte>> {
    if found == [] then None else Some(found[0].path)
  }

  /** The earliest of the first rows of the three tables. */
  function FirstPathOf(c: Content): Option<seq<Byte>>
    requires Consistent(c)
  {
    Earlier(Earlier(FirstOf(Shown(Directories(c))), FirstOf(Shown(Files(c)))), FirstOf(Shown(Symlinks(c))))
  }

  // ----- the part itself

  class TreePart {
    const tape: StrTape
    var stem: seq<nat>
    var directories: seq<DirectoryRow>
    var files: seq<FileRow>
    var symlinks: seq<SymlinkRow>

    ghost predicate Valid()
      reads this, tape
    {
      tape.Valid() && Consistent(Value()) && Addressable(Value())
    }

    ghost function Value(): Content
      reads this, tape
      requires tape.Valid()
    {
      Content(tape.Strings(), stem, directories, files, symlinks)
    }

    constructor ()
      ensures Valid() && fresh(this) && fresh(tape)
      ensures Value() == Content([], [], [], [], [])
    {
      tape := new StrTape();
      stem, directories, files, symlinks := [], [], [], [];
    }

    /** Adds `text` and gives its index, unless the index or the text passes what a `u32` can address. */
    method Intern(text: Name) returns (index: Option<nat>)
      requires tape.Valid()
      modifies tape
      ensures tape.Valid()
      ensures index.Some? ==> index.value == |old(tape.Strings())| && tape.Strings() == old(tape.Strings()) + [text]
      ensures index.None? ==> tape.Strings() == old(tape.Strings())
      ensures index.Some? <==> |old(tape.Strings())| <= U32_MAX && Total(old(tape.Strings())) + |text| <= U32_MAX
    {
      var n := tape.Len();
      if n > U32_MAX {
        return None;
      }
      var ok := tape.Push(text);
      index := if ok then Some(n) else None;
    }

    /** Adds one more directory above the rows, inside the one added before. */
    method PushStem(name: Name) returns (ok: bool)
      requires Valid() && directories == []
      modifies this`stem, tape
      ensures Valid()
      ensures Value() == if ok then WithStem(old(Value()), name) else old(Value())
      ensures ok <==> !Refuses(old(Value()).text, [name])
    {
      hide Consistent, Total;
      TotalFew(tape.Strings(), name, []);
      ConsistentStem(Value(), name);
      var index := Intern(name);
      ok := index.Some?;
      if ok {
        stem := stem + [index.value];
      }
    }

    /** Appends a directory row and gives its node id, unless the id passes a `u32`. */
    method PushDirectory(parent: nat, name: Name, mtime: Option<Timestamp>, mode: nat) returns (node: Option<nat>)
      requires Valid() && parent < Nodes(Value())
      modifies this`directories, tape
      ensures Valid()
      ensures node.Some? ==> node.value == Nodes(old(Value()))
      ensures Value() == if node.Some? then WithDirectory(old(Value()), parent, name, mtime, mode) else old(Value())
      ensures node.None? <==> Nodes(old(Value())) > U32_MAX || Refuses(old(Value()).text, [name])
    {
      hide Consistent, Total;
      var id := 1 + |stem| + |directories|;
      if id > U32_MAX {
        return None;
      }
      TotalFew(tape.Strings(), name, []);
      ConsistentDirectory(Value(), parent, name, mtime, mode);
      var index := Intern(name);
      if index.None? {
        return None;
      }
      directories := directories + [DirectoryRow(parent, index.value, mtime, mode)];
      node := Some(id);
    }

    method PushFile(parent: nat, name: Name, size: nat, mtime: Option<Timestamp>, mode: nat) returns (ok: bool)
      requires Valid() && parent < Nodes(Value())
      modifies this`files, tape
      ensures Valid()
      ensures Value() == if ok then WithFile(old(Value()), parent, name, size, mtime, mode) else old(Value())
      ensures ok <==> !Refuses(old(Value()).text, [name])
    {
      hide Consistent, Total;
      TotalFew(tape.Strings(), name, []);
      ConsistentFile(Value(), parent, name, size, mtime, mode);
      var index := Intern(name);
      ok := index.Some?;
      if ok {
        files := files + [FileRow(parent, index.value, size, mtime, mode)];
      }
    }

    /** Appends a symlink row. When only its target is refused, its name stays in the text. */
    method PushSymlink(parent: nat, name: Name, target: Name, mtime: Option<Timestamp>, directory: Option<bool>) returns (ok: bool)
      requires Valid() && parent < Nodes(Value())
      modifies this`symlinks, tape
      ensures Valid()
      ensures ok ==> Value() == WithSymlink(old(Value()), parent, name, target, mtime, directory)
      ensures !ok ==> Value().(text := []) == old(Value()).(text := []) && old(Value()).text <= Value().text
      ensures ok <==> !Refuses(old(Value()).text, [name, target])
    {
      hide Consistent, Total, Addressable, Refuses;
      SymlinkFits(Value(), parent, name, target, mtime, directory);
      var first := Intern(name);
      if first.None? {
        return false;
      }
      var second := Intern(target);
      ok := second.Some?;
      if ok {
        symlinks := symlinks + [SymlinkRow(parent, first.value, second.value, mtime, directory)];
      }
    }

    /** The part's own estimate, from the lengths of its tables and its text. */
    method Estimate() returns (estimate: nat)
      requires Valid()
      ensures estimate == EstimateOf(Value())
    {
      var text := tape.TextLen();
      estimate := |directories| * DIRECTORY_ROW + |files| * FILE_ROW + |symlinks| * SYMLINK_ROW + text;
    }

    /** The node above `node` and the name of `node`. */
    method Node(node: nat) returns (up: nat, name: Name)
      requires Valid() && 0 < node < Nodes(Value())
      ensures (up, name) == Up(Value(), node)
    {
      var text;
      if node <= |stem| {
        text := tape.Get(stem[node - 1]);
        up := node - 1;
      } else {
        var row := directories[node - |stem| - 1];
        text := tape.Get(row.name);
        up := row.parent;
      }
      name := text.value;
    }

    /** The path of the entry with the name at index `name` in node `parent`. */
    method Path(parent: nat, name: nat) returns (path: seq<Byte>)
      requires Valid() && parent < Nodes(Value()) && name < |Value().text|
      ensures path == Slashed(NodePath(Value(), parent) + [Value().text[name]])
    {
      var last := tape.Get(name);
      var components := [last.value];
      var node: nat := parent;
      assert Reversed([last.value]) == [last.value] by { assert [last.value][..0] == []; }
      while node != 0
        invariant node < Nodes(Value()) && components != []
        invariant NodePath(Value(), node) + Reversed(components) == NodePath(Value(), parent) + [Value().text[name]]
        decreases node
      {
        var up, component := Node(node);
        ReversedMore(components, component);
        PlusAssociates(NodePath(Value(), up), [component], Reversed(components));
        components := components + [component];
        node := up;
      }
      assert NodePath(Value(), 0) + Reversed(components) == Reversed(components);
      path := JoinReversed(components);
    }

    /** The path of the first row in walk order. */
    method FirstPath() returns (first: Option<seq<Byte>>)
      requires Valid()
      ensures first == FirstPathOf(Value())
    {
      hide NodePath, Slashed, Consistent, Shown, Directories, Files, Symlinks;
      ShownLengths(Value());
      var directory, file, link: Option<seq<Byte>> := None, None, None;
      if directories != [] {
        DirectoryNames(Value(), 0);
        var path := Path(directories[0].parent, directories[0].name);
        directory := Some(path);
      }
      if files != [] {
        FileNames(Value(), 0);
        var path := Path(files[0].parent, files[0].name);
        file := Some(path);
      }
      if symlinks != [] {
        SymlinkNames(Value(), 0);
        var path := Path(symlinks[0].parent, symlinks[0].name);
        link := Some(path);
      }
      first := Earlier(Earlier(directory, file), link);
    }

    /** All rows of the part with their paths, sorted. */
    method Entries() returns (all: seq<Found>)
      requires Valid()
      ensures all == Sorted(Collected(Value()))
    {
      hide NodePath, Slashed, Consistent, Shown, Directories, Files, Symlinks, Sorted;
      ShownLengths(Value());
      var found := [];
      for i := 0 to |directories|
        invariant |Shown(Directories(Value()))| == |directories| && found == Shown(Directories(Value()))[..i]
      {
        DirectoryNames(Value(), i);
        var path := Path(directories[i].parent, directories[i].name);
        found := found + [Found(path, ADirectory)];
      }
      assert found == Shown(Directories(Value()));
      all := found;
      found := [];
      for i := 0 to |files|
        invariant |Shown(Files(Value()))| == |files| && found == Shown(Files(Value()))[..i]
      {
        FileNames(Value(), i);
        var path := Path(files[i].parent, files[i].name);
        found := found + [Found(path, AFile)];
      }
      assert found == Shown(Files(Value()));
      all := all + found;
      found := [];
      for i := 0 to |symlinks|
        invariant |Shown(Symlinks(Value()))| == |symlinks| && found == Shown(Symlinks(Value()))[..i]
      {
        SymlinkNames(Value(), i);
        var path := Path(symlinks[i].parent, symlinks[i].name);
        found := found + [Found(path, ASymlink)];
      }
      assert found == Shown(Symlinks(Value()));
      all := Sorted(all + found);
    }
  }

  lemma ShownLengths(c: Content)
    requires Consistent(c)
    ensures |Shown(Directories(c))| == |c.directories|
    ensures |Shown(Files(c))| == |c.files|
    ensures |Shown(Symlinks(c))| == |c.symlinks|
  {
  }

  lemma DirectoryNames(c: Content, i: nat)
    requires Consistent(c) && i < |c.directories|
    ensures var row := c.directories[i];
            && row.parent < Nodes(c) && row.name < |c.text|
            && Shown(Directories(c))[i] == Found(Slashed(NodePath(c, row.parent) + [c.text[row.name]]), ADirectory)
  {
  }

  lemma FileNames(c: Content, i: nat)
    requires Consistent(c) && i < |c.files|
    ensures var row := c.files[i];
            && row.parent < Nodes(c) && row.name < |c.text|
            && Shown(Files(c))[i] == Found(Slashed(NodePath(c, row.parent) + [c.text[row.name]]), AFile)
  {
  }

  lemma SymlinkNames(c: Content, i: nat)
    requires Consistent(c) && i < |c.symlinks|
    ensures var row := c.symlinks[i];
            && row.parent < Nodes(c) && row.name < |c.text|
            && Shown(Symlinks(c))[i] == Found(Slashed(NodePath(c, row.parent) + [c.text[row.name]]), ASymlink)
  {
  }

  function Reversed<T>(s: seq<T>): seq<T> {
    if s == [] then [] else [s[|s| - 1]] + Reversed(s[..|s| - 1])
  }

  lemma ReversedMore<T>(s: seq<T>, x: T)
    ensures Reversed(s + [x]) == [x] + Reversed(s)
  {
    assert (s + [x])[..|s|] == s;
  }

  /** Reverses the components and joins them with slashes. */
  method JoinReversed(components: seq<Name>) returns (path: seq<Byte>)
    requires components != []
    ensures path == Slashed(Reversed(components))
  {
    path := components[|components| - 1];
    var i := |components| - 1;
    ghost var joined := [path];
    while i > 0
      invariant 0 <= i < |components| && joined != []
      invariant path == Slashed(joined) && joined + Reversed(components[..i]) == Reversed(components)
    {
      i := i - 1;
      assert (joined + [components[i]])[..|joined|] == joined;
      assert components[..i + 1][..i] == components[..i];
      path := path + [SLASH] + components[i];
      joined := joined + [components[i]];
    }
    assert components[..0] == [] && joined + [] == joined;
  }
}
