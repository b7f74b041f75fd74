/** Reading metadata later: a chain of open directories that is kept from one row to the next. */
module Fill {
  import opened Tree
  import opened Part
  import Tape

  datatype Stat = Stat(size: nat, mtime: Option<Timestamp>, mode: nat)

  /**
   * The file system as one call sees it: whether a directory can be opened from the one above it,
   * and what is read of a name in a directory.
   */
  datatype Filesystem = Filesystem(opens: Path -> bool, stats: (Path, Name) -> Option<Stat>)

  /** Every directory from the root down to `path` can be opened. */
  predicate Reachable(fs: Filesystem, path: Path) {
    path == [] || (Reachable(fs, path[..|path| - 1]) && fs.opens(path))
  }

  /** What a reader finds that opens every directory anew, from the root down. */
  function Reopened(fs: Filesystem, dir: Path, name: Name): Option<Stat> {
    if Reachable(fs, dir) then fs.stats(dir, name) else None
  }

  /** The nodes from the root down to `node`. */
  function Down(c: Content, node: nat): (nodes: seq<nat>)
    requires Consistent(c) && node < Nodes(c)
    ensures forall i :: 0 <= i < |nodes| ==> 0 < nodes[i] < Nodes(c)
    decreases node
  {
    if node == 0 then [] else Down(c, Up(c, node).0) + [node]
  }

  lemma {:induction false} DownPaths(c: Content, node: nat, i: nat)
    requires Consistent(c) && node < Nodes(c) && i < |Down(c, node)|
    ensures var nodes := Down(c, node);
            NodePath(c, nodes[i]) == NodePath(c, if i == 0 then 0 else nodes[i - 1]) + [Up(c, nodes[i]).1]
    decreases node
  {
    var up := Up(c, node).0;
    if i + 1 < |Down(c, node)| {
      DownPaths(c, up, i);
    } else if up != 0 {
      assert Down(c, up)[|Down(c, up)| - 1] == up;
    }
  }

  lemma DownEnds(c: Content, node: nat)
    requires Consistent(c) && node < Nodes(c)
    ensures node == (if Down(c, node) == [] then 0 else Down(c, node)[|Down(c, node)| - 1])
  {
  }

  /** The open directories are the root and those of `nodes`. */
  ghost predicate Leads(c: Content, open: seq<Path>, nodes: seq<nat>)
    requires Consistent(c)
  {
    && |open| == |nodes| + 1
    && open[0] == []
    && forall i :: 0 <= i < |nodes| ==> 0 < nodes[i] < Nodes(c) && open[i + 1] == NodePath(c, nodes[i])
  }

  ghost predicate AllReachable(fs: Filesystem, open: seq<Path>) {
    forall i :: 0 <= i < |open| ==> Reachable(fs, open[i])
  }

  lemma LeadsLess(c: Content, open: seq<Path>, nodes: seq<nat>, common: nat)
    requires Consistent(c) && Leads(c, open, nodes) && common <= |nodes|
    ensures |open| == |nodes| + 1 && Leads(c, open[..common + 1], nodes[..common])
  {
    hide NodePath, Consistent;
  }

  lemma LeadsFurther(c: Content, open: seq<Path>, nodes: seq<nat>, directory: Path, node: nat)
    requires Consistent(c) && Leads(c, open, nodes) && 0 < node < Nodes(c) && directory == NodePath(c, node)
    ensures Leads(c, open + [directory], nodes + [node])
  {
    hide NodePath, Consistent;
  }

  class Chain {
    var open: seq<Path>      // the root, then the directory of each of `nodes`
    var nodes: seq<nat>
    var wanted: seq<nat>

    /** The chain belongs to the part `c`. */
    ghost predicate Valid(c: Content)
      reads this
      requires Consistent(c)
    {
      Leads(c, open, nodes)
    }

    /** Every directory held open could be opened anew. */
    ghost predicate Steady(fs: Filesystem)
      reads this
    {
      AllReachable(fs, open)
    }

    constructor ()
      ensures forall c: Content :: Consistent(c) ==> Valid(c)
      ensures forall fs :: Steady(fs)
    {
      open, nodes, wanted := [[]], [], [];
    }

    /** Reads the name at text index `name` in the directory of node `parent`. */
    method Stat(fs: Filesystem, part: TreePart, parent: nat, name: nat) returns (stat: Option<Stat>)
      requires part.Valid() && Valid(part.Value()) && parent < Nodes(part.Value()) && name < |part.Value().text|
      modifies this
      ensures Valid(part.Value())
      ensures stat.Some? ==> stat == fs.stats(NodePath(part.Value(), parent), part.Value().text[name])
      ensures old(Steady(fs)) ==> Steady(fs) && stat == Reopened(fs, NodePath(part.Value(), parent), part.Value().text[name])
    {
      hide NodePath, Consistent, Addressable, Reachable;
      var last := if nodes == [] then 0 else nodes[|nodes| - 1];
      RootPath(part.Value());
      if last != parent {
        var ok := Enter(fs, part, parent);
        if !ok {
          return None;
        }
      }
      var text := part.tape.Get(name);
      stat := fs.stats(open[|open| - 1], text.value);
    }

    /** Opens the directories down to `node` that are not open yet. */
    method Enter(fs: Filesystem, part: TreePart, node: nat) returns (ok: bool)
      requires part.Valid() && Valid(part.Value()) && node < Nodes(part.Value())
      modifies this
      ensures Valid(part.Value())
      ensures ok ==> open[|open| - 1] == NodePath(part.Value(), node)
      ensures old(Steady(fs)) ==> Steady(fs)
      ensures old(Steady(fs)) && !ok ==> !Reachable(fs, NodePath(part.Value(), node))
    {
      hide NodePath, Consistent, Addressable, Reachable, Down, Up, Leads;
      ghost var c := part.Value();
      LeadsLess(c, open, nodes, |nodes|);
      Want(part, node);
      var common := 0;
      while common < |nodes| && common < |wanted| && nodes[common] == wanted[common]
        invariant common <= |nodes| && common <= |wanted| && nodes[..common] == wanted[..common]
      {
        common := common + 1;
      }
      LeadsLess(c, open, nodes, common);
      nodes := nodes[..common];
      open := open[..common + 1];
      for i := common to |wanted|
        invariant wanted == Down(c, node)
        invariant Valid(c) && nodes == wanted[..i] && |open| == i + 1
        invariant old(Steady(fs)) ==> Steady(fs)
      {
        var up, name := part.Node(wanted[i]);
        var directory := open[|open| - 1] + [name];
        OnTheWay(c, node, i, open, nodes, directory);
        if AllReachable(fs, open) {
          OpenBelow(fs, open, directory);
        }
        if !fs.opens(directory) {
          NotBelow(fs, c, node, i);
          return false;
        }
        open := open + [directory];
        nodes := nodes + [wanted[i]];
      }
      LeadsThere(c, node, open, nodes);
      ok := true;
    }

    /** Puts the nodes from the root down to `node` in `wanted`. */
    method Want(part: TreePart, node: nat)
      requires part.Valid() && node < Nodes(part.Value())
      modifies this`wanted
      ensures wanted == Down(part.Value(), node)
    {
      wanted := [];
      var at: nat := node;
      assert Reversed(wanted) == [] && Down(part.Value(), node) + [] == Down(part.Value(), node);
      while at != 0
        invariant at < Nodes(part.Value())
        invariant Down(part.Value(), node) == Down(part.Value(), at) + Reversed(wanted)
        decreases at
      {
        var up, name := part.Node(at);
        ReversedMore(wanted, at);
        PlusAssociates(Down(part.Value(), up), [at], Reversed(wanted));
        wanted := wanted + [at];
        at := up;
      }
      assert [] + Reversed(wanted) == Reversed(wanted);
      wanted := Reversed(wanted);
    }
  }

  lemma RootPath(c: Content)
    requires Consistent(c)
    ensures NodePath(c, 0) == []
  {
  }

  lemma OneBelow(fs: Filesystem, above: Path, name: Name)
    ensures Reachable(fs, above + [name]) <==> Reachable(fs, above) && fs.opens(above + [name])
  {
    assert (above + [name])[..|above|] == above;
  }

  /** The next directory on the way down, when those before it are open. */
  lemma OnTheWay(c: Content, node: nat, i: nat, open: seq<Path>, nodes: seq<nat>, directory: Path)
    requires Consistent(c) && node < Nodes(c) && i < |Down(c, node)|
    requires Leads(c, open, nodes) && nodes == Down(c, node)[..i]
    requires directory == open[|open| - 1] + [Up(c, Down(c, node)[i]).1]
    ensures directory == NodePath(c, Down(c, node)[i])
    ensures Leads(c, open + [directory], nodes + [Down(c, node)[i]])
  {
    hide NodePath, Consistent, Down, Up;
    RootPath(c);
    DownPaths(c, node, i);
    LeadsFurther(c, open, nodes, directory, Down(c, node)[i]);
  }

  lemma LeadsThere(c: Content, node: nat, open: seq<Path>, nodes: seq<nat>)
    requires Consistent(c) && node < Nodes(c) && Leads(c, open, nodes) && nodes == Down(c, node)
    ensures open != [] && open[|open| - 1] == NodePath(c, node)
  {
    hide NodePath, Consistent, Down;
    RootPath(c);
    DownEnds(c, node);
  }

  lemma OpenBelow(fs: Filesystem, open: seq<Path>, directory: Path)
    requires open != [] && AllReachable(fs, open) && directory != [] && directory[..|directory| - 1] == open[|open| - 1]
    ensures fs.opens(directory) ==> AllReachable(fs, open + [directory])
    ensures !fs.opens(directory) ==> !Reachable(fs, directory)
  {
    hide Reachable;
    OneBelow(fs, directory[..|directory| - 1], directory[|directory| - 1]);
    assert directory == directory[..|directory| - 1] + [directory[|directory| - 1]];
  }

  /** If a directory on the way cannot be reached, the one at the end cannot. */
  lemma {:induction false} NotBelow(fs: Filesystem, c: Content, node: nat, i: nat)
    requires Consistent(c) && node < Nodes(c) && i < |Down(c, node)|
    ensures !Reachable(fs, NodePath(c, Down(c, node)[i])) ==> !Reachable(fs, NodePath(c, node))
    decreases node
  {
    var up := Up(c, node).0;
    OneBelow(fs, NodePath(c, up), Up(c, node).1);
    if i + 1 < |Down(c, node)| {
      NotBelow(fs, c, up, i);
    }
  }

  // ----- filling a part in

  /** The same rows in the same places; only what a later read fills in may differ. */
  predicate SameShape(c: Content, to: Content) {
    && to.text == c.text && to.stem == c.stem
    && |to.directories| == |c.directories| && |to.files| == |c.files| && |to.symlinks| == |c.symlinks|
    && (forall i :: 0 <= i < |c.directories| ==>
          to.directories[i].parent == c.directories[i].parent && to.directories[i].name == c.directories[i].name)
    && (forall i :: 0 <= i < |c.files| ==>
          to.files[i].parent == c.files[i].parent && to.files[i].name == c.files[i].name)
    && (forall i :: 0 <= i < |c.symlinks| ==>
          && to.symlinks[i].parent == c.symlinks[i].parent && to.symlinks[i].name == c.symlinks[i].name
          && to.symlinks[i].target == c.symlinks[i].target && to.symlinks[i].directory == c.symlinks[i].directory)
  }

  lemma ShapeConsistent(c: Content, to: Content)
    requires Consistent(c) && SameShape(c, to)
    ensures Consistent(to)
  {
  }

  lemma {:induction false} ShapePaths(c: Content, to: Content, node: nat)
    requires Consistent(c) && Consistent(to) && SameShape(c, to) && node < Nodes(c)
    ensures NodePath(to, node) == NodePath(c, node)
    decreases node
  {
    if node > 0 {
      ShapePaths(c, to, Up(c, node).0);
    }
  }

  /** What a reader that opens everything anew finds for a row. */
  function Fresh(c: Content, fs: Filesystem, parent: nat, name: nat): Option<Stat>
    requires Consistent(c) && parent < Nodes(c) && name < |c.text|
  {
    Reopened(fs, NodePath(c, parent), c.text[name])
  }

  function FilledDirectory(row: DirectoryRow, stat: Option<Stat>): DirectoryRow {
    if stat.Some? then row.(mtime := stat.value.mtime, mode := stat.value.mode) else row
  }

  function FilledFile(row: FileRow, stat: Option<Stat>): FileRow {
    if stat.Some? then row.(size := stat.value.size, mtime := stat.value.mtime, mode := stat.value.mode) else row
  }

  function FilledSymlink(row: SymlinkRow, stat: Option<Stat>): SymlinkRow {
    if stat.Some? then row.(mtime := stat.value.mtime) else row
  }

  function Missing(stat: Option<Stat>): nat {
    if stat.Some? then 0 else 1
  }

  /** The directory rows before `n` are filled in, and the others are as they were. */
  ghost predicate DirectoriesFilled(c: Content, fs: Filesystem, to: Content, n: nat)
    requires Consistent(c)
  {
    && |to.directories| == |c.directories|
    && forall i :: 0 <= i < |c.directories| ==>
         to.directories[i] == if i < n then FilledDirectory(c.directories[i], Fresh(c, fs, c.directories[i].parent, c.directories[i].name)) else c.directories[i]
  }

  ghost predicate FilesFilled(c: Content, fs: Filesystem, to: Content, n: nat)
    requires Consistent(c)
  {
    && |to.files| == |c.files|
    && forall i :: 0 <= i < |c.files| ==>
         to.files[i] == if i < n then FilledFile(c.files[i], Fresh(c, fs, c.files[i].parent, c.files[i].name)) else c.files[i]
  }

  ghost predicate SymlinksFilled(c: Content, fs: Filesystem, to: Content, n: nat)
    requires Consistent(c)
  {
    && |to.symlinks| == |c.symlinks|
    && forall i :: 0 <= i < |c.symlinks| ==>
         to.symlinks[i] == if i < n then FilledSymlink(c.symlinks[i], Fresh(c, fs, c.symlinks[i].parent, c.symlinks[i].name)) else c.symlinks[i]
  }

  /** So many rows of each table are filled in. */
  ghost predicate Filled(c: Content, fs: Filesystem, to: Content, directories: nat, files: nat, symlinks: nat)
    requires Consistent(c)
  {
    && to.text == c.text && to.stem == c.stem
    && DirectoriesFilled(c, fs, to, directories) && FilesFilled(c, fs, to, files) && SymlinksFilled(c, fs, to, symlinks)
  }

  /** How many of the first rows of each table cannot be read. */
  function Failures(c: Content, fs: Filesystem, directories: nat, files: nat, symlinks: nat): nat
    requires Consistent(c) && directories <= |c.directories| && files <= |c.files| && symlinks <= |c.symlinks|
  {
    if symlinks > 0 then
      var row := c.symlinks[symlinks - 1];
      Failures(c, fs, directories, files, symlinks - 1) + Missing(Fresh(c, fs, row.parent, row.name))
    else if files > 0 then
      var row := c.files[files - 1];
      Failures(c, fs, directories, files - 1, 0) + Missing(Fresh(c, fs, row.parent, row.name))
    else if directories > 0 then
      var row := c.directories[directories - 1];
      Failures(c, fs, directories - 1, 0, 0) + Missing(Fresh(c, fs, row.parent, row.name))
    else 0
  }

  /** Those of the first rows of a table that cannot be read. */
  function UnreadDirectories(c: Content, fs: Filesystem, n: nat): set<int>
    requires Consistent(c) && n <= |c.directories|
  {
    set i | 0 <= i < n && Fresh(c, fs, c.directories[i].parent, c.directories[i].name).None?
  }

  function UnreadFiles(c: Content, fs: Filesystem, n: nat): set<int>
    requires Consistent(c) && n <= |c.files|
  {
    set i | 0 <= i < n && Fresh(c, fs, c.files[i].parent, c.files[i].name).None?
  }

  function UnreadSymlinks(c: Content, fs: Filesystem, n: nat): set<int>
    requires Consistent(c) && n <= |c.symlinks|
  {
    set i | 0 <= i < n && Fresh(c, fs, c.symlinks[i].parent, c.symlinks[i].name).None?
  }

  /** Each row that cannot be read counts once. */
  lemma {:induction false} FailuresAreCounted(c: Content, fs: Filesystem, directories: nat, files: nat, symlinks: nat)
    requires Consistent(c) && directories <= |c.directories| && files <= |c.files| && symlinks <= |c.symlinks|
    ensures Failures(c, fs, directories, files, symlinks)
         == |UnreadDirectories(c, fs, directories)| + |UnreadFiles(c, fs, files)| + |UnreadSymlinks(c, fs, symlinks)|
    decreases directories + files + symlinks
  {
    hide Fresh, Consistent;
    if symlinks > 0 {
      FailuresAreCounted(c, fs, directories, files, symlinks - 1);
      NextSymlink(c, fs, symlinks - 1);
    } else if files > 0 {
      FailuresAreCounted(c, fs, directories, files - 1, 0);
      NextFile(c, fs, files - 1);
    } else if directories > 0 {
      FailuresAreCounted(c, fs, directories - 1, 0, 0);
      NextDirectory(c, fs, directories - 1);
    }
  }

  lemma NextDirectory(c: Content, fs: Filesystem, n: nat)
    requires Consistent(c) && n < |c.directories|
    ensures |UnreadDirectories(c, fs, n + 1)| == |UnreadDirectories(c, fs, n)| + if Fresh(c, fs, c.directories[n].parent, c.directories[n].name).None? then 1 else 0
  {
    hide Fresh;
    assert UnreadDirectories(c, fs, n + 1)
        == if Fresh(c, fs, c.directories[n].parent, c.directories[n].name).None? then UnreadDirectories(c, fs, n) + {n} else UnreadDirectories(c, fs, n);
  }

  lemma NextFile(c: Content, fs: Filesystem, n: nat)
    requires Consistent(c) && n < |c.files|
    ensures |UnreadFiles(c, fs, n + 1)| == |UnreadFiles(c, fs, n)| + if Fresh(c, fs, c.files[n].parent, c.files[n].name).None? then 1 else 0
  {
    hide Fresh;
    assert UnreadFiles(c, fs, n + 1)
        == if Fresh(c, fs, c.files[n].parent, c.files[n].name).None? then UnreadFiles(c, fs, n) + {n} else UnreadFiles(c, fs, n);
  }

  lemma NextSymlink(c: Content, fs: Filesystem, n: nat)
    requires Consistent(c) && n < |c.symlinks|
    ensures |UnreadSymlinks(c, fs, n + 1)| == |UnreadSymlinks(c, fs, n)| + if Fresh(c, fs, c.symlinks[n].parent, c.symlinks[n].name).None? then 1 else 0
  {
    hide Fresh;
    assert UnreadSymlinks(c, fs, n + 1)
        == if Fresh(c, fs, c.symlinks[n].parent, c.symlinks[n].name).None? then UnreadSymlinks(c, fs, n) + {n} else UnreadSymlinks(c, fs, n);
  }

  lemma FilledShape(c: Content, fs: Filesystem, to: Content, directories: nat, files: nat, symlinks: nat)
    requires Consistent(c) && Filled(c, fs, to, directories, files, symlinks)
    ensures SameShape(c, to) && Consistent(to)
  {
    hide Fresh;
    ShapeConsistent(c, to);
  }

  lemma ChainStays(chain: Chain, c: Content, to: Content)
    requires Consistent(c) && Consistent(to) && SameShape(c, to) && chain.Valid(c)
    ensures chain.Valid(to)
  {
    forall i | 0 <= i < |chain.nodes|
      ensures chain.open[i + 1] == NodePath(to, chain.nodes[i])
    {
      ShapePaths(c, to, chain.nodes[i]);
    }
  }

  /** A row's place in a part that is partly filled in. */
  lemma SameFresh(c: Content, fs: Filesystem, to: Content, parent: nat, name: nat)
    requires Consistent(c) && Consistent(to) && SameShape(c, to) && parent < Nodes(c) && name < |c.text|
    ensures Fresh(to, fs, parent, name) == Fresh(c, fs, parent, name)
  {
    ShapePaths(c, to, parent);
  }

  lemma DirectoryNext(c: Content, fs: Filesystem, to: Content, i: nat)
    requires Consistent(c) && Filled(c, fs, to, i, 0, 0) && i < |c.directories|
    ensures to.directories[i] == c.directories[i]
    ensures var row := c.directories[i];
            && row.parent < Nodes(c) && row.name < |c.text|
            && var stat := Fresh(c, fs, row.parent, row.name);
               && Filled(c, fs, to.(directories := to.directories[i := FilledDirectory(row, stat)]), i + 1, 0, 0)
               && Failures(c, fs, i + 1, 0, 0) == Failures(c, fs, i, 0, 0) + Missing(stat)
  {
    hide Fresh;
  }

  lemma FileNext(c: Content, fs: Filesystem, to: Content, i: nat)
    requires Consistent(c) && Filled(c, fs, to, |c.directories|, i, 0) && i < |c.files|
    ensures to.files[i] == c.files[i]
    ensures var row := c.files[i];
            && row.parent < Nodes(c) && row.name < |c.text|
            && var stat := Fresh(c, fs, row.parent, row.name);
               && Filled(c, fs, to.(files := to.files[i := FilledFile(row, stat)]), |c.directories|, i + 1, 0)
               && Failures(c, fs, |c.directories|, i + 1, 0) == Failures(c, fs, |c.directories|, i, 0) + Missing(stat)
  {
    hide Fresh;
  }

  lemma SymlinkNext(c: Content, fs: Filesystem, to: Content, i: nat)
    requires Consistent(c) && Filled(c, fs, to, |c.directories|, |c.files|, i) && i < |c.symlinks|
    ensures to.symlinks[i] == c.symlinks[i]
    ensures var row := c.symlinks[i];
            && row.parent < Nodes(c) && row.name < |c.text|
            && var stat := Fresh(c, fs, row.parent, row.name);
               && Filled(c, fs, to.(symlinks := to.symlinks[i := FilledSymlink(row, stat)]), |c.directories|, |c.files|, i + 1)
               && Failures(c, fs, |c.directories|, |c.files|, i + 1) == Failures(c, fs, |c.directories|, |c.files|, i) + Missing(stat)
  {
    hide Fresh;
  }

  lemma NoneFilled(c: Content, fs: Filesystem)
    requires Consistent(c)
    ensures Filled(c, fs, c, 0, 0, 0) && Failures(c, fs, 0, 0, 0) == 0
  {
    hide Fresh;
  }

  /** The chain's row of a partly filled part, read through the chain. */
  lemma StatIsFresh(c: Content, fs: Filesystem, to: Content, parent: nat, name: nat, d: nat, f: nat, s: nat)
    requires Consistent(c) && Filled(c, fs, to, d, f, s) && parent < Nodes(c) && name < |c.text|
    ensures Consistent(to) && parent < Nodes(to) && name < |to.text|
    ensures Reopened(fs, NodePath(to, parent), to.text[name]) == Fresh(c, fs, parent, name)
  {
    FilledShape(c, fs, to, d, f, s);
    SameFresh(c, fs, to, parent, name);
  }

  /** Fillings of the same part have the same shape, so the chain goes on. */
  lemma ChainGoesOn(chain: Chain, c: Content, fs: Filesystem, to: Content, later: Content, d: nat, f: nat, s: nat, d': nat, f': nat, s': nat)
    requires Consistent(c) && Filled(c, fs, to, d, f, s) && Filled(c, fs, later, d', f', s')
    requires Consistent(to) && chain.Valid(to)
    ensures Consistent(later) && chain.Valid(later)
  {
    hide Filled, Consistent, Fresh;
    FilledShape(c, fs, to, d, f, s);
    FilledShape(c, fs, later, d', f', s');
    ChainStays(chain, to, later);
  }

  /**
   * Reads the metadata of every row of `part`. Each row that can be read gets what opening its directories anew
   * would give; the others stay as they are and are counted.
   */
  method ReadMetadata(fs: Filesystem, part: TreePart) returns (failed: Option<nat>)
    requires part.Valid()
    modifies part
    ensures part.Valid()
    ensures failed.Some? <==> fs.opens([])
    ensures failed.None? ==> part.Value() == old(part.Value())
    ensures var c := old(part.Value());
            failed.Some? ==>
              && Filled(c, fs, part.Value(), |c.directories|, |c.files|, |c.symlinks|)
              && failed.value == Failures(c, fs, |c.directories|, |c.files|, |c.symlinks|)
  {
    hide NodePath, Consistent, Reachable, Filled, Fresh, Reopened, Failures, Tape.Total;
    if !fs.opens([]) {
      return None;
    }
    ghost var c := part.Value();
    var chain := new Chain();
    NoneFilled(c, fs);
    var directories := ReadDirectories(fs, part, chain, c);
    var files := ReadFiles(fs, part, chain, c);
    var symlinks := ReadSymlinks(fs, part, chain, c);
    failed := Some(directories + files + symlinks);
  }

  /** The first rows of each table were read through the chain. */
  ghost predicate Going(fs: Filesystem, part: TreePart, chain: Chain, c: Content, d: nat, f: nat, s: nat)
    reads part, part.tape, chain
  {
    && Consistent(c) && part.Valid() && chain.Valid(part.Value()) && chain.Steady(fs)
    && Filled(c, fs, part.Value(), d, f, s)
  }

  method ReadDirectories(fs: Filesystem, part: TreePart, chain: Chain, ghost c: Content) returns (n: nat)
    requires Going(fs, part, chain, c, 0, 0, 0)
    modifies part, chain
    ensures Going(fs, part, chain, c, |c.directories|, 0, 0)
    ensures n == Failures(c, fs, |c.directories|, 0, 0) - Failures(c, fs, 0, 0, 0)
  {
    hide NodePath, Consistent, Reachable, Filled, Fresh, Reopened, Failures, Tape.Total;
    n := 0;
    TablesAsLong(c, fs, part.Value(), 0, 0, 0);
    for i := 0 to |part.directories|
      invariant Going(fs, part, chain, c, i, 0, 0) && |part.directories| == |c.directories|
      invariant n == Failures(c, fs, i, 0, 0) - Failures(c, fs, 0, 0, 0)
    {
      DirectoryNext(c, fs, part.Value(), i);
      var row := part.directories[i];
      StatIsFresh(c, fs, part.Value(), row.parent, row.name, i, 0, 0);
      var stat := chain.Stat(fs, part, row.parent, row.name);
      ghost var before := part.Value();
      if stat.Some? {
        part.directories := part.directories[i := row.(mtime := stat.value.mtime, mode := stat.value.mode)];
      } else {
        assert part.directories[i := row] == part.directories;
        n := n + 1;
      }
      ChainGoesOn(chain, c, fs, before, part.Value(), i, 0, 0, i + 1, 0, 0);
    }
  }

  method ReadFiles(fs: Filesystem, part: TreePart, chain: Chain, ghost c: Content) returns (n: nat)
    requires Going(fs, part, chain, c, |c.directories|, 0, 0)
    modifies part, chain
    ensures Going(fs, part, chain, c, |c.directories|, |c.files|, 0)
    ensures n == Failures(c, fs, |c.directories|, |c.files|, 0) - Failures(c, fs, |c.directories|, 0, 0)
  {
    hide NodePath, Consistent, Reachable, Filled, Fresh, Reopened, Failures, Tape.Total;
    n := 0;
    TablesAsLong(c, fs, part.Value(), |c.directories|, 0, 0);
    for i := 0 to |part.files|
      invariant Going(fs, part, chain, c, |c.directories|, i, 0) && |part.files| == |c.files|
      invariant n == Failures(c, fs, |c.directories|, i, 0) - Failures(c, fs, |c.directories|, 0, 0)
    {
      FileNext(c, fs, part.Value(), i);
      var row := part.files[i];
      StatIsFresh(c, fs, part.Value(), row.parent, row.name, |c.directories|, i, 0);
      var stat := chain.Stat(fs, part, row.parent, row.name);
      ghost var before := part.Value();
      if stat.Some? {
        part.files := part.files[i := row.(size := stat.value.size, mtime := stat.value.mtime, mode := stat.value.mode)];
      } else {
        assert part.files[i := row] == part.files;
        n := n + 1;
      }
      ChainGoesOn(chain, c, fs, before, part.Value(), |c.directories|, i, 0, |c.directories|, i + 1, 0);
    }
  }

  method ReadSymlinks(fs: Filesystem, part: TreePart, chain: Chain, ghost c: Content) returns (n: nat)
    requires Going(fs, part, chain, c, |c.directories|, |c.files|, 0)
    modifies part, chain
    ensures Going(fs, part, chain, c, |c.directories|, |c.files|, |c.symlinks|)
    ensures n == Failures(c, fs, |c.directories|, |c.files|, |c.symlinks|) - Failures(c, fs, |c.directories|, |c.files|, 0)
  {
    hide NodePath, Consistent, Reachable, Filled, Fresh, Reopened, Failures, Tape.Total;
    n := 0;
    TablesAsLong(c, fs, part.Value(), |c.directories|, |c.files|, 0);
    for i := 0 to |part.symlinks|
      invariant Going(fs, part, chain, c, |c.directories|, |c.files|, i) && |part.symlinks| == |c.symlinks|
      invariant n == Failures(c, fs, |c.directories|, |c.files|, i) - Failures(c, fs, |c.directories|, |c.files|, 0)
    {
      SymlinkNext(c, fs, part.Value(), i);
      var row := part.symlinks[i];
      StatIsFresh(c, fs, part.Value(), row.parent, row.name, |c.directories|, |c.files|, i);
      var stat := chain.Stat(fs, part, row.parent, row.name);
      ghost var before := part.Value();
      if stat.Some? {
        part.symlinks := part.symlinks[i := row.(mtime := stat.value.mtime)];
      } else {
        assert part.symlinks[i := row] == part.symlinks;
        n := n + 1;
      }
      ChainGoesOn(chain, c, fs, before, part.Value(), |c.directories|, |c.files|, i, |c.directories|, |c.files|, i + 1);
    }
  }

  lemma TablesAsLong(c: Content, fs: Filesystem, to: Content, d: nat, f: nat, s: nat)
    requires Consistent(c) && Filled(c, fs, to, d, f, s)
    ensures |to.directories| == |c.directories| && |to.files| == |c.files| && |to.symlinks| == |c.symlinks|
  {
    hide Fresh;
  }
}
