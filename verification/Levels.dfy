/** What the walk keeps of each open directory, and how that bookkeeping stands for a `State`. */
module Levels {
  import opened Tree
  import opened Delivery
  import opened CutLists
  import opened OnePass
  import Order

  const USIZE_MAX: nat := 0xFFFF_FFFF_FFFF_FFFF

  /** An open directory. Its positions count rows from the start of the walk. */
  datatype Level = Level(
    scanned: Scanned,
    next: nat,
    subdirs: seq<Unit>,
    rest: seq<Unit>,
    pathLen: nat,
    row: nat,
    startTotal: nat,
    split: bool,
    runFirst: nat,
    runBytes: nat,
    completed: nat)

  // ----- paths as text

  function JoinTo(path: seq<Byte>, name: Name): seq<Byte> {
    if path == [] then name else path + [SLASH] + name
  }

  /** A path with slashes between its components. */
  function Join(path: Path): seq<Byte> {
    if path == [] then [] else JoinTo(Join(path[..|path| - 1]), path[|path| - 1])
  }

  /** Where the name of the last component starts. */
  function NameStart(parentLen: nat): nat {
    if parentLen == 0 then 0 else parentLen + 1
  }

  lemma JoinMore(path: Path, name: Name)
    ensures Join(path + [name]) == JoinTo(Join(path), name)
    ensures Join(path) <= Join(path + [name])
    ensures NameStart(|Join(path)|) <= |Join(path + [name])|
    ensures Join(path + [name])[NameStart(|Join(path)|)..] == name
  {
    assert (path + [name])[..|path|] == path;
  }

  /** While no name is empty, the walk's path text is the components with a slash between each two. */
  lemma {:induction false} JoinIsSlashed(path: Path)
    requires Order.PlainPath(path)
    ensures Join(path) == Order.Slashed(path)
    decreases |path|
  {
    if |path| > 1 {
      var init := path[..|path| - 1];
      JoinIsSlashed(init);
      assert Join(init) != [] by { JoinedText(init); }
    } else if |path| == 1 {
      assert path[..0] == [] && Join([]) == [];
    }
  }

  lemma JoinedText(path: Path)
    requires Order.PlainPath(path) && path != []
    ensures Join(path) != []
  {
  }

  // ----- the reading side

  /** The items of the current scan that the walk has not visited. */
  function Unvisited(l: Level): seq<Item>
    requires LevelRange(l)
  {
    l.scanned.rows.items[l.next..l.scanned.end]
  }

  predicate LevelRange(l: Level) {
    ScannedOk(l.scanned) && l.scanned.start <= l.next <= l.scanned.end
  }

  predicate LevelOk(l: Level, budget: nat) {
    LevelRange(l) && ItemsOk(Unvisited(l), l.subdirs, budget) && RestOk(l.rest, budget)
  }

  /** The children still to come. */
  function Remaining(l: Level): seq<Node>
    requires LevelRange(l)
  {
    Decode(Unvisited(l), l.subdirs) + DecodeRest(l.rest)
  }

  ghost predicate Delivers(stack: seq<Level>, levels: seq<Open>, budget: nat) {
    && |stack| == |levels|
    && forall k :: 0 <= k < |stack| ==> LevelOk(stack[k], budget) && levels[k].rest == Remaining(stack[k])
  }

  // ----- the counting side

  ghost predicate Flags(stack: seq<Level>, s: State) {
    && |stack| == |s.levels|
    && forall k :: 0 <= k < |stack| ==> stack[k].split == (k < s.measuring)
  }

  /** Each level knows how much of the path text is its own path. */
  ghost predicate Pathed(path: seq<Byte>, stack: seq<Level>, levels: seq<Open>) {
    && |stack| == |levels|
    && forall k :: 0 <= k < |stack| ==> Join(levels[k].path) <= path && stack[k].pathLen == |Join(levels[k].path)|
  }

  /** Since its own row, the estimates of a measuring level's subtree so far were added. */
  ghost predicate Totals(total: nat, stack: seq<Level>, s: State) {
    && |stack| == |s.levels|
    && forall k :: s.measuring <= k < |stack| ==>
         total == stack[k].startTotal + Own(s.levels[k].entry) + SizeAll(Seen(s.levels, k))
  }

  /** Where rows are, counted back from the position of the next one. */
  ghost predicate Places(base: nat, position: nat, stack: seq<Level>, s: State)
    requires 1 <= s.measuring <= |s.levels|
  {
    var m := s.measuring;
    && |stack| == |s.levels|
    && base + |s.carry| == stack[m - 1].runFirst
    && stack[m - 1].runBytes == SizeAll(s.run)
    && position == stack[m - 1].runFirst + CountAll(s.run) + CountAll(Seen(s.levels, m - 1))
    && (forall k :: m <= k < |stack| ==> position == stack[k].row + 1 + CountAll(Seen(s.levels, k)))
    && (forall k :: 1 <= k < m ==> stack[k].row < stack[m - 1].runFirst)
    && (s.carry != [] ==> stack[m - 1].row + 1 == stack[m - 1].runFirst)
  }

  ghost predicate Waits(waiting: seq<RowSource>, s: State)
    requires 1 <= s.measuring <= |s.levels|
  {
    SourcesOk(waiting) && Flat(waiting) == Strip(WaitingRows(s))
  }

  /** A finished child by its position and estimate. */
  type Mark = (nat, nat)

  function Marks(at: nat, nodes: seq<Node>): seq<Mark>
    decreases nodes
  {
    if nodes == [] then [] else [(at, Size(nodes[0]))] + Marks(at + Count(nodes[0]), nodes[1..])
  }

  /** Where the finished children of level `k` start among the marks. */
  function Segment(completed: seq<Mark>, stack: seq<Level>, k: nat): nat {
    if k < |stack| then stack[k].completed else |completed|
  }

  /** The marks of the measuring levels are adjacent and in order, the outer levels' first. */
  ghost predicate Marked(completed: seq<Mark>, stack: seq<Level>, s: State) {
    && |stack| == |s.levels|
    && Segment(completed, stack, s.measuring) == 0
    && (forall k :: s.measuring <= k < |stack| ==> MarkedAt(completed, stack, s, k))
  }

  ghost predicate MarkedAt(completed: seq<Mark>, stack: seq<Level>, s: State, k: nat)
    requires k < |stack| == |s.levels|
  {
    var from, to := Segment(completed, stack, k), Segment(completed, stack, k + 1);
    from <= to <= |completed| && completed[from..to] == Marks(stack[k].row + 1, s.levels[k].done)
  }

  /** A part may end before each measuring level's own row and each of its finished children. */
  ghost predicate Cuts(waiting: seq<RowSource>, base: nat, completed: seq<Mark>, stack: seq<Level>, measuring: nat) {
    && (forall k :: measuring <= k < |stack| ==> base <= stack[k].row && Cuttable(waiting, stack[k].row - base))
    && (forall j :: 0 <= j < |completed| ==> base <= completed[j].0 && Cuttable(waiting, completed[j].0 - base))
  }

  /** The parts handed out, cut list by cut list. */
  ghost predicate Handed(sealed: seq<CutList>, parts: seq<seq<Row>>) {
    |sealed| == |parts| && forall i :: 0 <= i < |sealed| ==> Means(sealed[i], parts[i])
  }

  /** What was handed out is how `goal` starts. */
  ghost predicate HandedPrefix(sealed: seq<CutList>, goal: seq<seq<Row>>) {
    |sealed| <= |goal| && forall i :: 0 <= i < |sealed| ==> Means(sealed[i], goal[i])
  }

  // ----- lemmas about the bookkeeping

  lemma {:induction false} MarksPlus(at: nat, a: seq<Node>, b: seq<Node>)
    ensures Marks(at, a + b) == Marks(at, a) + Marks(at + CountAll(a), b)
    decreases |a|
  {
    if a == [] {
      assert a + b == b;
    } else {
      assert (a + b)[1..] == a[1..] + b;
      MarksPlus(at + Count(a[0]), a[1..], b);
    }
  }

  lemma WaitingCount(s: State)
    requires 1 <= s.measuring <= |s.levels|
    ensures |WaitingRows(s)| == |s.carry| + CountAll(s.run) + CountAll(Seen(s.levels, s.measuring - 1))
  {
    PreLength(Inner(s).path, s.run + Seen(s.levels, s.measuring - 1));
    CountPlus(s.run, Seen(s.levels, s.measuring - 1));
  }

  lemma {:induction false} PathLengths(s: State, k: nat)
    requires Shaped(s) && k < |s.levels|
    ensures |s.levels[k].path| == k
  {
    if k > 0 {
      PathLengths(s, k - 1);
    }
  }

  /** What a seal takes is placed by the directories open above its first row. */
  lemma SealedRows(s: State, budget: nat)
    requires Sound(s, budget)
    ensures var rows := s.carry + RunRows(s);
            rows != [] ==>
              && Linked(rows[0].dir, rows)
              && |rows[0].dir| < s.measuring
              && s.levels[|rows[0].dir|].path == rows[0].dir
  {
    var rows := s.carry + RunRows(s);
    if rows != [] {
      var dir := Inner(s).path;
      PathLengths(s, s.measuring - 1);
      LinkedPre(dir, dir, s.run);
      if s.carry == [] {
        assert rows == RunRows(s);
        assert rows[0].dir == dir;
      } else {
        var from := s.measuring - |s.carry|;
        PathLengths(s, from - 1);
        assert rows[0] == s.carry[0] == OwnRow(s.levels, from);
        CarryLinks(s, 0);
        assert s.carry[0..] == s.carry;
        LinkedPlus(rows[0].dir, s.carry, RunRows(s));
      }
    }
  }

  lemma {:induction false} CarryLinks(s: State, i: nat)
    requires Shaped(s) && Carries(s) && i <= |s.carry|
    ensures Linked(s.levels[s.measuring - |s.carry| + i - 1].path, s.carry[i..])
    ensures EndOf(s.levels[s.measuring - |s.carry| + i - 1].path, s.carry[i..]) == Inner(s).path
    decreases |s.carry| - i
  {
    if i < |s.carry| {
      CarryLinks(s, i + 1);
      assert s.carry[i..][1..] == s.carry[i + 1..];
    }
  }
}
