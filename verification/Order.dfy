/** Walk order: how paths compare, as text and component by component. */
module Order {
  import opened Tree

  datatype Ordering = Less | Equal | Greater

  /** Bytewise comparison. */
  function Compare(left: seq<Byte>, right: seq<Byte>): Ordering {
    if left == [] then if right == [] then Equal else Less
    else if right == [] then Greater
    else if left[0] < right[0] then Less
    else if left[0] > right[0] then Greater
    else Compare(left[1..], right[1..])
  }

  function Key(byte: Byte): Byte {
    if byte == SLASH then 0 else byte
  }

  function Keys(text: seq<Byte>): seq<Byte> {
    seq(|text|, i requires 0 <= i < |text| => Key(text[i]))
  }

  /** Compares two paths joined with slashes. */
  function WalkOrder(left: seq<Byte>, right: seq<Byte>): Ordering {
    Compare(Keys(left), Keys(right))
  }

  /** The components of a path with a slash between each two. */
  function Slashed(path: Path): seq<Byte> {
    if path == [] then []
    else if |path| == 1 then path[0]
    else Slashed(path[..|path| - 1]) + [SLASH] + path[|path| - 1]
  }

  /** Component by component, and each component bytewise. */
  function ComparePaths(left: Path, right: Path): Ordering {
    if left == [] then if right == [] then Equal else Less
    else if right == [] then Greater
    else if left[0] == right[0] then ComparePaths(left[1..], right[1..])
    else Compare(left[0], right[0])
  }

  /** A name an operating system gives: not empty, and without slash and NUL. */
  predicate PlainName(name: Name) {
    name != [] && forall i :: 0 <= i < |name| ==> name[i] != SLASH && name[i] != 0
  }

  predicate PlainPath(path: Path) {
    forall i :: 0 <= i < |path| ==> PlainName(path[i])
  }

  // ----- bytewise order is a total order

  lemma {:induction false} CompareEqual(a: seq<Byte>, b: seq<Byte>)
    ensures Compare(a, b) == Equal <==> a == b
  {
    if a != [] && b != [] {
      CompareEqual(a[1..], b[1..]);
      assert a == [a[0]] + a[1..] && b == [b[0]] + b[1..];
    }
  }

  lemma {:induction false} CompareFlips(a: seq<Byte>, b: seq<Byte>)
    ensures Compare(a, b) == Less <==> Compare(b, a) == Greater
  {
    if a != [] && b != [] {
      CompareFlips(a[1..], b[1..]);
    }
  }

  lemma {:induction false} CompareTransitive(a: seq<Byte>, b: seq<Byte>, c: seq<Byte>)
    requires Compare(a, b) == Less && Compare(b, c) != Greater
    ensures Compare(a, c) == Less
  {
    if a != [] && c != [] && a[0] == b[0] == c[0] {
      CompareTransitive(a[1..], b[1..], c[1..]);
    }
  }

  // ----- joined paths compare as their components do

  lemma {:induction false} SlashedFirst(path: Path)
    requires |path| > 1
    ensures Slashed(path) == path[0] + [SLASH] + Slashed(path[1..])
    decreases |path|
  {
    var init, last := path[..|path| - 1], path[|path| - 1];
    if |path| > 2 {
      SlashedFirst(init);
      assert path[1..][..|path| - 2] == init[1..];
      assert Slashed(path[1..]) == Slashed(init[1..]) + [SLASH] + last;
      assert Slashed(path) == path[0] + [SLASH] + (Slashed(init[1..]) + [SLASH] + last);
    } else {
      assert init == [path[0]] && path[1..] == [last];
    }
  }

  /** What follows the first component, as keys: nothing, or the lowest key and the rest. */
  function KeysAfter(path: Path): seq<Byte>
    requires path != []
  {
    if |path| == 1 then [] else [0] + Keys(Slashed(path[1..]))
  }

  lemma KeysFirst(path: Path)
    requires path != [] && PlainName(path[0])
    ensures Keys(Slashed(path)) == path[0] + KeysAfter(path)
  {
    KeysPlain(path[0]);
    if |path| > 1 {
      SlashedFirst(path);
      hide Slashed;
      KeysPlus(path[0] + [SLASH], Slashed(path[1..]));
      KeysPlus(path[0], [SLASH]);
      assert Keys([SLASH]) == [0];
      PlusAssociates(path[0], [0], Keys(Slashed(path[1..])));
    } else {
      assert path[0] + [] == path[0];
    }
  }

  lemma KeysPlain(name: Name)
    requires PlainName(name)
    ensures Keys(name) == name
  {
  }

  lemma KeysPlus(a: seq<Byte>, b: seq<Byte>)
    ensures Keys(a + b) == Keys(a) + Keys(b)
  {
  }

  /** Two plain names with text behind them that starts with the lowest byte. */
  lemma {:induction false} CompareNames(x: Name, y: Name, u: seq<Byte>, v: seq<Byte>)
    requires forall i :: 0 <= i < |x| ==> x[i] != 0
    requires forall i :: 0 <= i < |y| ==> y[i] != 0
    requires (u == [] || u[0] == 0) && (v == [] || v[0] == 0)
    ensures Compare(x + u, y + v) == if x == y then Compare(u, v) else Compare(x, y)
    decreases |x|
  {
    if x == [] {
      assert x + u == u;
      if y == [] {
        assert y + v == v;
      } else {
        assert (y + v)[0] == y[0];
      }
    } else if y == [] {
      assert y + v == v && (x + u)[0] == x[0];
    } else {
      assert (x + u)[1..] == x[1..] + u && (y + v)[1..] == y[1..] + v;
      assert x == [x[0]] + x[1..] && y == [y[0]] + y[1..];
      CompareNames(x[1..], y[1..], u, v);
    }
  }

  lemma CompareSame(byte: Byte, u: seq<Byte>, v: seq<Byte>)
    ensures Compare([byte] + u, [byte] + v) == Compare(u, v)
  {
    assert ([byte] + u)[1..] == u && ([byte] + v)[1..] == v;
  }

  /** Mapping the slash to the lowest byte and comparing bytewise is comparing component by component. */
  lemma {:induction false} WalkOrderIsByComponent(left: Path, right: Path)
    requires PlainPath(left) && PlainPath(right)
    ensures WalkOrder(Slashed(left), Slashed(right)) == ComparePaths(left, right)
    decreases |left|
  {
    if left == [] || right == [] {
      if left != [] {
        KeysFirst(left);
      }
      if right != [] {
        KeysFirst(right);
      }
    } else {
      var u, v := KeysAfter(left), KeysAfter(right);
      KeysFirst(left);
      KeysFirst(right);
      CompareNames(left[0], right[0], u, v);
      if left[0] == right[0] {
        WalkOrderIsByComponent(left[1..], right[1..]);
        if |left| > 1 && |right| > 1 {
          CompareSame(0, Keys(Slashed(left[1..])), Keys(Slashed(right[1..])));
        }
      }
    }
  }

  lemma {:induction false} PathsEqual(left: Path, right: Path)
    ensures ComparePaths(left, right) == Equal <==> left == right
    decreases |left|
  {
    if left != [] && right != [] {
      PathsEqual(left[1..], right[1..]);
      CompareEqual(left[0], right[0]);
      assert left == [left[0]] + left[1..] && right == [right[0]] + right[1..];
    }
  }

  /** Joining with slashes loses nothing. */
  lemma SlashedOnce(left: Path, right: Path)
    requires PlainPath(left) && PlainPath(right) && Slashed(left) == Slashed(right)
    ensures left == right
  {
    WalkOrderIsByComponent(left, right);
    CompareEqual(Keys(Slashed(left)), Keys(Slashed(right)));
    PathsEqual(left, right);
  }

  lemma PathsTransitive(a: Path, b: Path, c: Path)
    requires ComparePaths(a, b) == Less && ComparePaths(b, c) != Greater
    ensures ComparePaths(a, c) == Less
    decreases |a|
  {
    if a != [] && c != [] {
      CompareEqual(a[0], b[0]);
      CompareEqual(b[0], c[0]);
      if a[0] == b[0] && b[0] == c[0] {
        PathsTransitive(a[1..], b[1..], c[1..]);
      } else if a[0] != b[0] {
        CompareTransitive(a[0], b[0], c[0]);
        CompareFlips(a[0], a[0]);
      }
    }
  }

  lemma PathsFlip(a: Path, b: Path)
    ensures ComparePaths(a, b) == Less <==> ComparePaths(b, a) == Greater
    decreases |a|
  {
    if a != [] && b != [] {
      if a[0] == b[0] {
        PathsFlip(a[1..], b[1..]);
      } else {
        CompareFlips(a[0], b[0]);
      }
    }
  }

  lemma PathsShare(dir: Path, a: Path, b: Path)
    ensures ComparePaths(dir + a, dir + b) == ComparePaths(a, b)
    decreases |dir|
  {
    if dir == [] {
      assert dir + a == a && dir + b == b;
    } else {
      assert (dir + a)[1..] == dir[1..] + a && (dir + b)[1..] == dir[1..] + b;
      PathsShare(dir[1..], a, b);
    }
  }

  // ----- the rows of a sorted tree

  /** Rows in strict walk order. */
  predicate Increasing(rows: seq<Row>) {
    forall i, j :: 0 <= i < j < |rows| ==> ComparePaths(PathOf(rows[i]), PathOf(rows[j])) == Less
  }

  predicate PlainRows(rows: seq<Row>) {
    forall i :: 0 <= i < |rows| ==> PlainPath(PathOf(rows[i]))
  }

  predicate NamedAfter(name: Name, nodes: seq<Node>) {
    forall i :: 0 <= i < |nodes| ==> Compare(name, nodes[i].entry.name) == Less
  }

  /** The children of every directory have plain names and are sorted by them, no name twice. */
  predicate SortedTree(nodes: seq<Node>)
    decreases nodes
  {
    nodes == [] ||
    (&& PlainName(nodes[0].entry.name)
     && NamedAfter(nodes[0].entry.name, nodes[1..])
     && SortedTree(nodes[0].children)
     && SortedTree(nodes[1..]))
  }

  predicate HasName(nodes: seq<Node>, name: Name) {
    exists k :: 0 <= k < |nodes| && nodes[k].entry.name == name
  }

  lemma {:induction false} RowsBelow(dir: Path, nodes: seq<Node>, i: nat)
    requires i < |Pre(dir, nodes)|
    ensures var row := Pre(dir, nodes)[i];
            dir <= row.dir && HasName(nodes, PathOf(row)[|dir|])
    decreases nodes
  {
    var node := nodes[0];
    var below := Pre(dir + [node.entry.name], node.children);
    if i == 0 {
      assert nodes[0].entry.name == PathOf(Pre(dir, nodes)[i])[|dir|];
    } else if i <= |below| {
      RowsBelow(dir + [node.entry.name], node.children, i - 1);
      assert nodes[0].entry.name == PathOf(Pre(dir, nodes)[i])[|dir|];
    } else {
      RowsBelow(dir, nodes[1..], i - 1 - |below|);
      var name := PathOf(Pre(dir, nodes)[i])[|dir|];
      var k :| 0 <= k < |nodes[1..]| && nodes[1..][k].entry.name == name;
      assert nodes[k + 1].entry.name == name;
    }
  }

  lemma FirstThenLater(dir: Path, nodes: seq<Node>, i: nat, j: nat)
    requires nodes != [] && NamedAfter(nodes[0].entry.name, nodes[1..])
    requires i < |Pre(dir, [nodes[0]])| && j < |Pre(dir, nodes[1..])|
    ensures ComparePaths(PathOf(Pre(dir, [nodes[0]])[i]), PathOf(Pre(dir, nodes[1..])[j])) == Less
  {
    RowsBelow(dir, [nodes[0]], i);
    RowsBelow(dir, nodes[1..], j);
    var left, right := PathOf(Pre(dir, [nodes[0]])[i]), PathOf(Pre(dir, nodes[1..])[j]);
    assert left == dir + left[|dir|..] && right == dir + right[|dir|..];
    PathsShare(dir, left[|dir|..], right[|dir|..]);
    CompareEqual(left[|dir|], right[|dir|]);
  }

  lemma OwnThenBelow(dir: Path, node: Node, i: nat)
    requires i < |Pre(dir + [node.entry.name], node.children)|
    ensures ComparePaths(dir + [node.entry.name], PathOf(Pre(dir + [node.entry.name], node.children)[i])) == Less
  {
    var own := dir + [node.entry.name];
    RowsBelow(own, node.children, i);
    var path := PathOf(Pre(own, node.children)[i]);
    assert path == own + path[|own|..] && own == own + [];
    PathsShare(own, [], path[|own|..]);
  }

  lemma IncreasingPlus(a: seq<Row>, b: seq<Row>)
    requires Increasing(a) && Increasing(b)
    requires forall i, j :: 0 <= i < |a| && 0 <= j < |b| ==> ComparePaths(PathOf(a[i]), PathOf(b[j])) == Less
    ensures Increasing(a + b)
  {
  }

  /** The rows of a tree whose directories are sorted by name come in strict walk order. */
  lemma {:induction false} PreIncreases(dir: Path, nodes: seq<Node>)
    requires SortedTree(nodes)
    ensures Increasing(Pre(dir, nodes))
    decreases nodes
  {
    hide ComparePaths, Pre, PathOf;
    if nodes == [] {
      PreNothing(dir);
    } else {
      var node := nodes[0];
      var own, below := Row(dir, node.entry), Pre(dir + [node.entry.name], node.children);
      PreIncreases(dir + [node.entry.name], node.children);
      PreIncreases(dir, nodes[1..]);
      PreFirst(dir, node, nodes[1..]);
      assert [node] + nodes[1..] == nodes;
      forall i | 0 <= i < |below|
        ensures ComparePaths(PathOf(own), PathOf(below[i])) == Less
      {
        OwnThenBelow(dir, node, i);
        assert PathOf(own) == dir + [node.entry.name] by { PathOfRow(dir, node.entry); }
      }
      IncreasingPlus([own], below);
      forall i, j | 0 <= i < |Pre(dir, [node])| && 0 <= j < |Pre(dir, nodes[1..])|
        ensures ComparePaths(PathOf(Pre(dir, [node])[i]), PathOf(Pre(dir, nodes[1..])[j])) == Less
      {
        FirstThenLater(dir, nodes, i, j);
      }
      IncreasingPlus(Pre(dir, [node]), Pre(dir, nodes[1..]));
    }
  }

  lemma PreNothing(dir: Path)
    ensures Pre(dir, []) == []
  {
  }

  lemma PathOfRow(dir: Path, entry: Entry)
    ensures PathOf(Row(dir, entry)) == dir + [entry.name]
  {
  }

  lemma {:induction false} PrePlain(dir: Path, nodes: seq<Node>)
    requires SortedTree(nodes) && PlainPath(dir)
    ensures PlainRows(Pre(dir, nodes))
    decreases nodes
  {
    if nodes != [] {
      PrePlain(dir + [nodes[0].entry.name], nodes[0].children);
      PrePlain(dir, nodes[1..]);
    }
  }
}
