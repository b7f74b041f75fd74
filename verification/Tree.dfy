/** The tree a walk visits, its rows in walk order, and the estimate of each row. */
module Tree {

  datatype Option<+T> = None | Some(value: T)

  /** One byte of UTF-8 text. */
  type Byte = b: nat | b < 256

  const SLASH: Byte := 47

  /** The name of one entry, as bytes. */
  type Name = seq<Byte>

  /** The components of a path relative to the root of the walk. */
  type Path = seq<Name>

  datatype Timestamp = Timestamp(secs: int, nanos: nat)

  /** What the walk records of one entry. */
  datatype Entry =
    | File(name: Name, size: nat, mtime: Option<Timestamp>, mode: nat)
    | Symlink(name: Name, target: Name, mtime: Option<Timestamp>, directory: Option<bool>)
    | Directory(name: Name, mtime: Option<Timestamp>, mode: nat)

  const FILE_ROW: nat := 140
  const DIRECTORY_ROW: nat := 45
  const SYMLINK_ROW: nat := 46

  /** How much a row is taken to weigh in a part. */
  function Own(entry: Entry): nat {
    match entry
    case File(name, _, _, _) => FILE_ROW + |name|
    case Directory(name, _, _) => DIRECTORY_ROW + |name|
    case Symlink(name, target, _, _) => SYMLINK_ROW + |name| + |target|
  }

  /** An entry and, under a directory, its children in walk order. */
  datatype Node = Node(entry: Entry, children: seq<Node>)

  /** One row with the path of the directory that holds it. */
  datatype Row = Row(dir: Path, entry: Entry)

  function PathOf(row: Row): Path {
    row.dir + [row.entry.name]
  }

  function SizeAll(nodes: seq<Node>): nat {
    if nodes == [] then 0
    else Own(nodes[0].entry) + SizeAll(nodes[0].children) + SizeAll(nodes[1..])
  }

  /** The estimate of a whole subtree. */
  function Size(node: Node): nat {
    Own(node.entry) + SizeAll(node.children)
  }

  function CountAll(nodes: seq<Node>): nat {
    if nodes == [] then 0
    else 1 + CountAll(nodes[0].children) + CountAll(nodes[1..])
  }

  /** The number of rows of a whole subtree. */
  function Count(node: Node): nat {
    1 + CountAll(node.children)
  }

  /** Walk order: each directory's row comes directly before its contents. */
  function Pre(dir: Path, nodes: seq<Node>): seq<Row>
    decreases nodes
  {
    if nodes == [] then []
    else
      [Row(dir, nodes[0].entry)] + Pre(dir + [nodes[0].entry.name], nodes[0].children) + Pre(dir, nodes[1..])
  }

  /** The sum of the estimates of some rows. */
  function Bytes(rows: seq<Row>): nat {
    if rows == [] then 0 else Own(rows[0].entry) + Bytes(rows[1..])
  }

  function Min(a: nat, b: nat): nat {
    if a < b then a else b
  }

  function Max(a: nat, b: nat): nat {
    if a < b then b else a
  }

  function Concat<T>(parts: seq<seq<T>>): seq<T> {
    if parts == [] then [] else parts[0] + Concat(parts[1..])
  }

  lemma {:induction false} ConcatPlus<T>(a: seq<seq<T>>, b: seq<seq<T>>)
    ensures Concat(a + b) == Concat(a) + Concat(b)
  {
    hide Concat;
    if a == [] {
      assert a + b == b;
      ConcatNone<T>();
    } else {
      ConcatPlus(a[1..], b);
      assert (a + b)[1..] == a[1..] + b;
      ConcatStep(a);
      ConcatStep(a + b);
      PlusAssociates(a[0], Concat(a[1..]), Concat(b));
    }
  }

  lemma ConcatNone<T>()
    ensures Concat<T>([]) == []
  {
  }

  lemma ConcatStep<T>(parts: seq<seq<T>>)
    requires parts != []
    ensures Concat(parts) == parts[0] + Concat(parts[1..])
  {
  }

  lemma {:induction false} SizePlus(a: seq<Node>, b: seq<Node>)
    ensures SizeAll(a + b) == SizeAll(a) + SizeAll(b)
  {
    if a == [] {
      assert a + b == b;
    } else {
      SizePlus(a[1..], b);
      assert (a + b)[1..] == a[1..] + b;
    }
  }

  lemma {:induction false} CountPlus(a: seq<Node>, b: seq<Node>)
    ensures CountAll(a + b) == CountAll(a) + CountAll(b)
  {
    if a == [] {
      assert a + b == b;
    } else {
      CountPlus(a[1..], b);
      assert (a + b)[1..] == a[1..] + b;
    }
  }

  lemma {:induction false} PrePlus(dir: Path, a: seq<Node>, b: seq<Node>)
    ensures Pre(dir, a + b) == Pre(dir, a) + Pre(dir, b)
  {
    hide Pre;
    if a == [] {
      assert a + b == b;
      PreNone(dir);
    } else {
      PrePlus(dir, a[1..], b);
      assert (a + b)[1..] == a[1..] + b;
      PreStep(dir, a);
      PreStep(dir, a + b);
    }
  }

  lemma PreNone(dir: Path)
    ensures Pre(dir, []) == []
  {
  }

  lemma PreStep(dir: Path, nodes: seq<Node>)
    requires nodes != []
    ensures Pre(dir, nodes)
         == [Row(dir, nodes[0].entry)] + Pre(dir + [nodes[0].entry.name], nodes[0].children) + Pre(dir, nodes[1..])
  {
  }

  lemma {:induction false} PreLength(dir: Path, nodes: seq<Node>)
    ensures |Pre(dir, nodes)| == CountAll(nodes)
    decreases nodes
  {
    if nodes != [] {
      PreLength(dir + [nodes[0].entry.name], nodes[0].children);
      PreLength(dir, nodes[1..]);
    }
  }

  lemma {:induction false} BytesPlus(a: seq<Row>, b: seq<Row>)
    ensures Bytes(a + b) == Bytes(a) + Bytes(b)
  {
    if a == [] {
      assert a + b == b;
    } else {
      BytesPlus(a[1..], b);
      assert (a + b)[1..] == a[1..] + b;
    }
  }

  /** The estimate of a forest is the sum of the estimates of its rows. */
  lemma {:induction false} PreBytes(dir: Path, nodes: seq<Node>)
    ensures Bytes(Pre(dir, nodes)) == SizeAll(nodes)
    decreases nodes
  {
    if nodes != [] {
      var below := Pre(dir + [nodes[0].entry.name], nodes[0].children);
      PreBytes(dir + [nodes[0].entry.name], nodes[0].children);
      PreBytes(dir, nodes[1..]);
      BytesPlus([Row(dir, nodes[0].entry)] + below, Pre(dir, nodes[1..]));
      BytesPlus([Row(dir, nodes[0].entry)], below);
      assert Bytes([Row(dir, nodes[0].entry)]) == Own(nodes[0].entry);
    }
  }

  /** One node at the head of a forest. */
  lemma PreFirst(dir: Path, node: Node, nodes: seq<Node>)
    ensures Pre(dir, [node]) == [Row(dir, node.entry)] + Pre(dir + [node.entry.name], node.children)
    ensures Pre(dir, [node] + nodes) == Pre(dir, [node]) + Pre(dir, nodes)
    ensures SizeAll([node]) == Size(node)
    ensures SizeAll([node] + nodes) == Size(node) + SizeAll(nodes)
    ensures CountAll([node]) == Count(node)
  {
    assert [node][1..] == [];
    assert Pre(dir, []) == [];
    PrePlus(dir, [node], nodes);
    SizePlus([node], nodes);
  }

  /** Only directories have children. */
  predicate Kinds(nodes: seq<Node>)
    decreases nodes
  {
    nodes == [] ||
    (&& (!nodes[0].entry.Directory? ==> nodes[0].children == [])
     && Kinds(nodes[0].children)
     && Kinds(nodes[1..]))
  }

  lemma {:induction false} KindsPlus(a: seq<Node>, b: seq<Node>)
    ensures Kinds(a + b) <==> Kinds(a) && Kinds(b)
  {
    if a == [] {
      assert a + b == b;
    } else {
      assert (a + b)[1..] == a[1..] + b;
      KindsPlus(a[1..], b);
    }
  }

  lemma OneKind(node: Node)
    requires node.entry.Directory? && Kinds(node.children)
    ensures Kinds([node])
  {
    assert [node][1..] == [];
  }

  lemma KindsOne(nodes: seq<Node>)
    requires nodes != [] && Kinds(nodes)
    ensures Kinds([nodes[0]]) && Kinds(nodes[1..]) && Kinds(nodes[0].children)
  {
    assert [nodes[0]][1..] == [];
  }

  lemma PlusAssociates<T>(a: seq<T>, b: seq<T>, c: seq<T>)
    ensures a + (b + c) == (a + b) + c
  {
  }
}
