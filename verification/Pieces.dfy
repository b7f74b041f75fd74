/** A part of a sorted tree comes apart in one way only, so what holds of its carried rows and its run is a fact of the part. */
module Pieces {
  import opened Tree
  import opened Order
  import opened Rule
  import opened OnePass
  import opened RuleFacts

  lemma NamesDiffer(nodes: seq<Node>, i: nat, j: nat)
    requires SortedTree(nodes) && i < |nodes| && j < |nodes| && nodes[i].entry.name == nodes[j].entry.name
    ensures i == j
    decreases nodes
  {
    hide SortedTree, Compare;
    SortedTail(nodes);
    if i > 0 && j > 0 {
      NamesDiffer(nodes[1..], i - 1, j - 1);
    } else if i != j {
      CompareEqual(nodes[i].entry.name, nodes[j].entry.name);
      Later(nodes, if i == 0 then j else i);
    }
  }

  lemma SortedTail(nodes: seq<Node>)
    requires SortedTree(nodes) && nodes != []
    ensures SortedTree(nodes[1..]) && SortedTree(nodes[0].children)
  {
  }

  lemma Later(nodes: seq<Node>, i: nat)
    requires SortedTree(nodes) && 0 < i < |nodes|
    ensures Compare(nodes[0].entry.name, nodes[i].entry.name) == Less
  {
    assert nodes[i] == nodes[1..][i - 1];
  }

  lemma SortedChild(nodes: seq<Node>, i: nat)
    requires SortedTree(nodes) && i < |nodes|
    ensures SortedTree(nodes[i].children)
    decreases nodes
  {
    if i > 0 {
      SortedChild(nodes[1..], i - 1);
    }
  }

  lemma UnderExtends(root: seq<Node>, at: Path, dir: Path, nodes: seq<Node>)
    requires Under(root, at, dir, nodes)
    ensures at <= dir
    decreases root
  {
    if !(dir == at && nodes == root) {
      var i :| 0 <= i < |root| && Under(root[i].children, at + [root[i].entry.name], dir, nodes);
      UnderExtends(root[i].children, at + [root[i].entry.name], dir, nodes);
    }
  }

  /** A directory's path leads to one list of children. */
  lemma {:induction false} UnderOnce(root: seq<Node>, at: Path, dir: Path, left: seq<Node>, right: seq<Node>)
    requires SortedTree(root) && Under(root, at, dir, left) && Under(root, at, dir, right)
    ensures left == right && SortedTree(left)
    decreases root
  {
    if dir == at {
      RootOnly(root, at, left);
      RootOnly(root, at, right);
    } else {
      var i :| 0 <= i < |root| && Under(root[i].children, at + [root[i].entry.name], dir, left);
      var j :| 0 <= j < |root| && Under(root[j].children, at + [root[j].entry.name], dir, right);
      UnderExtends(root[i].children, at + [root[i].entry.name], dir, left);
      UnderExtends(root[j].children, at + [root[j].entry.name], dir, right);
      assert root[i].entry.name == dir[|at|] == root[j].entry.name;
      NamesDiffer(root, i, j);
      SortedChild(root, i);
      UnderOnce(root[i].children, at + [root[i].entry.name], dir, left, right);
    }
  }

  lemma RootOnly(root: seq<Node>, at: Path, nodes: seq<Node>)
    requires Under(root, at, at, nodes)
    ensures nodes == root
  {
    if nodes != root {
      var i :| 0 <= i < |root| && Under(root[i].children, at + [root[i].entry.name], at, nodes);
      UnderExtends(root[i].children, at + [root[i].entry.name], at, nodes);
    }
  }

  /** What starts a run is not the row of a directory over the budget. */
  lemma RunIsNotLarge(tree: seq<Node>, p: Piece, budget: nat)
    requires SortedTree(tree) && Under(tree, [], p.dir, Siblings(p)) && RunFits(p.run, budget) && p.run != []
    ensures !TooLarge(tree, Row(p.dir, p.run[0].entry), budget)
  {
    var row := Row(p.dir, p.run[0].entry);
    if TooLarge(tree, row, budget) {
      var nodes, i :| Under(tree, [], row.dir, nodes) && IsLarge(nodes, i, row, budget);
      UnderOnce(tree, [], p.dir, nodes, Siblings(p));
      assert Siblings(p)[|p.before|] == p.run[0];
      NamesDiffer(nodes, i, |p.before|);
      assert false;
    }
  }

  /** The carried rows of a part are its first rows, as many as belong to directories over the budget. */
  lemma ChainOnce(tree: seq<Node>, part: seq<Row>, p: Piece, q: Piece, budget: nat)
    requires SortedTree(tree) && PieceOk(tree, part, p, budget) && PieceOk(tree, part, q, budget)
    ensures |p.chain| <= |q.chain|
  {
    hide Chain, TooLarge;
    if |p.chain| > |q.chain| {
      assert part[|q.chain|] == p.chain[|q.chain|];
      FirstOfRun(part, q);
      LinkOf(tree, p.chain, p.dir, budget, |q.chain|);
      RunIsNotLarge(tree, q, budget);
      assert false;
    }
  }

  lemma LinkOf(tree: seq<Node>, chain: seq<Row>, dir: Path, budget: nat, i: nat)
    requires Chain(tree, chain, dir, budget) && i < |chain|
    ensures TooLarge(tree, chain[i], budget)
  {
  }

  lemma FirstOfRun(part: seq<Row>, p: Piece)
    requires part == p.chain + Pre(p.dir, p.run) && |part| > |p.chain|
    ensures p.run != [] && part[|p.chain|] == Row(p.dir, p.run[0].entry)
  {
    PreLength(p.dir, p.run);
    assert part[|p.chain|] == Pre(p.dir, p.run)[0];
  }

  lemma {:induction false} CountsDiffer(a: seq<Node>, b: seq<Node>)
    requires a <= b && CountAll(a) == CountAll(b)
    ensures a == b
  {
    if a != b {
      assert b == a + b[|a|..];
      CountPlus(a, b[|a|..]);
      assert false;
    }
  }

  /** One part has one chain and one run, and the run one place among the children of its directory. */
  lemma PieceOnce(tree: seq<Node>, part: seq<Row>, p: Piece, q: Piece, budget: nat)
    requires SortedTree(tree) && PieceOk(tree, part, p, budget) && PieceOk(tree, part, q, budget)
    ensures p.chain == q.chain && p.dir == q.dir && p.run == q.run
    ensures p.run != [] ==> p == q
  {
    ChainOnce(tree, part, p, q, budget);
    ChainOnce(tree, part, q, p, budget);
    var rows := part[|p.chain|..];
    assert rows == Pre(p.dir, p.run) == Pre(q.dir, q.run);
    assert p.chain == part[..|p.chain|] == q.chain;
    hide Under, Chain;
    PreLength(p.dir, p.run);
    PreLength(q.dir, q.run);
    if p.run != [] {
      assert p.run[0].entry == rows[0].entry && p.dir == rows[0].dir;
      assert q.run != [] && q.run[0].entry == rows[0].entry && q.dir == rows[0].dir;
      UnderOnce(tree, [], p.dir, Siblings(p), Siblings(q));
      SamePlace(p, q);
    } else {
      assert q.run == [];
    }
  }

  lemma SamePlace(p: Piece, q: Piece)
    requires p.run != [] && q.run != [] && p.run[0].entry == q.run[0].entry && p.chain == q.chain && p.dir == q.dir
    requires SortedTree(Siblings(p)) && Siblings(p) == Siblings(q) && CountAll(p.run) == CountAll(q.run)
    ensures p == q
  {
    hide SortedTree, CountAll;
    var nodes := Siblings(p);
    assert nodes[|p.before|] == p.run[0] && nodes[|q.before|] == q.run[0];
    NamesDiffer(nodes, |p.before|, |q.before|);
    assert p.before == nodes[..|p.before|] == q.before;
    var rest := nodes[|p.before|..];
    assert rest == p.run + p.after == q.run + q.after;
    if |p.run| <= |q.run| {
      assert p.run == rest[..|p.run|] && q.run[..|p.run|] == rest[..|p.run|];
      CountsDiffer(p.run, q.run);
    } else {
      assert q.run == rest[..|q.run|] && p.run[..|q.run|] == rest[..|q.run|];
      CountsDiffer(q.run, p.run);
    }
    assert p.after == rest[|p.run|..] == q.after;
  }

  /**
   * However two neighbouring parts of any sorted tree come apart: if the second one's run starts right behind the
   * first one's, the first could not have taken one more child.
   */
  lemma NeighboursAreTight(tree: seq<Node>, budget: nat, i: nat, p: Piece, q: Piece)
    requires SortedTree(tree) && i + 1 < |Parts(tree, budget)|
    requires PieceOk(tree, Parts(tree, budget)[i], p, budget) && PieceOk(tree, Parts(tree, budget)[i + 1], q, budget)
    requires Abut(p, q)
    ensures SizeAll(p.run) + Size(q.run[0]) > budget
  {
    hide PieceOk, Parts;
    var pieces := PartsAreRuns(tree, budget);
    assert PieceOk(tree, Parts(tree, budget)[i], pieces[i], budget);
    assert PieceOk(tree, Parts(tree, budget)[i + 1], pieces[i + 1], budget);
    PieceOnce(tree, Parts(tree, budget)[i], p, pieces[i], budget);
    PieceOnce(tree, Parts(tree, budget)[i + 1], q, pieces[i + 1], budget);
    assert Tight(pieces[i], pieces[i + 1], budget);
  }
}
