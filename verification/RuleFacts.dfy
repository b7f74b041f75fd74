/** What the rule promises of the parts it cuts, read off its short recursion. */
module RuleFacts {
  import opened Tree
  import opened Rule
  import opened OnePass

  // ----- nothing is lost

  /** Carried rows stay carried only while nothing came that could take them along. */
  lemma {:induction false} CarryLeaves(dir: Path, nodes: seq<Node>, budget: nat, carry: seq<Row>, group: seq<Row>, bytes: nat)
    ensures Split(dir, nodes, budget, carry, group, bytes).carry == if nodes == [] && group == [] then carry else []
    decreases nodes
  {
    if nodes != [] {
      if Oversize(nodes[0], budget) {
        var before := Flush(carry, group);
        DescentTakesCarry(dir, nodes[0], budget, before.carry);
        CarryLeaves(dir, nodes[1..], budget, [], [], 0);
      } else {
        PreFirst(dir, nodes[0], []);
        var group' := if group != [] && bytes + Size(nodes[0]) > budget then Pre(dir, [nodes[0]]) else group + Pre(dir, [nodes[0]]);
        assert group' != [];
        if group != [] && bytes + Size(nodes[0]) > budget {
          CarryLeaves(dir, nodes[1..], budget, [], group', Size(nodes[0]));
        } else {
          CarryLeaves(dir, nodes[1..], budget, carry, group', bytes + Size(nodes[0]));
        }
      }
    }
  }

  /** A directory that is cut takes everything carried with it, its own row included. */
  lemma {:induction false} DescentTakesCarry(dir: Path, node: Node, budget: nat, carry: seq<Row>)
    ensures Descend(dir, node, budget, carry).carry == []
    decreases node
  {
    var own := Row(dir, node.entry);
    CarryLeaves(dir + [node.entry.name], node.children, budget, carry + [own], [], 0);
  }

  lemma OnePart(part: seq<Row>, parts: seq<seq<Row>>)
    ensures Concat([part]) == part
    ensures Concat([part] + parts) == part + Concat(parts)
    ensures Concat(parts + [part]) == Concat(parts) + part
  {
    assert [part][1..] == [];
    ConcatPlus([part], parts);
    ConcatPlus(parts, [part]);
  }

  /** Three cuts in a row, each with what it carries over, against the rows they stand for. */
  lemma CutsConcat(a: Cut, b: Cut, c: Cut, carry: seq<Row>, group: seq<Row>, child: seq<Row>, later: seq<Row>)
    requires Concat(a.parts) + a.carry == carry + group
    requires Concat(b.parts) + b.carry == a.carry + child
    requires Concat(c.parts) + c.carry == b.carry + later
    ensures Concat(a.parts + b.parts + c.parts) + c.carry == carry + group + (child + later)
  {
    hide Concat;
    ConcatPlus(a.parts + b.parts, c.parts);
    ConcatPlus(a.parts, b.parts);
    var x, y, z := Concat(a.parts), Concat(b.parts), Concat(c.parts);
    assert ((x + y) + z) + c.carry == (x + y) + (z + c.carry) == (x + (y + b.carry)) + later;
    assert (x + (a.carry + child)) + later == (x + a.carry) + (child + later);
  }

  lemma {:induction false} SplitConcat(dir: Path, nodes: seq<Node>, budget: nat, carry: seq<Row>, group: seq<Row>, bytes: nat)
    ensures var cut := Split(dir, nodes, budget, carry, group, bytes);
            Concat(cut.parts) + cut.carry == carry + group + Pre(dir, nodes)
    decreases nodes
  {
    hide SizeAll, Concat, Descend;
    if nodes == [] {
      OnePart(carry + group, []);
      NoParts();
    } else {
      var child, later := nodes[0], nodes[1..];
      assert nodes == [child] + later;
      PreFirst(dir, child, later);
      if Oversize(child, budget) {
        var before := Flush(carry, group);
        var below := Descend(dir, child, budget, before.carry);
        var after := Split(dir, later, budget, below.carry, [], 0);
        FlushConcat(carry, group);
        DescendConcat(dir, child, budget, before.carry);
        SplitConcat(dir, later, budget, below.carry, [], 0);
        CutsConcat(before, below, after, carry, group, Pre(dir, [child]), Pre(dir, later));
      } else if group != [] && bytes + Size(child) > budget {
        SplitConcat(dir, later, budget, [], Pre(dir, [child]), Size(child));
        var after := Split(dir, later, budget, [], Pre(dir, [child]), Size(child));
        OnePart(carry + group, after.parts);
        PlusAssociates(carry + group, Concat(after.parts), after.carry);
        PlusAssociates(carry + group, Pre(dir, [child]), Pre(dir, later));
      } else {
        SplitConcat(dir, later, budget, carry, group + Pre(dir, [child]), bytes + Size(child));
        assert carry + (group + Pre(dir, [child])) + Pre(dir, later) == carry + group + (Pre(dir, [child]) + Pre(dir, later));
      }
    }
  }

  lemma NoParts()
    ensures Concat<Row>([]) == []
  {
  }

  lemma FlushConcat(carry: seq<Row>, group: seq<Row>)
    ensures Concat(Flush(carry, group).parts) + Flush(carry, group).carry == carry + group
  {
    assert [carry + group][1..] == [];
  }

  lemma {:induction false} DescendConcat(dir: Path, node: Node, budget: nat, carry: seq<Row>)
    ensures var cut := Descend(dir, node, budget, carry); Concat(cut.parts) + cut.carry == carry + Pre(dir, [node])
    decreases node
  {
    hide SizeAll, Concat, Split;
    var own := Row(dir, node.entry);
    var inner := Split(dir + [node.entry.name], node.children, budget, carry + [own], [], 0);
    SplitConcat(dir + [node.entry.name], node.children, budget, carry + [own], [], 0);
    PreFirst(dir, node, []);
    OnePart(inner.carry, inner.parts);
    var below := Pre(dir + [node.entry.name], node.children);
    assert (carry + [own]) + [] + below == carry + ([own] + below);
    assert (Concat(inner.parts) + inner.carry) + [] == Concat(inner.parts) + inner.carry;
  }

  /** The parts one after another are the tree in walk order: each row once, none missing. */
  lemma PartsAreTheWalk(nodes: seq<Node>, budget: nat)
    ensures Concat(Parts(nodes, budget)) == Pre([], nodes)
  {
    SplitConcat([], nodes, budget, [], [], 0);
    CarryLeaves([], nodes, budget, [], [], 0);
    assert [] + [] + Pre([], nodes) == Pre([], nodes);
    assert Concat(Parts(nodes, budget)) + [] == Concat(Parts(nodes, budget));
  }

  // ----- what one part holds

  /** `nodes` are the children of directory `dir` of the tree `root`, which starts at `at`. */
  ghost predicate Under(root: seq<Node>, at: Path, dir: Path, nodes: seq<Node>)
    decreases root
  {
    || (dir == at && nodes == root)
    || (exists i :: 0 <= i < |root| && Under(root[i].children, at + [root[i].entry.name], dir, nodes))
  }

  /** One part, taken apart: carried rows, and consecutive children of a directory between those before and after them. */
  datatype Piece = Piece(chain: seq<Row>, dir: Path, before: seq<Node>, run: seq<Node>, after: seq<Node>)

  function Siblings(p: Piece): seq<Node> {
    p.before + p.run + p.after
  }

  /** The own row of a directory of the tree whose subtree does not fit the budget. */
  ghost predicate TooLarge(tree: seq<Node>, row: Row, budget: nat) {
    exists nodes, i :: Under(tree, [], row.dir, nodes) && IsLarge(nodes, i, row, budget)
  }

  predicate IsLarge(nodes: seq<Node>, i: nat, row: Row, budget: nat) {
    i < |nodes| && nodes[i].entry == row.entry && Oversize(nodes[i], budget)
  }

  /** A chain of rows of directories over the budget, each inside the one before, the last of them `dir` itself. */
  ghost predicate Chain(tree: seq<Node>, chain: seq<Row>, dir: Path, budget: nat) {
    && (forall i :: 0 <= i < |chain| ==> TooLarge(tree, chain[i], budget))
    && (forall i :: 0 <= i < |chain| - 1 ==> chain[i + 1].dir == PathOf(chain[i]))
    && (chain != [] ==> PathOf(chain[|chain| - 1]) == dir)
  }

  /**
   * A part is the carried rows of directories too large for one part, then one sibling run with
   * whole subtrees, which is within budget or a single file or symlink.
   */
  ghost predicate PieceOk(tree: seq<Node>, part: seq<Row>, p: Piece, budget: nat) {
    && part == p.chain + Pre(p.dir, p.run) && part != []
    && Chain(tree, p.chain, p.dir, budget)
    && Under(tree, [], p.dir, Siblings(p))
    && RunFits(p.run, budget)
  }

  ghost predicate PiecesOk(tree: seq<Node>, parts: seq<seq<Row>>, pieces: seq<Piece>, budget: nat) {
    |pieces| == |parts| && forall i :: 0 <= i < |parts| ==> PieceOk(tree, parts[i], pieces[i], budget)
  }

  /** The second run starts right behind the first one, among the children of one directory. */
  predicate Abut(p: Piece, q: Piece) {
    && p.dir == q.dir && p.run != [] && q.run != []
    && p.before + p.run == q.before && Siblings(p) == Siblings(q)
  }

  /** The first run could not have taken the first child of the second one as well. */
  predicate Tight(p: Piece, q: Piece, budget: nat) {
    Abut(p, q) ==> SizeAll(p.run) + Size(q.run[0]) > budget
  }

  ghost predicate AllTight(pieces: seq<Piece>, budget: nat) {
    forall i :: 0 <= i < |pieces| - 1 ==> Tight(pieces[i], pieces[i + 1], budget)
  }

  lemma {:induction false} UnderChild(root: seq<Node>, at: Path, dir: Path, nodes: seq<Node>, i: nat)
    requires Under(root, at, dir, nodes) && i < |nodes|
    ensures Under(root, at, dir + [nodes[i].entry.name], nodes[i].children)
    decreases root
  {
    if dir == at && nodes == root {
      assert Under(root[i].children, at + [root[i].entry.name], dir + [nodes[i].entry.name], nodes[i].children);
    } else {
      var j :| 0 <= j < |root| && Under(root[j].children, at + [root[j].entry.name], dir, nodes);
      UnderChild(root[j].children, at + [root[j].entry.name], dir, nodes, i);
    }
  }

  /** Pieces of `dir` or below it; the first one is as a cut that starts with `before` and `run` leaves it. */
  ghost predicate From(pieces: seq<Piece>, dir: Path, before: seq<Node>, run: seq<Node>) {
    && (forall i :: 0 <= i < |pieces| ==> |pieces[i].dir| >= |dir|)
    && (pieces != [] ==>
          if run != [] || pieces[0].dir == dir then pieces[0].dir == dir && pieces[0].before == before && run <= pieces[0].run
          else pieces[0].before == [])
  }

  /** Pieces of one cut behind those of another, when nothing can go on across the seam. */
  lemma PiecesPlus(tree: seq<Node>, a: seq<seq<Row>>, p: seq<Piece>, b: seq<seq<Row>>, q: seq<Piece>, budget: nat)
    requires PiecesOk(tree, a, p, budget) && PiecesOk(tree, b, q, budget) && AllTight(p, budget) && AllTight(q, budget)
    requires p != [] && q != [] ==> Tight(p[|p| - 1], q[0], budget)
    ensures PiecesOk(tree, a + b, p + q, budget) && AllTight(p + q, budget)
  {
    hide PieceOk, Tight;
    forall i | 0 <= i < |a + b|
      ensures PieceOk(tree, (a + b)[i], (p + q)[i], budget)
    {
      if i >= |a| {
        assert (a + b)[i] == b[i - |a|] && (p + q)[i] == q[i - |a|];
      }
    }
    forall i | 0 <= i < |p + q| - 1
      ensures Tight((p + q)[i], (p + q)[i + 1], budget)
    {
      if i >= |p| {
        assert (p + q)[i] == q[i - |p|] && (p + q)[i + 1] == q[i - |p| + 1];
      }
    }
  }

  /** Pieces of a directory below do not go on in the one they are cut from, nor in the next one below. */
  lemma BelowEnds(p: seq<Piece>, q: seq<Piece>, dir: Path, before: seq<Node>, budget: nat)
    requires p != [] && q != [] && From(q, dir, before, []) && |p[|p| - 1].dir| > |dir|
    ensures Tight(p[|p| - 1], q[0], budget)
  {
  }

  lemma RunEnds(p: Piece, q: seq<Piece>, budget: nat)
    requires q != [] && forall i :: 0 <= i < |q| ==> |q[i].dir| > |p.dir|
    ensures Tight(p, q[0], budget)
  {
  }

  /** The part of a run that is closed. */
  lemma OnePiece(tree: seq<Node>, p: Piece, budget: nat)
    requires Chain(tree, p.chain, p.dir, budget) && Under(tree, [], p.dir, Siblings(p)) && RunFits(p.run, budget)
    requires p.chain + Pre(p.dir, p.run) != []
    ensures PiecesOk(tree, [p.chain + Pre(p.dir, p.run)], [p], budget) && AllTight([p], budget)
  {
  }

  lemma NoPieces(tree: seq<Node>, dir: Path, before: seq<Node>, run: seq<Node>, budget: nat)
    ensures PiecesOk(tree, [], [], budget) && AllTight([], budget) && From([], dir, before, run)
    ensures Chain(tree, [], dir, budget) && Pre(dir, []) == []
  {
  }

  /** The pieces of the cut of the children of `dir` from `nodes` on, `run` being open and `before` done. */
  lemma {:induction false} SplitOk(tree: seq<Node>, dir: Path, before: seq<Node>, run: seq<Node>, nodes: seq<Node>, budget: nat, carry: seq<Row>)
    returns (pieces: seq<Piece>)
    requires Chain(tree, carry, dir, budget) && RunFits(run, budget) && Under(tree, [], dir, before + run + nodes)
    ensures PiecesOk(tree, Split(dir, nodes, budget, carry, Pre(dir, run), SizeAll(run)).parts, pieces, budget)
    ensures AllTight(pieces, budget) && From(pieces, dir, before, run)
    decreases nodes
  {
    hide Under, Pre, PiecesOk, Chain, AllTight, From, Split, SizeAll;
    NoPieces(tree, dir, before, run, budget);
    PreLength(dir, run);
    if nodes == [] {
      SplitEnds(dir, budget, carry, run);
      if run == [] {
        pieces := [];
      } else {
        pieces := [Piece(carry, dir, before, run, [])];
        OnePiece(tree, pieces[0], budget);
        FromOne(pieces[0]);
      }
    } else {
      var child, later := nodes[0], nodes[1..];
      assert nodes == [child] + later;
      if Oversize(child, budget) {
        pieces := OversizeOk(tree, dir, before, run, nodes, budget, carry);
      } else if run != [] && SizeAll(run) + Size(child) > budget {
        SplitCloses(dir, nodes, budget, carry, run);
        FitsAlone(child, budget);
        var p := Piece(carry, dir, before, run, nodes);
        OnePiece(tree, p, budget);
        assert before + run + nodes == (before + run) + [child] + later;
        var q := SplitOk(tree, dir, before + run, [child], later, budget, []);
        RunCloses(p, q, budget);
        PiecesPlus(tree, [carry + Pre(dir, run)], [p], Split(dir, later, budget, [], Pre(dir, [child]), SizeAll([child])).parts, q, budget);
        FromRun(p, q);
        pieces := [p] + q;
      } else {
        SplitJoins(dir, nodes, budget, carry, run);
        FitsLonger(run, child, budget);
        assert before + run + nodes == before + (run + [child]) + later;
        pieces := SplitOk(tree, dir, before, run + [child], later, budget, carry);
        FromLonger(pieces, dir, before, run, child);
      }
    }
  }

  // What the rule does with the next child.

  lemma SplitEnds(dir: Path, budget: nat, carry: seq<Row>, run: seq<Node>)
    ensures Split(dir, [], budget, carry, Pre(dir, run), SizeAll(run)).parts == if run == [] then [] else [carry + Pre(dir, run)]
  {
    PreLength(dir, run);
  }

  lemma SplitCloses(dir: Path, nodes: seq<Node>, budget: nat, carry: seq<Row>, run: seq<Node>)
    requires nodes != [] && !Oversize(nodes[0], budget) && run != [] && SizeAll(run) + Size(nodes[0]) > budget
    ensures Split(dir, nodes, budget, carry, Pre(dir, run), SizeAll(run)).parts
         == [carry + Pre(dir, run)] + Split(dir, nodes[1..], budget, [], Pre(dir, [nodes[0]]), SizeAll([nodes[0]])).parts
  {
    hide Pre, Oversize;
    PreLength(dir, run);
    PreFirst(dir, nodes[0], []);
  }

  lemma SplitJoins(dir: Path, nodes: seq<Node>, budget: nat, carry: seq<Row>, run: seq<Node>)
    requires nodes != [] && !Oversize(nodes[0], budget) && (run == [] || SizeAll(run) + Size(nodes[0]) <= budget)
    ensures Split(dir, nodes, budget, carry, Pre(dir, run), SizeAll(run))
         == Split(dir, nodes[1..], budget, carry, Pre(dir, run + [nodes[0]]), SizeAll(run + [nodes[0]]))
  {
    hide Pre, Oversize, SizeAll;
    PreNone(dir);
    SizePlus(run, [nodes[0]]);
    PrePlus(dir, run, [nodes[0]]);
    PreFirst(dir, nodes[0], []);
  }

  lemma FitsAlone(child: Node, budget: nat)
    requires !Oversize(child, budget)
    ensures RunFits([child], budget)
  {
    PreFirst([], child, []);
  }

  lemma FitsLonger(run: seq<Node>, child: Node, budget: nat)
    requires !Oversize(child, budget) && (run == [] || SizeAll(run) + Size(child) <= budget)
    ensures RunFits(run + [child], budget)
  {
    SizePlus(run, [child]);
    PreFirst([], child, []);
  }

  /** An over-budget child: the run before it, its own pieces, and those behind it. */
  lemma {:induction false} OversizeOk(tree: seq<Node>, dir: Path, before: seq<Node>, run: seq<Node>, nodes: seq<Node>, budget: nat, carry: seq<Row>)
    returns (pieces: seq<Piece>)
    requires Chain(tree, carry, dir, budget) && RunFits(run, budget) && Under(tree, [], dir, before + run + nodes)
    requires nodes != [] && Oversize(nodes[0], budget)
    ensures PiecesOk(tree, Split(dir, nodes, budget, carry, Pre(dir, run), SizeAll(run)).parts, pieces, budget)
    ensures AllTight(pieces, budget) && From(pieces, dir, before, run)
    decreases nodes, 0
  {
    hide Under, Pre, PiecesOk, Chain, AllTight, From;
    NoPieces(tree, dir, before, run, budget);
    PreLength(dir, run);
    var child, later := nodes[0], nodes[1..];
    assert nodes == [child] + later;
    var flushed := Flush(carry, Pre(dir, run));
    var p: seq<Piece> := [];
    if run != [] {
      p := [Piece(carry, dir, before, run, nodes)];
      OnePiece(tree, p[0], budget);
    }
    var q := DescendOk(tree, dir, before + run + nodes, |before + run|, budget, flushed.carry);
    var below := Descend(dir, child, budget, flushed.carry);
    DescentTakesCarry(dir, child, budget, flushed.carry);
    assert before + run + nodes == (before + run + [child]) + [] + later;
    NoPieces(tree, dir, before + run + [child], [], budget);
    var r := SplitOk(tree, dir, before + run + [child], [], later, budget, []);
    var after := Split(dir, later, budget, [], [], 0);
    if p != [] && q != [] {
      RunEnds(p[0], q, budget);
    }
    PiecesPlus(tree, flushed.parts, p, below.parts, q, budget);
    SeamBelow(p, q, r, dir, before + run + [child], budget);
    PiecesPlus(tree, flushed.parts + below.parts, p + q, after.parts, r, budget);
    FromThree(p, q, r, dir, before, run, before + run + [child]);
    pieces := p + q + r;
  }

  lemma FromOne(p: Piece)
    ensures From([p], p.dir, p.before, p.run)
  {
  }

  lemma FromRun(p: Piece, q: seq<Piece>)
    requires forall i :: 0 <= i < |q| ==> |q[i].dir| >= |p.dir|
    ensures From([p] + q, p.dir, p.before, p.run)
  {
  }

  lemma FromLonger(pieces: seq<Piece>, dir: Path, before: seq<Node>, run: seq<Node>, child: Node)
    requires From(pieces, dir, before, run + [child])
    ensures From(pieces, dir, before, run)
  {
  }

  /** The run that the next child did not fit into is followed by one that starts with that child. */
  lemma RunCloses(p: Piece, q: seq<Piece>, budget: nat)
    requires p.run != [] && p.after != [] && SizeAll(p.run) + Size(p.after[0]) > budget
    requires From(q, p.dir, p.before + p.run, [p.after[0]])
    ensures forall i :: 0 <= i < |q| ==> |q[i].dir| >= |p.dir|
    ensures q != [] ==> Tight(p, q[0], budget)
  {
    if q != [] {
      assert q[0].run[0] == p.after[0];
    }
  }

  lemma SeamBelow(p: seq<Piece>, q: seq<Piece>, r: seq<Piece>, dir: Path, before: seq<Node>, budget: nat)
    requires q != [] && From(r, dir, before, []) && forall i :: 0 <= i < |q| ==> |q[i].dir| > |dir|
    ensures r != [] ==> Tight((p + q)[|p + q| - 1], r[0], budget)
  {
    if r != [] {
      assert (p + q)[|p + q| - 1] == q[|q| - 1];
      BelowEnds(q, r, dir, before, budget);
    }
  }

  lemma FromThree(p: seq<Piece>, q: seq<Piece>, r: seq<Piece>, dir: Path, before: seq<Node>, run: seq<Node>, later: seq<Node>)
    requires if run == [] then p == [] else |p| == 1 && p[0].dir == dir && p[0].before == before && p[0].run == run
    requires q != [] && q[0].before == [] && forall i :: 0 <= i < |q| ==> |q[i].dir| > |dir|
    requires From(r, dir, later, [])
    ensures From(p + q + r, dir, before, run)
  {
    var all := p + q + r;
    forall i | 0 <= i < |all|
      ensures |all[i].dir| >= |dir|
    {
      assert all[i] == if i < |p| then p[i] else if i < |p| + |q| then q[i - |p|] else r[i - |p| - |q|];
    }
    assert all[0] == if p != [] then p[0] else q[0];
  }

  /** The pieces of a directory over the budget: all of them lie below it. */
  lemma {:induction false} DescendOk(tree: seq<Node>, dir: Path, siblings: seq<Node>, i: nat, budget: nat, carry: seq<Row>)
    returns (pieces: seq<Piece>)
    requires Chain(tree, carry, dir, budget) && Under(tree, [], dir, siblings)
    requires i < |siblings| && Oversize(siblings[i], budget)
    ensures PiecesOk(tree, Descend(dir, siblings[i], budget, carry).parts, pieces, budget) && AllTight(pieces, budget)
    ensures pieces != [] && pieces[0].before == [] && forall k :: 0 <= k < |pieces| ==> |pieces[k].dir| > |dir|
    decreases siblings[i]
  {
    var node := siblings[i];
    var own := Row(dir, node.entry);
    var below := dir + [node.entry.name];
    UnderChild(tree, [], dir, siblings, i);
    ChainMore(tree, carry, dir, siblings, i, budget);
    hide Under, PiecesOk, Chain, AllTight, Pre, Split;
    NoPieces(tree, below, [], [], budget);
    if node.children == [] {
      EmptyDirectory(dir, node, budget, carry);
      var p := Piece(carry + [own], below, [], [], []);
      assert (carry + [own]) + [] == carry + [own];
      OnePiece(tree, p, budget);
      pieces := [p];
    } else {
      assert [] + [] + node.children == node.children;
      pieces := SplitOk(tree, below, [], [], node.children, budget, carry + [own]);
      CarryLeaves(below, node.children, budget, carry + [own], [], 0);
      DescentLeaves(tree, below, node.children, budget, carry + [own], pieces);
    }
  }

  /** A directory over the budget without children leaves by itself, with what was carried. */
  lemma EmptyDirectory(dir: Path, node: Node, budget: nat, carry: seq<Row>)
    requires node.children == []
    ensures Descend(dir, node, budget, carry).parts == [carry + [Row(dir, node.entry)]]
  {
  }

  /** The own row of a directory over the budget goes on a chain. */
  lemma ChainMore(tree: seq<Node>, carry: seq<Row>, dir: Path, siblings: seq<Node>, i: nat, budget: nat)
    requires Chain(tree, carry, dir, budget) && Under(tree, [], dir, siblings)
    requires i < |siblings| && Oversize(siblings[i], budget)
    ensures Chain(tree, carry + [Row(dir, siblings[i].entry)], dir + [siblings[i].entry.name], budget)
  {
    hide Under;
    var own := Row(dir, siblings[i].entry);
    assert IsLarge(siblings, i, own, budget);
    assert TooLarge(tree, own, budget);
  }

  /** Something of a directory that has children leaves with it. */
  lemma DescentLeaves(tree: seq<Node>, dir: Path, nodes: seq<Node>, budget: nat, carry: seq<Row>, pieces: seq<Piece>)
    requires nodes != [] && PiecesOk(tree, Split(dir, nodes, budget, carry, [], 0).parts, pieces, budget)
    ensures pieces != []
  {
    SplitConcat(dir, nodes, budget, carry, [], 0);
    CarryLeaves(dir, nodes, budget, carry, [], 0);
    PreFirst(dir, nodes[0], nodes[1..]);
    assert nodes == [nodes[0]] + nodes[1..];
    var parts := Split(dir, nodes, budget, carry, [], 0).parts;
    assert parts == [] ==> Concat(parts) == [];
  }

  /**
   * Every part of a tree is such a piece, and no run could have taken the first child of the next one. None is
   * empty.
   */
  lemma PartsAreRuns(nodes: seq<Node>, budget: nat) returns (pieces: seq<Piece>)
    ensures PiecesOk(nodes, Parts(nodes, budget), pieces, budget) && AllTight(pieces, budget)
  {
    assert [] + [] + nodes == nodes;
    NoPieces(nodes, [], [], [], budget);
    pieces := SplitOk(nodes, [], [], [], nodes, budget, []);
  }
}
