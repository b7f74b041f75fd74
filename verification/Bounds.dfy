/** How much the walk holds back, and what the carried rows add to it. */
module Bounds {
  import opened Tree
  import opened Rule
  import opened Delivery
  import opened CutLists
  import opened OnePass
  import opened Levels
  import opened Steps
  import opened Cutter
  import opened Peaks
  import opened Traces
  import opened Roots
  import opened RuleFacts
  import opened Weights
  import opened Deliveries

  /**
   * Between two steps of a walk the waiting rows are those of its state: carried rows, which are own rows of
   * directories of the tree over the budget, and no more than two budgets besides, a larger file aside. The chain of
   * over-budget directories, the largest file and the budget bound them before the walk begins.
   */
  lemma WaitingIsBounded(w: Walker)
    requires w.Valid()
    ensures SourcesOk(w.waiting) && Flat(w.waiting) == Strip(WaitingRows(w.now))
    ensures |w.now.carry| < |w.stack|
    ensures forall i :: 0 <= i < |w.now.carry| ==>
              && w.now.carry[i] == OwnRow(w.now.levels, w.now.measuring - |w.now.carry| + i)
              && TooLarge(w.record.tree, w.now.carry[i], w.budget)
    ensures Weight(Flat(w.waiting)) <= Bytes(w.now.carry) + Max(w.budget, LargestLeaf(w.record.tree)) + w.budget
    ensures Weight(Flat(w.waiting)) <= Peak(w.record.tree, w.budget)
    ensures Weight(Flat(w.waiting)) <= MostWaiting(w.record.tree, w.budget)
  {
    hide Future, Delivers, Pathed, Totals, Places, Handed, Flat, Marked, Cuts, Pre, Bytes, SizeAll, Seen, Rooted, TooLarge,
         MostWaiting, LargestLeaf, Peak, Held, WaitingRows;
    StandsHeight(w.Kept(), w.goal, w.budget);
    NotesWaiting(w.Kept(), w.record, w.goal, w.budget);
    StateIsBounded(w.record, w.now, w.goal, w.budget);
    RowsWeigh(WaitingRows(w.now));
  }

  /** Two budgets are enough for a tree without a directory over the budget, if no file or link row is over it either. */
  lemma TwoBudgetsAreEnough(w: Walker)
    requires w.Valid() && AllFit(w.record.tree, w.budget) && LargestLeaf(w.record.tree) <= w.budget
    ensures SourcesOk(w.waiting) && Weight(Flat(w.waiting)) <= 2 * w.budget
  {
    hide Future, Delivers, Pathed, Totals, Places, Handed, Flat, Marked, Cuts, SizeAll, Seen, Rooted, MostWaiting, AllFit,
         LargestLeaf, Weight;
    WaitingIsBounded(w);
    TwoBudgets(w.record.tree, w.budget);
  }

  /** Directories inside one another, each with a name of one byte. */
  function Nest(depth: nat, name: Name): seq<Node>
  {
    if depth == 0 then [] else [Node(Entry.Directory(name, None, 0), Nest(depth - 1, name))]
  }

  lemma {:induction false} NestSize(depth: nat, name: Name)
    ensures SizeAll(Nest(depth, name)) == depth * (DIRECTORY_ROW + |name|)
    decreases depth
  {
    if depth > 0 {
      NestSize(depth - 1, name);
      assert Nest(depth, name)[1..] == [];
    }
  }

  /** Such a nest leaves as one part, whatever the budget: the rows of those that do not fit are all carried. */
  lemma {:induction false} NestSplit(depth: nat, name: Name, dir: Path, budget: nat, carry: seq<Row>)
    requires depth > 0
    ensures Split(dir, Nest(depth, name), budget, carry, [], 0) == Cut([carry + Pre(dir, Nest(depth, name))], [])
    decreases depth
  {
    var node := Nest(depth, name)[0];
    var own, below := Row(dir, node.entry), dir + [name];
    assert Nest(depth, name) == [node] && [node][1..] == [];
    PreFirst(dir, node, []);
    if !Oversize(node, budget) {
      var rows := Pre(dir, [node]);
      assert [] + rows == rows && rows != [];
      assert Split(dir, [], budget, carry, rows, Size(node)) == Flush(carry, rows);
      return;
    }
    var inner := Split(below, Nest(depth - 1, name), budget, carry + [own], [], 0);
    if depth == 1 {
      assert inner == Cut([], carry + [own]);
      assert Pre(below, []) == [] && [own] + [] == [own];
      assert (carry + [own])[|carry + [own]| - 1] == own;
    } else {
      NestSplit(depth - 1, name, below, budget, carry + [own]);
      PlusAssociates(carry, [own], Pre(below, Nest(depth - 1, name)));
    }
    var cut := Descend(dir, node, budget, carry);
    assert cut == Cut([carry + Pre(dir, Nest(depth, name))], []);
    assert Split(dir, [], budget, [], [], 0) == Cut([], []);
    assert [] + cut.parts + [] == cut.parts;
  }

  lemma NestParts(depth: nat, name: Name, budget: nat)
    requires depth > 0
    ensures Parts(Nest(depth, name), budget) == [Pre([], Nest(depth, name))]
    ensures Bytes(Pre([], Nest(depth, name))) == depth * (DIRECTORY_ROW + |name|)
  {
    hide Nest, Pre, Split, Bytes, SizeAll;
    NestSplit(depth, name, [], budget, []);
    assert [] + Pre([], Nest(depth, name)) == Pre([], Nest(depth, name));
    PreBytes([], Nest(depth, name));
    NestSize(depth, name);
  }

  /** All of it waits before any of it leaves. */
  lemma {:induction false} NestPeaks(depth: nat, name: Name, budget: nat, carry: nat)
    ensures PeakFrom(Nest(depth, name), budget, carry, 0) >= carry + SizeAll(Nest(depth, name))
    decreases depth
  {
    hide PeakFrom;
    if depth == 0 {
      PeakStarts([], budget, carry, 0);
    } else {
      var node := Nest(depth, name)[0];
      assert Nest(depth, name) == [node] + [] && [node][1..] == [];
      if Oversize(node, budget) {
        PeakOfOversize(node, [], budget, carry, 0);
        NestPeaks(depth - 1, name, budget, carry + Own(node.entry));
      } else {
        PeakOfFitting(node, [], budget, carry, 0);
      }
    }
  }

  /**
   * So for no budget are the rows that wait, or those of one part, bounded by any multiple of it:
   * the carried rows come on top, as many as directories are split inside one another.
   */
  lemma CarriedRowsPassAnyMultiple(multiple: nat, budget: nat)
    ensures var tree := Nest(multiple * budget + 1, [97]);
            && Peak(tree, budget) > multiple * budget
            && Parts(tree, budget) == [Pre([], tree)] && Bytes(Pre([], tree)) > multiple * budget
  {
    hide Nest, Pre, Parts, Bytes, PeakFrom;
    NestParts(multiple * budget + 1, [97], budget);
    NestPeaks(multiple * budget + 1, [97], budget, 0);
    PreBytes([], Nest(multiple * budget + 1, [97]));
    AtLeast(multiple * budget + 1, DIRECTORY_ROW + 1);
  }

  lemma AtLeast(depth: nat, width: nat)
    requires width > 0
    ensures depth * width >= depth
  {
  }

  // ----- the bound is reached

  /** A file whose row weighs this much. */
  function FileOf(weight: nat): Node
    requires FILE_ROW <= weight
  {
    Node(Entry.File(seq(weight - FILE_ROW, i => 97), 0, None, 0), [])
  }

  /** A file of weight `leaf` and a directory that just fits the budget. */
  function Foot(budget: nat, leaf: nat): seq<Node>
    requires FILE_ROW < leaf && DIRECTORY_ROW + 1 + FILE_ROW < budget
  {
    [FileOf(leaf), Node(Entry.Directory([98], None, 0), [FileOf(budget - DIRECTORY_ROW - 1)])]
  }

  /** The same below `depth` directories, one inside the other. */
  function Tower(depth: nat, budget: nat, leaf: nat): seq<Node>
    requires FILE_ROW < leaf && DIRECTORY_ROW + 1 + FILE_ROW < budget
  {
    if depth == 0 then Foot(budget, leaf)
    else [Node(Entry.Directory([97], None, 0), Tower(depth - 1, budget, leaf))]
  }

  lemma FootWeighs(budget: nat, leaf: nat)
    requires FILE_ROW < leaf && DIRECTORY_ROW + 1 + FILE_ROW < budget <= leaf
    ensures var nodes := Foot(budget, leaf);
            && nodes == [nodes[0]] + [nodes[1]] && !nodes[0].entry.Directory? && nodes[1].entry.Directory?
            && Size(nodes[0]) == leaf && Size(nodes[1]) == budget && SizeAll(nodes) > budget
            && LargeChain(nodes, budget) == 0 && LargestLeaf(nodes) == leaf && Kinds(nodes)
  {
    var nodes := Foot(budget, leaf);
    var inner := nodes[1].children;
    assert nodes[1..] == [nodes[1]] && [nodes[1]][1..] == [] && inner[1..] == [];
    assert SizeAll(inner) == budget - DIRECTORY_ROW - 1;
    assert LargestLeaf(inner) == budget - DIRECTORY_ROW - 1;
    assert LargeChain(nodes[1..], budget) == 0 && LargestLeaf(nodes[1..]) == budget - DIRECTORY_ROW - 1;
  }

  lemma FootPeaks(budget: nat, leaf: nat, carry: nat)
    requires FILE_ROW < leaf && DIRECTORY_ROW + 1 + FILE_ROW < budget <= leaf
    ensures PeakFrom(Foot(budget, leaf), budget, carry, 0) >= carry + leaf + budget
  {
    hide PeakFrom, SizeAll, LargeChain, LargestLeaf, Kinds, Foot, FileOf, Size;
    FootWeighs(budget, leaf);
    var nodes := Foot(budget, leaf);
    PeakOfFitting(nodes[0], [nodes[1]], budget, carry, 0);
    assert [nodes[1]] + [] == [nodes[1]];
    PeakOfFitting(nodes[1], [], budget, carry, leaf);
  }

  lemma {:induction false} TowerPeaks(depth: nat, budget: nat, leaf: nat, carry: nat)
    requires FILE_ROW < leaf && DIRECTORY_ROW + 1 + FILE_ROW < budget <= leaf
    ensures var nodes := Tower(depth, budget, leaf);
            && PeakFrom(nodes, budget, carry, 0) >= carry + LargeChain(nodes, budget) + leaf + budget
            && LargeChain(nodes, budget) == depth * (DIRECTORY_ROW + 1) && LargestLeaf(nodes) == leaf
            && Kinds(nodes) && SizeAll(nodes) > budget
    decreases depth
  {
    hide PeakFrom, SizeAll, LargeChain, LargestLeaf, Kinds, Foot, FileOf;
    if depth == 0 {
      FootWeighs(budget, leaf);
      FootPeaks(budget, leaf, carry);
    } else {
      var node := Tower(depth, budget, leaf)[0];
      TowerPeaks(depth - 1, budget, leaf, carry + Own(node.entry));
      assert [node] + [] == [node];
      PeakOfOversize(node, [], budget, carry, 0);
      OneWeighs(node, budget);
      Times(depth, DIRECTORY_ROW + 1);
    }
  }

  lemma OneWeighs(node: Node, budget: nat)
    requires Oversize(node, budget)
    ensures LargeChain([node], budget) == Own(node.entry) + LargeChain(node.children, budget)
    ensures LargestLeaf([node]) == LargestLeaf(node.children) && SizeAll([node]) == Size(node)
    ensures Kinds([node]) <==> Kinds(node.children)
  {
    assert [node][1..] == [];
  }

  lemma Times(depth: nat, width: nat)
    requires depth > 0
    ensures width + (depth - 1) * width == depth * width
  {
  }

  /** For every depth, every budget with room for a directory and a file, and every larger file there is a tree that reaches the bound. */
  lemma BoundIsReached(depth: nat, budget: nat, leaf: nat)
    requires DIRECTORY_ROW + 1 + FILE_ROW < budget <= leaf
    ensures var tree := Tower(depth, budget, leaf);
            && Peak(tree, budget) == MostWaiting(tree, budget) == depth * (DIRECTORY_ROW + 1) + leaf + budget
            && Kinds(tree)
  {
    hide PeakFrom, LargeChain, LargestLeaf, Kinds, Tower, SizeAll;
    TowerPeaks(depth, budget, leaf, 0);
    PeakIsBounded(Tower(depth, budget, leaf), budget);
  }

  // ----- the walk of a given tree

  /**
   * Walks a tree, each directory in one scan, and comes to a state that holds back just what the recursion says; so the
   * bound is reached by walks, and `NothingPassesThePeak`.
   */
  method WalkTree(tree: seq<Node>, budget: nat) returns (sealed: seq<CutList>, ghost trace: seq<State>)
    requires Kinds(tree)
    ensures Handed(sealed, Parts(tree, budget))
    ensures Trace(trace, tree, budget) && Reaches(trace, Peak(tree, budget), budget)
  {
    hide Parts, Handed, HandedPrefix, UnitOk, Children, CleanUnit, Plain, Peak, Walked, MostWaiting, Means, Trace,
         Reaches;
    var root := UnitOf(tree);
    EveryTreeIsDelivered(tree, budget);
    PlainIsWalked(root);
    var walker := new Walker(budget, false, _ => true, _ => false);
    var r;
    ghost var heaviest;
    r, heaviest, trace := walker.Run(root);
    sealed := walker.sealed;
  }
}
