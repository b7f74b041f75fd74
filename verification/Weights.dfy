/** How much a one-pass state holds back, measured on the tree that is walked. */
module Weights {
  import opened Tree
  import opened Rule
  import opened OnePass
  import opened Peaks
  import opened Roots
  import opened RuleFacts
  import opened CutLists

  /** The heaviest chain of directories over the budget, one inside the other, by their own rows. */
  function LargeChain(nodes: seq<Node>, budget: nat): nat
    decreases nodes
  {
    if nodes == [] then 0
    else
      Max(if Oversize(nodes[0], budget) then Own(nodes[0].entry) + LargeChain(nodes[0].children, budget) else 0,
          LargeChain(nodes[1..], budget))
  }

  /** The heaviest row of a file or symlink. */
  function LargestLeaf(nodes: seq<Node>): nat
    decreases nodes
  {
    if nodes == [] then 0
    else
      Max(if nodes[0].entry.Directory? then LargestLeaf(nodes[0].children) else Own(nodes[0].entry), LargestLeaf(nodes[1..]))
  }

  /** No more than this waits between two steps of a walk. */
  function MostWaiting(tree: seq<Node>, budget: nat): nat {
    LargeChain(tree, budget) + Max(budget, LargestLeaf(tree)) + budget
  }

  lemma {:induction false} ChainOfChild(nodes: seq<Node>, i: nat, budget: nat)
    requires i < |nodes| && Oversize(nodes[i], budget)
    ensures LargeChain(nodes, budget) >= Own(nodes[i].entry) + LargeChain(nodes[i].children, budget)
    decreases i
  {
    if i > 0 {
      ChainOfChild(nodes[1..], i - 1, budget);
    }
  }

  lemma {:induction false} LeafOfChild(nodes: seq<Node>, i: nat)
    requires i < |nodes|
    ensures LargestLeaf(nodes) >= if nodes[i].entry.Directory? then LargestLeaf(nodes[i].children) else Own(nodes[i].entry)
    decreases i
  {
    if i > 0 {
      LeafOfChild(nodes[1..], i - 1);
    }
  }

  // ----- the open directories of a state

  /** The own rows of the levels from `k` to the innermost split one. */
  function OwnRows(s: State, k: nat): nat
    requires s.measuring <= |s.levels|
    decreases s.measuring - k
  {
    if k >= s.measuring then 0 else Own(s.levels[k].entry) + OwnRows(s, k + 1)
  }

  lemma OpenChild(r: Record, s: State, k: nat)
    requires k + 1 < |s.levels|
    ensures |Behind(r.gone, s, k)| < |Full(r.gone, s, k)|
    ensures Full(r.gone, s, k)[|Behind(r.gone, s, k)|] == Node(s.levels[k + 1].entry, Full(r.gone, s, k + 1))
  {
  }

  lemma {:induction false} RowsAreAChain(r: Record, s: State, goal: seq<seq<Row>>, k: nat, budget: nat)
    requires Shaped(s) && Rooted(r, s, goal, budget) && k < s.measuring
    ensures LargeChain(Full(r.gone, s, k), budget) >= OwnRows(s, k + 1)
    decreases s.measuring - k
  {
    if k + 1 < s.measuring {
      RowsAreAChain(r, s, goal, k + 1, budget);
      OpenChild(r, s, k);
      assert LargeAt(r.gone, s, k + 1, budget);
      hide Full, Behind, LargeChain;
      ChainOfChild(Full(r.gone, s, k), |Behind(r.gone, s, k)|, budget);
    }
  }

  lemma {:induction false} LeafInTree(r: Record, s: State, k: nat)
    requires Shaped(s) && k < |s.levels|
    ensures LargestLeaf(Full(r.gone, s, 0)) >= LargestLeaf(Full(r.gone, s, k))
    decreases k
  {
    if k > 0 {
      LeafInTree(r, s, k - 1);
      OpenChild(r, s, k - 1);
      hide Full, Behind, LargestLeaf;
      LeafOfChild(Full(r.gone, s, k - 1), |Behind(r.gone, s, k - 1)|);
    }
  }

  /** Each open directory lies in the tree with its children. */
  lemma {:induction false} OpenInTree(r: Record, s: State, goal: seq<seq<Row>>, k: nat, budget: nat)
    requires Shaped(s) && Rooted(r, s, goal, budget) && k < |s.levels|
    ensures Under(r.tree, [], s.levels[k].path, Full(r.gone, s, k))
    decreases k
  {
    if k > 0 {
      OpenInTree(r, s, goal, k - 1, budget);
      OpenChild(r, s, k - 1);
      hide Full, Behind, Under;
      UnderChild(r.tree, [], s.levels[k - 1].path, Full(r.gone, s, k - 1), |Behind(r.gone, s, k - 1)|);
    }
  }

  /** The own row of a split level belongs to a directory of the tree that is over the budget. */
  lemma SplitIsTooLarge(r: Record, s: State, goal: seq<seq<Row>>, k: nat, budget: nat)
    requires Shaped(s) && Rooted(r, s, goal, budget) && 1 <= k < s.measuring
    ensures TooLarge(r.tree, OwnRow(s.levels, k), budget)
  {
    hide Full, Behind, Under;
    OpenInTree(r, s, goal, k - 1, budget);
    OpenChild(r, s, k - 1);
    assert LargeAt(r.gone, s, k, budget);
    assert IsLarge(Full(r.gone, s, k - 1), |Behind(r.gone, s, k - 1)|, OwnRow(s.levels, k), budget);
  }

  // ----- what waits

  /** Carried rows weigh what the levels they come from do. */
  lemma {:induction false} CarriedWeigh(s: State, carry: seq<Row>)
    requires Shaped(s) && |carry| <= s.measuring - 1
    requires forall i :: 0 <= i < |carry| ==> carry[i] == OwnRow(s.levels, s.measuring - |carry| + i)
    ensures Bytes(carry) == OwnRows(s, s.measuring - |carry|)
    decreases |carry|
  {
    if carry != [] {
      CarriedWeigh(s, carry[1..]);
    }
  }

  lemma {:induction false} FewerRows(s: State, k: nat, later: nat)
    requires s.measuring <= |s.levels| && k <= later
    ensures OwnRows(s, later) <= OwnRows(s, k)
    decreases later - k
  {
    if k < later {
      FewerRows(s, k + 1, later);
    }
  }

  /** A run that is over the budget is one file or symlink of the tree. */
  lemma RunIsBounded(r: Record, s: State, budget: nat)
    requires Shaped(s) && RunFits(s.run, budget) && Kinds(s.run)
    ensures SizeAll(s.run) <= Max(budget, LargestLeaf(Full(r.gone, s, 0)))
  {
    if SizeAll(s.run) > budget {
      var m := s.measuring - 1;
      var at := if m < |r.gone| then |r.gone[m]| else 0;
      LeafInTree(r, s, m);
      InFull(r, s, m, at);
      LeafOfChild(Full(r.gone, s, m), at);
      assert s.run[1..] == [] && SizeAll(s.run) == Own(s.run[0].entry);
    }
  }

  lemma InFull(r: Record, s: State, m: nat, at: nat)
    requires m + 1 == s.measuring <= |s.levels| && s.run != [] && at == if m < |r.gone| then |r.gone[m]| else 0
    ensures at < |Full(r.gone, s, m)| && Full(r.gone, s, m)[at] == s.run[0]
  {
    assert Behind(r.gone, s, m)[at] == s.run[0];
  }

  lemma RootIsTree(r: Record, s: State, goal: seq<seq<Row>>, budget: nat)
    requires Rooted(r, s, goal, budget)
    ensures 1 <= s.measuring <= |s.levels| && r.tree == Full(r.gone, s, 0)
  {
    hide Full, Parts, Peaked;
  }

  lemma CarriedIsBounded(r: Record, s: State, goal: seq<seq<Row>>, budget: nat)
    requires Shaped(s) && Carries(s) && Rooted(r, s, goal, budget)
    ensures forall i :: 0 <= i < |s.carry| ==> TooLarge(r.tree, s.carry[i], budget)
    ensures Bytes(s.carry) <= LargeChain(r.tree, budget)
    ensures 1 <= s.measuring <= |s.levels| && r.tree == Full(r.gone, s, 0)
  {
    hide TooLarge, LargeChain, Bytes, Full, Rooted;
    RootIsTree(r, s, goal, budget);
    forall i | 0 <= i < |s.carry|
      ensures TooLarge(r.tree, s.carry[i], budget)
    {
      SplitIsTooLarge(r, s, goal, s.measuring - |s.carry| + i, budget);
    }
    CarriedWeigh(s, s.carry);
    FewerRows(s, 1, s.measuring - |s.carry|);
    RowsAreAChain(r, s, goal, 0, budget);
  }

  /**
   * Between two steps the carried rows are own rows of directories over the budget, one inside the other, and what
   * waits weighs no more than the heaviest such chain, the budget or one larger file, and one budget more.
   */
  lemma StateIsBounded(r: Record, s: State, goal: seq<seq<Row>>, budget: nat)
    requires Sound(s, budget) && Rooted(r, s, goal, budget) && Inner(s).done == []
    requires s.measuring < |s.levels| ==> Own(s.levels[s.measuring].entry) + SizeAll(Seen(s.levels, s.measuring)) <= budget
    ensures forall i :: 0 <= i < |s.carry| ==> TooLarge(r.tree, s.carry[i], budget)
    ensures Bytes(s.carry) <= LargeChain(r.tree, budget)
    ensures Bytes(WaitingRows(s)) <= Bytes(s.carry) + Max(budget, LargestLeaf(r.tree)) + budget
    ensures Bytes(WaitingRows(s)) <= MostWaiting(r.tree, budget)
  {
    hide Full, LargeChain, LargestLeaf, TooLarge, Bytes, Pre, Seen, SizeAll, WaitingRows, Under, Kinds, AllFit, Shaped,
         RunFits, Carries;
    CarriedIsBounded(r, s, goal, budget);
    RunIsBounded(r, s, budget);
    SeenIsBounded(s, budget);
    WaitingWeighs(s);
  }

  lemma WaitingWeighs(s: State)
    requires 1 <= s.measuring <= |s.levels|
    ensures Bytes(WaitingRows(s)) == Bytes(s.carry) + SizeAll(s.run) + SizeAll(Seen(s.levels, s.measuring - 1))
  {
    hide Bytes, Pre, Seen, SizeAll;
    var seen, dir := Seen(s.levels, s.measuring - 1), Inner(s).path;
    BytesPlus(s.carry, Pre(dir, s.run + seen));
    PreBytes(dir, s.run + seen);
    SizePlus(s.run, seen);
  }

  lemma SeenIsBounded(s: State, budget: nat)
    requires Shaped(s) && Inner(s).done == []
    requires s.measuring < |s.levels| ==> Own(s.levels[s.measuring].entry) + SizeAll(Seen(s.levels, s.measuring)) <= budget
    ensures SizeAll(Seen(s.levels, s.measuring - 1)) <= budget
  {
    if s.measuring < |s.levels| {
      SeenOne(s.levels, s.measuring - 1);
      assert SizeAll([]) == 0;
    } else {
      assert Seen(s.levels, s.measuring - 1) == [];
    }
  }

  /** The estimate of some rows that are known by their lines. */
  function Weight(lines: seq<Line>): nat {
    if lines == [] then 0 else Own(lines[0].entry) + Weight(lines[1..])
  }

  lemma {:induction false} RowsWeigh(rows: seq<Row>)
    ensures Weight(Strip(rows)) == Bytes(rows)
    decreases |rows|
  {
    if rows != [] {
      RowsWeigh(rows[1..]);
      assert Strip(rows)[1..] == Strip(rows[1..]);
    }
  }

  /** Without a directory over the budget no row is carried. */
  lemma {:induction false} NoChainMeansAllFit(nodes: seq<Node>, budget: nat)
    ensures LargeChain(nodes, budget) == 0 <==> AllFit(nodes, budget)
    decreases nodes
  {
    if nodes != [] {
      NoChainMeansAllFit(nodes[1..], budget);
      assert forall i :: 0 < i < |nodes| ==> nodes[i] == nodes[1..][i - 1];
      assert AllFit(nodes, budget) <==> !Oversize(nodes[0], budget) && AllFit(nodes[1..], budget);
    }
  }

  /** The bound is two budgets exactly if nothing at the top of the tree is over the budget, and no file anywhere. */
  lemma TwoBudgets(tree: seq<Node>, budget: nat)
    ensures MostWaiting(tree, budget) <= 2 * budget <==> AllFit(tree, budget) && LargestLeaf(tree) <= budget
  {
    NoChainMeansAllFit(tree, budget);
  }

  // ----- the recursion and its bound

  /** However much is carried, no more waits on top of it than the bound allows. */
  lemma {:induction false} PeakWithin(nodes: seq<Node>, budget: nat, carry: nat, run: nat, leaf: nat)
    requires Kinds(nodes) && LargestLeaf(nodes) <= leaf && run <= Max(budget, leaf)
    ensures PeakFrom(nodes, budget, carry, run) <= carry + LargeChain(nodes, budget) + Max(budget, leaf) + budget
    decreases nodes
  {
    hide LargeChain, LargestLeaf, PeakFrom, Fitting, Pre, Kinds, Size, Oversize;
    if nodes == [] {
      PeakOfNone(budget, carry, run);
    } else {
      var node, size := nodes[0], Size(nodes[0]);
      assert nodes == [node] + nodes[1..];
      FirstWeighs(nodes, budget);
      if Oversize(node, budget) {
        PeakOfOversize(node, nodes[1..], budget, carry, run);
        FittingFits(Pre([], [node]), budget);
        PeakWithin(node.children, budget, Carried(carry, run) + Own(node.entry), 0, leaf);
        PeakWithin(nodes[1..], budget, 0, 0, leaf);
      } else {
        PeakOfFitting(node, nodes[1..], budget, carry, run);
        if Closes(run, size, budget) {
          PeakWithin(nodes[1..], budget, 0, size, leaf);
        } else {
          PeakWithin(nodes[1..], budget, carry, run + size, leaf);
        }
      }
    }
  }

  lemma PeakOfNone(budget: nat, carry: nat, run: nat)
    ensures PeakFrom([], budget, carry, run) == carry + run
  {
  }

  /** The first node and what is behind it, in the chain and among the leaves. */
  lemma FirstWeighs(nodes: seq<Node>, budget: nat)
    requires nodes != [] && Kinds(nodes)
    ensures Kinds(nodes[0].children) && Kinds(nodes[1..])
    ensures LargeChain(nodes[1..], budget) <= LargeChain(nodes, budget) && LargestLeaf(nodes[1..]) <= LargestLeaf(nodes)
    ensures Oversize(nodes[0], budget) ==>
              && Own(nodes[0].entry) + LargeChain(nodes[0].children, budget) <= LargeChain(nodes, budget)
              && LargestLeaf(nodes[0].children) <= LargestLeaf(nodes)
    ensures !Oversize(nodes[0], budget) ==>
              if nodes[0].entry.Directory? then Size(nodes[0]) <= budget else Size(nodes[0]) <= LargestLeaf(nodes)
  {
    NoSize();
  }

  lemma PeakIsBounded(tree: seq<Node>, budget: nat)
    requires Kinds(tree)
    ensures Peak(tree, budget) <= MostWaiting(tree, budget)
  {
    hide PeakFrom, LargeChain, LargestLeaf;
    PeakWithin(tree, budget, 0, 0, LargestLeaf(tree));
  }
}
