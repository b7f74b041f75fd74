/** Where the rule cuts: subtrees that fit stay together, and runs are as long as they can be. */
module RuleRuns {
  import opened Tree
  import opened Rule
  import opened OnePass
  import opened RuleFacts

  // ----- a subtree that fits is never split

  /** `rows` are somewhere in one of `parts`, side by side. */
  ghost predicate Together(parts: seq<seq<Row>>, rows: seq<Row>) {
    exists i: nat, before, after :: i < |parts| && parts[i] == before + rows + after
  }

  lemma TogetherPlus(a: seq<seq<Row>>, b: seq<seq<Row>>, rows: seq<Row>)
    requires Together(a, rows) || Together(b, rows)
    ensures Together(a + b, rows)
  {
    if Together(a, rows) {
      var i: nat, before, after :| i < |a| && a[i] == before + rows + after;
      assert (a + b)[i] == before + rows + after;
    } else {
      var i: nat, before, after :| i < |b| && b[i] == before + rows + after;
      assert (a + b)[|a| + i] == before + rows + after;
    }
  }

  lemma TogetherWithin(parts: seq<seq<Row>>, rows: seq<Row>, before: seq<Row>, inner: seq<Row>, after: seq<Row>)
    requires Together(parts, rows) && rows == before + inner + after
    ensures Together(parts, inner)
  {
    var i: nat, left, right :| i < |parts| && parts[i] == left + rows + right;
    assert parts[i] == (left + before) + inner + (after + right);
  }

  /** An open run ends up whole in the next part, with what was carried before it. */
  lemma {:induction false} RunStays(dir: Path, nodes: seq<Node>, budget: nat, carry: seq<Row>, group: seq<Row>, bytes: nat)
    requires group != []
    ensures Together(Split(dir, nodes, budget, carry, group, bytes).parts, group)
    decreases nodes
  {
    hide Pre, Descend;
    if nodes == [] || Oversize(nodes[0], budget) || bytes + Size(nodes[0]) > budget {
      var parts := Split(dir, nodes, budget, carry, group, bytes).parts;
      assert parts[0] == carry + group + [];
    } else {
      var child := Pre(dir, [nodes[0]]);
      RunStays(dir, nodes[1..], budget, carry, group + child, bytes + Size(nodes[0]));
      TogetherWithin(Split(dir, nodes, budget, carry, group, bytes).parts, group + child, [], group, child);
    }
  }

  /** The rows of a subtree lie side by side within those of any subtree around it. */
  lemma {:induction false} SubtreeWithin(at: Path, root: seq<Node>, dir: Path, nodes: seq<Node>, i: nat)
    returns (before: seq<Row>, after: seq<Row>)
    requires Under(root, at, dir, nodes) && i < |nodes|
    ensures Pre(at, root) == before + Pre(dir, [nodes[i]]) + after
    decreases root
  {
    hide Pre;
    if dir == at && nodes == root {
      before, after := Pre(at, root[..i]), Pre(at, root[i + 1..]);
      PreAround(at, root, i);
    } else {
      var j :| 0 <= j < |root| && Under(root[j].children, at + [root[j].entry.name], dir, nodes);
      var left, right := SubtreeWithin(at + [root[j].entry.name], root[j].children, dir, nodes, i);
      PreAround(at, root, j);
      PreFirst(at, root[j], []);
      before := Pre(at, root[..j]) + [Row(at, root[j].entry)] + left;
      after := right + Pre(at, root[j + 1..]);
      Nested(Pre(at, root[..j]), [Row(at, root[j].entry)], left, Pre(dir, [nodes[i]]), right, Pre(at, root[j + 1..]));
    }
  }

  /** The rows before a child's, the child's own, and the rows behind. */
  lemma PreAround(at: Path, root: seq<Node>, i: nat)
    requires i < |root|
    ensures Pre(at, root) == Pre(at, root[..i]) + Pre(at, [root[i]]) + Pre(at, root[i + 1..])
  {
    hide Pre;
    assert root == root[..i] + ([root[i]] + root[i + 1..]);
    PrePlus(at, root[..i], [root[i]] + root[i + 1..]);
    PrePlus(at, [root[i]], root[i + 1..]);
    PlusAssociates(Pre(at, root[..i]), Pre(at, [root[i]]), Pre(at, root[i + 1..]));
  }

  lemma Nested<T>(a: seq<T>, b: seq<T>, c: seq<T>, d: seq<T>, e: seq<T>, f: seq<T>)
    ensures a + (b + (c + d + e)) + f == (a + b + c) + d + (e + f)
  {
  }

  /** Each child that fits comes in one part with everything below it. */
  lemma {:induction false} ChildTogether(dir: Path, nodes: seq<Node>, i: nat, budget: nat, carry: seq<Row>, group: seq<Row>, bytes: nat)
    requires i < |nodes| && !Oversize(nodes[i], budget)
    ensures Together(Split(dir, nodes, budget, carry, group, bytes).parts, Pre(dir, [nodes[i]]))
    decreases nodes
  {
    hide Descend;
    var child, later := nodes[0], nodes[1..];
    var parts := Split(dir, nodes, budget, carry, group, bytes).parts;
    PreFirst(dir, child, []);
    if Oversize(child, budget) {
      var before := Flush(carry, group);
      var below := Descend(dir, child, budget, before.carry);
      ChildTogether(dir, later, i - 1, budget, below.carry, [], 0);
      TogetherPlus(before.parts + below.parts, Split(dir, later, budget, below.carry, [], 0).parts, Pre(dir, [nodes[i]]));
    } else if group != [] && bytes + Size(child) > budget {
      if i == 0 {
        RunStays(dir, later, budget, [], Pre(dir, [child]), Size(child));
      } else {
        ChildTogether(dir, later, i - 1, budget, [], Pre(dir, [child]), Size(child));
      }
      TogetherPlus([carry + group], Split(dir, later, budget, [], Pre(dir, [child]), Size(child)).parts, Pre(dir, [nodes[i]]));
    } else {
      var longer := group + Pre(dir, [child]);
      if i == 0 {
        RunStays(dir, later, budget, carry, longer, bytes + Size(child));
        assert longer == group + Pre(dir, [child]) + [];
        TogetherWithin(parts, longer, group, Pre(dir, [child]), []);
      } else {
        ChildTogether(dir, later, i - 1, budget, carry, longer, bytes + Size(child));
      }
    }
  }

  /** So does each child of an over-budget child. */
  lemma {:induction false} OversizeTogether(dir: Path, nodes: seq<Node>, j: nat, budget: nat, carry: seq<Row>, group: seq<Row>, bytes: nat, rows: seq<Row>)
    requires j < |nodes| && Oversize(nodes[j], budget)
    requires forall carried :: Together(Descend(dir, nodes[j], budget, carried).parts, rows)
    ensures Together(Split(dir, nodes, budget, carry, group, bytes).parts, rows)
    decreases nodes
  {
    hide Descend, Pre;
    var child, later := nodes[0], nodes[1..];
    if Oversize(child, budget) {
      var before := Flush(carry, group);
      var below := Descend(dir, child, budget, before.carry);
      var after := Split(dir, later, budget, below.carry, [], 0);
      if j == 0 {
        TogetherPlus(before.parts, below.parts, rows);
        TogetherPlus(before.parts + below.parts, after.parts, rows);
      } else {
        OversizeTogether(dir, later, j - 1, budget, below.carry, [], 0, rows);
        TogetherPlus(before.parts + below.parts, after.parts, rows);
      }
    } else if group != [] && bytes + Size(child) > budget {
      OversizeTogether(dir, later, j - 1, budget, [], Pre(dir, [child]), Size(child), rows);
      TogetherPlus([carry + group], Split(dir, later, budget, [], Pre(dir, [child]), Size(child)).parts, rows);
    } else {
      OversizeTogether(dir, later, j - 1, budget, carry, group + Pre(dir, [child]), bytes + Size(child), rows);
    }
  }

  lemma {:induction false} SubtreeTogether(at: Path, root: seq<Node>, dir: Path, nodes: seq<Node>, i: nat, budget: nat, carry: seq<Row>)
    requires Under(root, at, dir, nodes) && i < |nodes| && !Oversize(nodes[i], budget) && Kinds(root)
    ensures Together(Split(at, root, budget, carry, [], 0).parts, Pre(dir, [nodes[i]]))
    decreases root
  {
    hide Split;
    if dir == at && nodes == root {
      ChildTogether(at, root, i, budget, carry, [], 0);
    } else {
      var j :| 0 <= j < |root| && Under(root[j].children, at + [root[j].entry.name], dir, nodes);
      var node, below := root[j], at + [root[j].entry.name];
      KindsAt(root, j);
      if Oversize(node, budget) {
        forall carried
          ensures Together(Descend(at, node, budget, carried).parts, Pre(dir, [nodes[i]]))
        {
          SubtreeTogether(below, node.children, dir, nodes, i, budget, carried + [Row(at, node.entry)]);
          var inner := Split(below, node.children, budget, carried + [Row(at, node.entry)], [], 0);
          TogetherPlus(inner.parts, [inner.carry], Pre(dir, [nodes[i]]));
        }
        OversizeTogether(at, root, j, budget, carry, [], 0, Pre(dir, [nodes[i]]));
      } else {
        ChildTogether(at, root, j, budget, carry, [], 0);
        var before, after := SubtreeWithin(below, node.children, dir, nodes, i);
        PreFirst(at, node, []);
        assert Pre(at, [node]) == ([Row(at, node.entry)] + before) + Pre(dir, [nodes[i]]) + after;
        TogetherWithin(Split(at, root, budget, carry, [], 0).parts, Pre(at, [node]),
                       [Row(at, node.entry)] + before, Pre(dir, [nodes[i]]), after);
      }
    }
  }

  lemma {:induction false} KindsAt(nodes: seq<Node>, j: nat)
    requires Kinds(nodes) && j < |nodes|
    ensures Kinds(nodes[j].children)
    decreases |nodes|
  {
    if j > 0 {
      KindsAt(nodes[1..], j - 1);
    }
  }

  /** Wherever in the tree a directory lies, if it fits together with all below it, one part holds it in one piece. */
  lemma FittingSubtreesStayWhole(tree: seq<Node>, budget: nat, dir: Path, nodes: seq<Node>, i: nat)
    requires Kinds(tree) && Under(tree, [], dir, nodes) && i < |nodes| && !Oversize(nodes[i], budget)
    ensures Together(Parts(tree, budget), Pre(dir, [nodes[i]]))
  {
    SubtreeTogether([], tree, dir, nodes, i, budget, []);
  }

  // ----- as many as fit

  /** Runs that hold something and fit, none of which could have taken the next child as well. */
  ghost predicate Greedy(runs: seq<seq<Node>>, budget: nat) {
    && (forall i :: 0 <= i < |runs| ==> runs[i] != [] && RunFits(runs[i], budget))
    && (forall i :: 0 <= i < |runs| - 1 ==> Closed(runs, i, budget))
  }

  /** Run `i` could not have taken the first child of the next one. */
  ghost predicate Closed(runs: seq<seq<Node>>, i: nat, budget: nat)
    requires i + 1 < |runs|
  {
    runs[i + 1] != [] && SizeAll(runs[i]) + Size(runs[i + 1][0]) > budget
  }

  /** The parts of some runs of one directory: what is carried goes into the first. */
  function RunParts(carry: seq<Row>, dir: Path, runs: seq<seq<Node>>): seq<seq<Row>>
    decreases |runs|
  {
    if runs == [] then [] else [carry + Pre(dir, runs[0])] + RunParts([], dir, runs[1..])
  }

  lemma {:induction false} GrowsRuns(dir: Path, nodes: seq<Node>, budget: nat, carry: seq<Row>, run: seq<Node>)
    returns (runs: seq<seq<Node>>)
    requires AllFit(nodes, budget) && run != [] && RunFits(run, budget)
    ensures runs != [] && run <= runs[0] && Concat(runs) == run + nodes && Greedy(runs, budget)
    ensures Split(dir, nodes, budget, carry, Pre(dir, run), SizeAll(run)) == Cut(RunParts(carry, dir, runs), [])
    decreases nodes
  {
    hide SizeAll, Pre, CountAll;
    PreLength(dir, run);
    assert Pre(dir, run) != [] by { NonEmpty(dir, run); }
    if nodes == [] {
      runs := [run];
      assert runs[1..] == [];
    } else {
      var child, later := nodes[0], nodes[1..];
      assert nodes == [child] + later;
      SizePlus(run, [child]);
      PrePlus(dir, run, [child]);
      PreFirst(dir, child, []);
      assert AllFit(later, budget);
      if SizeAll(run) + Size(child) > budget {
        var others := GrowsRuns(dir, later, budget, [], [child]);
        runs := [run] + others;
        assert runs[1..] == others && others[0][0] == child;
        GreedyMore(run, others, budget);
      } else {
        runs := GrowsRuns(dir, later, budget, carry, run + [child]);
      }
    }
  }

  lemma NonEmpty(dir: Path, run: seq<Node>)
    requires run != []
    ensures Pre(dir, run) != []
  {
  }

  lemma GreedyMore(run: seq<Node>, others: seq<seq<Node>>, budget: nat)
    requires Greedy(others, budget) && run != [] && RunFits(run, budget) && others != []
    requires others[0] != [] && SizeAll(run) + Size(others[0][0]) > budget
    ensures Greedy([run] + others, budget)
  {
    hide SizeAll, RunFits, Size;
    var runs := [run] + others;
    forall i | 0 <= i < |runs| - 1
      ensures Closed(runs, i, budget)
    {
      if i > 0 {
        assert Closed(others, i - 1, budget);
      }
    }
  }

  /** Children that all fit are cut into runs, each as long as it can be. */
  lemma FittingChildrenAreGreedy(dir: Path, nodes: seq<Node>, budget: nat, carry: seq<Row>)
    returns (runs: seq<seq<Node>>)
    requires AllFit(nodes, budget) && nodes != []
    ensures Concat(runs) == nodes && Greedy(runs, budget)
    ensures Split(dir, nodes, budget, carry, [], 0) == Cut(RunParts(carry, dir, runs), [])
  {
    var child := nodes[0];
    PreFirst(dir, child, []);
    assert nodes == [child] + nodes[1..];
    assert [] + Pre(dir, [child]) == Pre(dir, [child]);
    assert AllFit(nodes[1..], budget);
    runs := GrowsRuns(dir, nodes[1..], budget, carry, [child]);
  }

  /** There is only one way to be greedy. */
  lemma {:induction false} GreedyOnce(a: seq<seq<Node>>, b: seq<seq<Node>>, budget: nat)
    requires Greedy(a, budget) && Greedy(b, budget) && Concat(a) == Concat(b)
    ensures a == b
    decreases |a|
  {
    hide RunFits, Closed;
    if a != [] && b != [] {
      NoLonger(a, b, budget);
      NoLonger(b, a, budget);
      assert a[0] == Concat(a)[..|a[0]|] && b[0] == Concat(b)[..|b[0]|];
      assert Concat(a[1..]) == Concat(a)[|a[0]|..] && Concat(b[1..]) == Concat(b)[|b[0]|..];
      GreedyTail(a, budget);
      GreedyTail(b, budget);
      GreedyOnce(a[1..], b[1..], budget);
    }
  }

  lemma ConcatFirst(a: seq<seq<Node>>)
    requires a != []
    ensures a[0] <= Concat(a) && (|a| == 1 ==> Concat(a) == a[0])
    ensures |a| > 1 && a[1] != [] ==> a[0] + [a[1][0]] <= Concat(a)
  {
    if |a| == 1 {
      assert a[1..] == [];
    } else {
      var rest := Concat(a[1..][1..]);
      assert Concat(a[1..]) == a[1] + rest;
      hide Concat;
      PlusAssociates(a[0], a[1], rest);
      if a[1] != [] {
        assert a[1] == [a[1][0]] + a[1][1..];
        PlusAssociates(a[0], [a[1][0]], a[1][1..]);
      }
    }
  }

  /** A run that fits and starts with `run` and `next` leaves room for `next` behind `run`. */
  lemma RoomFor(run: seq<Node>, next: Node, longer: seq<Node>, budget: nat)
    requires run != [] && run + [next] <= longer && RunFits(longer, budget)
    ensures SizeAll(run) + Size(next) <= budget
  {
    var rest := longer[|run| + 1..];
    assert longer == (run + [next]) + rest;
    SizePlus(run + [next], rest);
    SizePlus(run, [next]);
    PreFirst([], next, []);
  }

  /** A first run that is longer would hold a child the other could have taken as well. */
  lemma NoLonger(a: seq<seq<Node>>, b: seq<seq<Node>>, budget: nat)
    requires Greedy(a, budget) && Greedy(b, budget) && Concat(a) == Concat(b)
    requires a != [] && b != []
    ensures |b[0]| <= |a[0]|
  {
    hide SizeAll, Size;
    ConcatFirst(a);
    ConcatFirst(b);
    if |a[0]| < |b[0]| {
      assert Closed(a, 0, budget);
      RoomFor(a[0], a[1][0], b[0], budget);
    }
  }

  lemma GreedyTail(a: seq<seq<Node>>, budget: nat)
    requires Greedy(a, budget) && a != []
    ensures Greedy(a[1..], budget)
  {
    hide SizeAll, RunFits, Size;
    forall i | 0 <= i < |a[1..]| - 1
      ensures Closed(a[1..], i, budget)
    {
      assert Closed(a, i + 1, budget);
    }
  }

  /** An over-budget child stands alone: what is before it and what is after it are cut apart. */
  lemma {:induction false} OversizeStandsAlone(dir: Path, a: seq<Node>, big: Node, b: seq<Node>, budget: nat, carry: seq<Row>, group: seq<Row>, bytes: nat)
    requires Oversize(big, budget)
    ensures var before := Split(dir, a, budget, carry, group, bytes);
            var middle := Descend(dir, big, budget, before.carry);
            var after := Split(dir, b, budget, [], [], 0);
            Split(dir, a + [big] + b, budget, carry, group, bytes)
            == Cut(before.parts + middle.parts + after.parts, after.carry)
    decreases |a|
  {
    hide Descend, Pre, SizeAll;
    var whole := a + [big] + b;
    var after := Split(dir, b, budget, [], [], 0);
    if a == [] {
      assert whole[1..] == b;
      DescentTakesCarry(dir, big, budget, Flush(carry, group).carry);
    } else {
      var child, later := a[0], a[1..];
      assert whole[0] == child && whole[1..] == later + [big] + b;
      if Oversize(child, budget) {
        var flushed := Flush(carry, group);
        var below := Descend(dir, child, budget, flushed.carry);
        OversizeStandsAlone(dir, later, big, b, budget, below.carry, [], 0);
        var rest := Split(dir, later, budget, below.carry, [], 0);
        Joined(flushed.parts + below.parts, rest.parts, Descend(dir, big, budget, rest.carry).parts, after.parts);
      } else if group != [] && bytes + Size(child) > budget {
        OversizeStandsAlone(dir, later, big, b, budget, [], Pre(dir, [child]), Size(child));
        var rest := Split(dir, later, budget, [], Pre(dir, [child]), Size(child));
        Joined([carry + group], rest.parts, Descend(dir, big, budget, rest.carry).parts, after.parts);
      } else {
        OversizeStandsAlone(dir, later, big, b, budget, carry, group + Pre(dir, [child]), bytes + Size(child));
      }
    }
  }

  lemma Joined<T>(a: seq<T>, b: seq<T>, c: seq<T>, d: seq<T>)
    ensures a + (b + c + d) == (a + b) + c + d
  {
  }

  /** A tree that fits the budget is one part. */
  lemma SmallTreeIsOnePart(nodes: seq<Node>, budget: nat)
    requires nodes != [] && SizeAll(nodes) <= budget
    ensures Parts(nodes, budget) == [Pre([], nodes)]
  {
    PartsFit(nodes, budget);
    var runs := FittingChildrenAreGreedy([], nodes, budget, []);
    assert Concat([nodes]) == nodes by { assert [nodes][1..] == []; }
    GreedyOnce(runs, [nodes], budget);
    assert RunParts([], [], [nodes]) == [[] + Pre([], nodes)] + RunParts([], [], []) by { assert [nodes][1..] == []; }
    assert [] + Pre([], nodes) == Pre([], nodes);
  }

  lemma {:induction false} PartsFit(nodes: seq<Node>, budget: nat)
    requires SizeAll(nodes) <= budget
    ensures AllFit(nodes, budget)
    decreases |nodes|
  {
    if nodes != [] {
      PartsFit(nodes[1..], budget);
    }
  }
}
