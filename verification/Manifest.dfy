/** From the walk to the manifest: the parts of a walk, built and read back. */
module Manifest {
  import opened Tree
  import opened Order
  import opened Rule
  import opened RuleFacts
  import opened Delivery
  import opened CutLists
  import opened Levels
  import opened Weights
  import opened Peaks
  import opened Traces
  import opened Cutter
  import opened Part
  import opened Recovery
  import opened Index
  import opened Assemble
  import Tape

  /** Part by part, the tables hold the rows. */
  ghost predicate Built(contents: seq<Content>, parts: seq<seq<Row>>) {
    |contents| == |parts| && forall k :: 0 <= k < |parts| ==> Holds(contents[k], parts[k])
  }

  /** Builds every part that a walk handed out, in order, and keeps them all, until one outgrows its indexes. */
  method Collect(cuts: seq<CutList>, ghost goal: seq<seq<Row>>) returns (parts: seq<TreePart>, ok: bool)
    requires Handed(cuts, goal)
    ensures |parts| <= |goal| && forall k :: 0 <= k < |parts| ==> parts[k].Valid() && Holds(parts[k].Value(), goal[k])
    ensures ok ==> |parts| == |goal|
    ensures !ok ==> |parts| < |goal| && Outgrows(cuts[|parts|].stem, LinesRoom(Strip(goal[|parts|])))
  {
    hide Holds, Consistent, Addressable, Means, StemIs, LinesRoom, Strip, Outgrows, Strings, Tape.Tiles, Tape.Total;
    parts := [];
    for i := 0 to |cuts|
      invariant |parts| == i
      invariant forall k :: 0 <= k < |parts| ==> parts[k].Valid() && Holds(parts[k].Value(), goal[k])
    {
      var built, part, room := Assemble.Assemble(cuts[i], goal[i]);
      if !built {
        return parts, false;
      }
      parts := parts + [part];
    }
    ok := true;
  }

  function EntriesOf(contents: seq<Content>): seq<seq<Found>>
    requires forall k :: 0 <= k < |contents| ==> Consistent(contents[k])
  {
    seq(|contents|, k requires 0 <= k < |contents| => Sorted(Collected(contents[k])))
  }

  function ShownParts(parts: seq<seq<Row>>): seq<seq<Found>> {
    seq(|parts|, k requires 0 <= k < |parts| => Shown(parts[k]))
  }

  lemma {:induction false} ShownConcat(parts: seq<seq<Row>>)
    ensures Concat(ShownParts(parts)) == Shown(Concat(parts))
    decreases |parts|
  {
    if parts != [] {
      ShownConcat(parts[1..]);
      assert ShownParts(parts)[1..] == ShownParts(parts[1..]);
      ShownPlus(parts[0], Concat(parts[1..]));
    }
  }

  /**
   * The entries of all parts of a walk, part after part and each part sorted by itself, are every entry of the tree
   * in the order of the walk; and the index gives of each part the path it starts with.
   */
  lemma EntriesAreTheWalk(nodes: seq<Node>, budget: nat, contents: seq<Content>)
    requires SortedTree(nodes) && Built(contents, Parts(nodes, budget))
    ensures forall k :: 0 <= k < |contents| ==> Consistent(contents[k])
    ensures Concat(EntriesOf(contents)) == Shown(Pre([], nodes))
    ensures forall k :: 0 <= k < |contents| ==> Parts(nodes, budget)[k] != []
    ensures forall k :: 0 <= k < |contents| ==> FirstPathOf(contents[k]) == Some(Firsts(Parts(nodes, budget))[k])
  {
    hide Parts, Sorted, Collected, FirstPathOf, Shown, Increasing, PlainRows, SortedTree, ComparePaths;
    var parts := Parts(nodes, budget);
    PartsOfAWalk(nodes, budget);
    PartsAreTheWalk(nodes, budget);
    forall k | 0 <= k < |contents|
      ensures Consistent(contents[k]) && Sorted(Collected(contents[k])) == Shown(parts[k])
      ensures FirstPathOf(contents[k]) == Some(Firsts(parts)[k])
    {
      assert Holds(contents[k], parts[k]);
      HoldsConsistent(contents[k], parts[k]);
      EntriesAreTheRows(contents[k], parts[k]);
      IndexEntry(contents[k], parts, k);
    }
    assert EntriesOf(contents) == ShownParts(parts);
    ShownConcat(parts);
  }

  /** A cut list means one sequence of rows only. */
  lemma MeansOnce(cut: CutList, left: seq<Row>, right: seq<Row>)
    requires Means(cut, left) && Means(cut, right)
    ensures left == right
  {
    LinkedOnce(cut.stem, left, right);
  }

  lemma {:induction false} SameHandouts(a: seq<CutList>, b: seq<CutList>, parts: seq<seq<Row>>, i: nat, rows: seq<Row>)
    requires Handed(a, parts) && Handed(b, parts) && i < |a|
    ensures Means(a[i], rows) <==> Means(b[i], rows)
  {
    hide Means;
    if Means(a[i], rows) {
      MeansOnce(a[i], rows, parts[i]);
    }
    if Means(b[i], rows) {
      MeansOnce(b[i], rows, parts[i]);
    }
  }

  /** Nothing that ends a walk failed to be read. */
  predicate Readable(unit: Unit, skipErrors: bool)
    requires unit.Dir?
  {
    !unit.scanned.unreadable && (skipErrors || CleanUnit(unit))
  }

  /**
   * Two finished walks of one tree, however each of them was delivered, hand out as many cut lists, and those at the
   * same place mean the same rows and no others.
   */
  method SchedulesAgree(left: Unit, right: Unit, budget: nat, skipErrors: bool, sinks: (seq<CutList> -> bool, seq<CutList> -> bool),
                        flags: (nat -> bool, nat -> bool))
    returns (a: seq<CutList>, b: seq<CutList>, done: bool)
    requires left.Dir? && right.Dir? && UnitOk(left, budget) && UnitOk(right, budget)
    requires Children(left) == Children(right)
    ensures done ==> |a| == |b| && forall i, rows :: 0 <= i < |a| ==> (Means(a[i], rows) <==> Means(b[i], rows))
    ensures done ==> Handed(a, Parts(Children(left), budget))
    ensures done ==> AllTaken(sinks.0, a) && AllTaken(sinks.1, b)
    ensures done ==> NoneSet(flags.0, UnitVisits(left)) && NoneSet(flags.1, UnitVisits(right))
    ensures done ==> Readable(left, skipErrors) && Readable(right, skipErrors)
    ensures (forall cuts :: sinks.0(cuts) && sinks.1(cuts))
            && NoneSet(flags.0, UnitVisits(left)) && NoneSet(flags.1, UnitVisits(right))
            && Readable(left, skipErrors) && Readable(right, skipErrors)
            ==> done
  {
    hide Means, Parts, Children, UnitOk, HandedPrefix, CleanUnit, Peak, MostWaiting, Walked, Trace, Reaches,
         UnitVisits;
    var first := new Walker(budget, skipErrors, sinks.0, flags.0);
    ghost var heaviest, trace;
    var r;
    r, heaviest, trace := first.Run(left);
    var second := new Walker(budget, skipErrors, sinks.1, flags.1);
    var q;
    q, heaviest, trace := second.Run(right);
    a, b, done := first.sealed, second.sealed, r == Done && q == Done;
    if done {
      ghost var parts := Parts(Children(left), budget);
      forall i, rows | 0 <= i < |a|
        ensures Means(a[i], rows) <==> Means(b[i], rows)
      {
        SameHandouts(a, b, parts, i, rows);
      }
    }
  }
}
