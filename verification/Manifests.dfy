/** From the disk to the manifest: scans, walk, building and reading back, one behind the other. */
module Manifests {
  import opened Tree
  import opened Order
  import opened Rule
  import opened Delivery
  import opened CutLists
  import opened Levels
  import opened Cutter
  import opened OnePass
  import opened Peaks
  import opened Traces
  import opened Weights
  import opened Part
  import opened Index
  import opened Assemble
  import opened Manifest
  import opened Disks

  /** What a reader of the manifest needs to know: every entry of `tree` in walk order, and where each part starts. */
  ghost predicate Describes(contents: seq<Content>, tree: seq<Node>, budget: nat) {
    && (forall k :: 0 <= k < |contents| ==> Consistent(contents[k]))
    && Concat(EntriesOf(contents)) == Shown(Pre([], tree))
    && |contents| == |Parts(tree, budget)|
    && (forall k :: 0 <= k < |contents| ==> Parts(tree, budget)[k] != [])
    && (forall k :: 0 <= k < |contents| ==> FirstPathOf(contents[k]) == Some(Firsts(Parts(tree, budget))[k]))
  }

  ghost predicate Standing(parts: seq<TreePart>, contents: seq<Content>)
    reads set k | 0 <= k < |parts| :: parts[k], set k | 0 <= k < |parts| :: parts[k].tape
  {
    |contents| == |parts| && forall k :: 0 <= k < |parts| ==> parts[k].Valid() && contents[k] == parts[k].Value()
  }

  /** The first of the rule's parts were built, and the next one, if there is one, outgrows its indexes. */
  ghost predicate BuiltUpTo(cuts: seq<CutList>, contents: seq<Content>, parts: seq<seq<Row>>) {
    && |contents| <= |parts| == |cuts|
    && (forall k :: 0 <= k < |contents| ==> Holds(contents[k], parts[k]))
    && (|contents| < |parts| ==> Outgrows(cuts[|contents|].stem, LinesRoom(Strip(parts[|contents|]))))
  }

  /**
   * Walks a disk whose listings are sorted and builds the parts. The walk ends early only if the sink refuses a part,
   * the flag is set or the root cannot be read. Otherwise every part is built up to one that outgrows its indexes, and
   * if there is none, the parts describe the tree of the disk. The most that waits is what that tree and the budget say.
   */
  method FromDisk(dir: Dir, budget: nat, accepts: seq<CutList> -> bool, cancels: nat -> bool)
    returns (parts: seq<TreePart>, outcome: Outcome, built: bool,
             ghost cuts: seq<CutList>, ghost contents: seq<Content>, ghost trace: seq<State>)
    requires DirOk(dir) && AllAscend(dir)
    ensures outcome == Unreadable <==> dir.answer.NotReadable?
    ensures outcome == Done ==> NoneSet(cancels, UnitVisits(UnitFor(dir)))
    ensures outcome == Cancelled ==>
              exists visit :: 0 <= visit < UnitVisits(UnitFor(dir)) && cancels(visit) && NoneSet(cancels, visit)
    ensures HandedPrefix(cuts, Parts(TreeOf(dir), budget))
    ensures if outcome == Refused then LastRefused(accepts, cuts) else AllTaken(accepts, cuts)
    ensures Standing(parts, contents)
    ensures outcome == Done ==> Handed(cuts, Parts(TreeOf(dir), budget)) && BuiltUpTo(cuts, contents, Parts(TreeOf(dir), budget))
    ensures outcome == Done ==> (built <==> |parts| == |Parts(TreeOf(dir), budget)|)
    ensures outcome != Done ==> parts == [] && !built
    ensures outcome == Done && built ==> Describes(contents, TreeOf(dir), budget)
    ensures Trace(trace, TreeOf(dir), budget) && Peak(TreeOf(dir), budget) <= MostWaiting(TreeOf(dir), budget)
    ensures outcome == Done ==> Reaches(trace, Peak(TreeOf(dir), budget), budget)
  {
    hide DirOk, AllAscend, UnitOk, Children, Parts, HandedPrefix, MostWaiting, Peak, Plain, Walked, Trace, Reaches, Describes,
         BuiltUpTo, Means, Holds, TreeOf, UnitFor, Outgrows, UnitVisits, AllTaken, LastRefused, NoneSet;
    ScansDeliverTheTree(dir, budget);
    TheTreeIsSorted(dir);
    var root := UnitFor(dir);
    PlainIsDir(root);
    PlainIsWalked(root);
    UnreadableDisk(dir);
    var walker := new Walker(budget, true, accepts, cancels);
    ghost var heaviest;
    outcome, heaviest, trace := walker.Run(root);
    parts, built, cuts, contents := [], false, walker.sealed, [];
    if outcome == Done {
      parts, built := Collect(walker.sealed, Parts(TreeOf(dir), budget));
      contents := ContentsOf(parts);
      CollectedUpTo(cuts, contents, Parts(TreeOf(dir), budget));
      if built {
        Described(contents, TreeOf(dir), budget);
      }
    }
  }

  lemma UnreadableDisk(dir: Dir)
    requires UnitFor(dir).Dir?
    ensures UnitFor(dir).scanned.unreadable <==> dir.answer.NotReadable?
  {
  }

  lemma CollectedUpTo(cuts: seq<CutList>, contents: seq<Content>, parts: seq<seq<Row>>)
    requires |cuts| == |parts| >= |contents| && forall k :: 0 <= k < |contents| ==> Holds(contents[k], parts[k])
    requires |contents| < |parts| ==> Outgrows(cuts[|contents|].stem, LinesRoom(Strip(parts[|contents|])))
    ensures BuiltUpTo(cuts, contents, parts)
  {
    hide Holds, Outgrows, LinesRoom, Strip;
  }

  lemma ContentsOf(parts: seq<TreePart>) returns (contents: seq<Content>)
    requires forall k :: 0 <= k < |parts| ==> parts[k].Valid()
    ensures Standing(parts, contents)
  {
    contents := [];
    for i := 0 to |parts|
      invariant |contents| == i && forall k :: 0 <= k < i ==> contents[k] == parts[k].Value()
    {
      contents := contents + [parts[i].Value()];
    }
  }

  lemma Described(contents: seq<Content>, tree: seq<Node>, budget: nat)
    requires SortedTree(tree) && Built(contents, Parts(tree, budget))
    ensures Describes(contents, tree, budget)
  {
    hide Parts, Holds, SortedTree, Consistent, EntriesOf, Firsts;
    EntriesAreTheWalk(tree, budget, contents);
  }
}
