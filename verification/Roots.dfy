/** The open directories of a one-pass state, found again in the tree that is walked. */
module Roots {
  import opened Tree
  import opened Rule
  import opened OnePass
  import opened Peaks
  import opened Traces

  /**
   * The whole tree, the children of each open directory that have left in parts, the most that was seen to wait, and
   * the states of the walk so far; `walked` says that nothing comes as a whole subtree.
   */
  datatype Record = Record(tree: seq<Node>, gone: seq<seq<Node>>, most: nat, walked: bool, trace: seq<State>)

  /** The same walk, further on. */
  predicate SameWalk(r: Record, q: Record) {
    q == r.(gone := q.gone, trace := q.trace)
  }

  /** The walk has come to one more state. */
  function Come(r: Record, s: State): Record {
    r.(trace := r.trace + [s])
  }

  // ----- the record of each step

  /** Children that leave level `k`. */
  function Also(gone: seq<seq<Node>>, k: nat, nodes: seq<Node>): seq<seq<Node>> {
    if k < |gone| then gone[k := gone[k] + nodes] else gone
  }

  function Outer(gone: seq<seq<Node>>): seq<seq<Node>> {
    if gone == [] then [] else gone[..|gone| - 1]
  }

  function EnteredRecord(r: Record): Record {
    r.(gone := r.gone + [[]])
  }

  function PoppedRecord(r: Record): Record {
    r.(gone := Outer(r.gone))
  }

  /** The run leaves the innermost split level, if it is closed. */
  function RunRecord(r: Record, s: State): Record {
    r.(gone := Also(r.gone, if s.measuring == 0 then 0 else s.measuring - 1, s.run))
  }

  function AbsorbedRecord(r: Record, s: State, budget: nat): Record
    requires 1 <= s.measuring <= |s.levels| && Inner(s).done != []
  {
    if s.run != [] && SizeAll(s.run) + Size(Inner(s).done[0]) > budget then RunRecord(r, s) else r
  }

  function LeftRecord(r: Record, s: State): Record
    requires |s.levels| >= 2
  {
    r.(gone := Also(Outer(r.gone), |s.levels| - 2, [Node(Top(s).entry, Full(r.gone, s, |s.levels| - 1))]))
  }

  // ----- what is recorded

  /** The children of level `k` before the open one: those that left, those of the open run, the finished ones. */
  function Behind(gone: seq<seq<Node>>, s: State, k: nat): seq<Node>
    requires k < |s.levels|
  {
    (if k < |gone| then gone[k] else []) + (if k + 1 == s.measuring then s.run else []) + s.levels[k].done
  }

  /** All the children of level `k` in the tree. */
  function Full(gone: seq<seq<Node>>, s: State, k: nat): seq<Node>
    requires k < |s.levels|
    decreases |s.levels| - k
  {
    Behind(gone, s, k) + (if k + 1 < |s.levels| then [Node(s.levels[k + 1].entry, Full(gone, s, k + 1))] else []) + s.levels[k].rest
  }

  predicate LargeAt(gone: seq<seq<Node>>, s: State, k: nat, budget: nat)
    requires k < |s.levels|
  {
    Own(s.levels[k].entry) + SizeAll(Full(gone, s, k)) > budget
  }

  /**
   * The open directories are those of the tree, each split one is over the budget, `goal` is the tree's parts, and the
   * most that waits is what the tree says.
   */
  ghost predicate Rooted(r: Record, s: State, goal: seq<seq<Row>>, budget: nat) {
    && 0 < |s.levels| == |r.gone|
    && Full(r.gone, s, 0) == r.tree
    && (forall k :: s.measuring <= k < |s.levels| ==> r.gone[k] == [])
    && (forall k :: 1 <= k < s.measuring && k < |s.levels| ==> LargeAt(r.gone, s, k, budget))
    && goal == Parts(r.tree, budget)
    && 1 <= s.measuring <= |s.levels|
    && Peaked(r.most, r.walked, Peak(r.tree, budget), s, budget)
    && Followed(r.trace, r.most, r.tree, s, budget)
  }

  /** Two states that have the same behind and to come below level `t`, and the same of `t`. */
  lemma {:induction false} FullSame(r: Record, s: State, q: Record, to: State, k: nat, t: nat)
    requires k <= t < |s.levels| && t < |to.levels|
    requires forall j :: k <= j < t ==> Behind(q.gone, to, j) == Behind(r.gone, s, j) && to.levels[j].rest == s.levels[j].rest
    requires forall j :: k <= j <= t ==> to.levels[j].entry == s.levels[j].entry
    requires Full(r.gone, s, t) == Full(q.gone, to, t)
    ensures Full(r.gone, s, k) == Full(q.gone, to, k)
    decreases t - k
  {
    hide Behind;
    if k < t {
      FullSame(r, s, q, to, k + 1, t);
    }
  }

  /** Nothing left a measuring level, so its children are those it holds. */
  lemma {:induction false} FullIsKids(r: Record, s: State, k: nat)
    requires |r.gone| == |s.levels| && s.measuring <= k < |s.levels|
    requires forall j :: k <= j < |s.levels| ==> r.gone[j] == []
    ensures Full(r.gone, s, k) == Kids(s.levels, k)
    decreases |s.levels| - k
  {
    if k + 1 < |s.levels| {
      FullIsKids(r, s, k + 1);
    }
    assert Behind(r.gone, s, k) == s.levels[k].done;
  }

  lemma FullTop(r: Record, s: State, t: nat)
    requires t + 1 == |s.levels|
    ensures Full(r.gone, s, t) == Behind(r.gone, s, t) + s.levels[t].rest
  {
    assert Behind(r.gone, s, t) + [] == Behind(r.gone, s, t);
  }

  lemma FullNext(r: Record, s: State, t: nat)
    requires t + 1 < |s.levels|
    ensures Full(r.gone, s, t) == Behind(r.gone, s, t) + [Node(s.levels[t + 1].entry, Full(r.gone, s, t + 1))] + s.levels[t].rest
  {
  }

  /** A step that leaves the levels below `t` and what level `t` is in the tree as they are. */
  lemma StillRooted(r: Record, s: State, q: Record, to: State, t: nat, goal: seq<seq<Row>>, budget: nat)
    requires Rooted(r, s, goal, budget) && t < |to.levels| == |q.gone| && t < |s.levels| && q.tree == r.tree
    requires 1 <= to.measuring <= |to.levels| && Peaked(q.most, q.walked, Peak(q.tree, budget), to, budget)
    requires Followed(q.trace, q.most, q.tree, to, budget)
    requires forall j :: 0 <= j < t ==> Behind(q.gone, to, j) == Behind(r.gone, s, j) && to.levels[j].rest == s.levels[j].rest
    requires forall j :: 0 <= j <= t ==> to.levels[j].entry == s.levels[j].entry
    requires Full(q.gone, to, t) == Full(r.gone, s, t)
    requires forall k :: to.measuring <= k < |to.levels| ==> q.gone[k] == []
    requires to.measuring <= s.measuring || (to.measuring == s.measuring + 1 == t + 1 && LargeAt(q.gone, to, t, budget))
    requires to.measuring <= t + 1
    ensures Rooted(q, to, goal, budget)
  {
    hide Behind, Full, SizeAll, Parts, Peaked, Peak, Followed;
    forall k | 0 <= k <= t
      ensures Full(q.gone, to, k) == Full(r.gone, s, k)
    {
      FullSame(r, s, q, to, k, t);
    }
    forall k | 1 <= k < to.measuring && k < |to.levels|
      ensures LargeAt(q.gone, to, k, budget)
    {
      assert k <= t;
      if k < s.measuring {
        assert LargeAt(r.gone, s, k, budget);
      }
    }
  }

  lemma TakenFull(r: Record, s: State)
    requires 1 <= |s.levels| && Top(s).rest != []
    ensures Full(r.gone, Taken(s), |s.levels| - 1) == Full(r.gone, s, |s.levels| - 1)
  {
    hide Full;
    var to, t := Taken(s), |s.levels| - 1;
    assert Behind(r.gone, to, t) == Behind(r.gone, s, t) + [Top(s).rest[0]];
    FullTop(r, s, t);
    FullTop(r, to, t);
    assert Top(s).rest == [Top(s).rest[0]] + Top(s).rest[1..];
  }

  lemma TakenRooted(r: Record, s: State, goal: seq<seq<Row>>, budget: nat)
    requires Shaped(s) && Rooted(r, s, goal, budget) && Top(s).rest != []
    requires r.walked ==> Held(s) <= r.most && LeafSize(Top(s).rest[0]) == Size(Top(s).rest[0])
    requires Settled(s, budget) && !Oversize(Top(s).rest[0], budget)
    ensures Rooted(Come(r, Taken(s)), Taken(s), goal, budget)
  {
    hide Full, LargeAt, Parts, Peaked, Held, LeafSize, Peak, Followed, Settled;
    assert Step(s, Taken(s), budget);
    FollowedFurther(r.trace, r.most, r.tree, s, Taken(s), budget);
    TakenPeaked(r.most, r.walked, Peak(r.tree, budget), s, budget);
    TakenFull(r, s);
    StillRooted(r, s, Come(r, Taken(s)), Taken(s), |s.levels| - 1, goal, budget);
  }

  /** The entered directory counts as the same child as before. */
  lemma EnteredFull(r: Record, s: State)
    requires 1 <= |s.levels| == |r.gone| && s.measuring <= |s.levels| && Top(s).rest != []
    ensures Full(EnteredRecord(r).gone, Entered(s), |s.levels| - 1) == Full(r.gone, s, |s.levels| - 1)
  {
    hide Full;
    var q, to, t := EnteredRecord(r), Entered(s), |s.levels| - 1;
    var child := Top(s).rest[0];
    assert Behind(q.gone, to, t + 1) == [];
    FullTop(q, to, t + 1);
    assert [] + child.children == child.children;
    FullNext(q, to, t);
    FullTop(r, s, t);
    assert Behind(q.gone, to, t) == Behind(r.gone, s, t);
    assert Top(s).rest == [child] + Top(s).rest[1..];
  }

  lemma EnteredBelow(r: Record, s: State)
    requires 1 <= |s.levels| == |r.gone| && Top(s).rest != []
    ensures forall j :: 0 <= j < |s.levels| - 1 ==>
              Behind(EnteredRecord(r).gone, Entered(s), j) == Behind(r.gone, s, j) && Entered(s).levels[j].rest == s.levels[j].rest
    ensures forall j :: 0 <= j < |s.levels| ==> Entered(s).levels[j].entry == s.levels[j].entry
  {
  }

  lemma EnteredRooted(r: Record, s: State, goal: seq<seq<Row>>, budget: nat)
    requires Shaped(s) && Rooted(r, s, goal, budget) && Top(s).rest != []
    requires r.walked ==> Held(s) <= r.most
    requires Settled(s, budget) && Top(s).rest[0].entry.Directory?
    ensures Rooted(Come(EnteredRecord(r), Entered(s)), Entered(s), goal, budget) && SameWalk(r, Come(EnteredRecord(r), Entered(s)))
  {
    hide Full, LargeAt, Parts, Behind, Peaked, Held, Peak, Followed, Settled;
    assert Step(s, Entered(s), budget);
    FollowedFurther(r.trace, r.most, r.tree, s, Entered(s), budget);
    EnteredFull(r, s);
    EnteredBelow(r, s);
    EnteredPeaked(r.most, r.walked, Peak(r.tree, budget), s, budget);
    StillRooted(r, s, Come(EnteredRecord(r), Entered(s)), Entered(s), |s.levels| - 1, goal, budget);
  }

  /** The popped directory counts as the same child as before. */
  lemma PoppedFull(r: Record, s: State)
    requires 2 <= |s.levels| == |r.gone| && s.measuring < |s.levels| && Top(s).rest == []
    requires r.gone[|s.levels| - 1] == []
    ensures Full(PoppedRecord(r).gone, Popped(s), |s.levels| - 2) == Full(r.gone, s, |s.levels| - 2)
  {
    hide Full;
    var q, to, t := PoppedRecord(r), Popped(s), |s.levels| - 2;
    var node := Node(Top(s).entry, Top(s).done);
    assert Behind(r.gone, s, t + 1) == Top(s).done;
    FullTop(r, s, t + 1);
    assert Top(s).done + [] == Top(s).done;
    FullNext(r, s, t);
    FullTop(q, to, t);
    assert Behind(q.gone, to, t) == Behind(r.gone, s, t) + [node];
  }

  lemma PoppedRooted(r: Record, s: State, goal: seq<seq<Row>>, budget: nat)
    requires Shaped(s) && Rooted(r, s, goal, budget) && s.measuring < |s.levels| && Top(s).rest == []
    requires r.walked ==> Held(s) <= r.most
    requires Settled(s, budget)
    ensures Rooted(Come(PoppedRecord(r), Popped(s)), Popped(s), goal, budget) && SameWalk(r, Come(PoppedRecord(r), Popped(s)))
  {
    hide Full, LargeAt, Parts, Peaked, Held, Peak, Followed, Settled;
    assert Step(s, Popped(s), budget);
    FollowedFurther(r.trace, r.most, r.tree, s, Popped(s), budget);
    PoppedPeaked(r.most, r.walked, Peak(r.tree, budget), s, budget);
    PoppedFull(r, s);
    StillRooted(r, s, Come(PoppedRecord(r), Popped(s)), Popped(s), |s.levels| - 2, goal, budget);
  }

  /** What lies above level `t` is the same, and what is behind in `t`. */
  lemma SameAbove(r: Record, s: State, q: Record, to: State, t: nat)
    requires t < |s.levels| == |to.levels| && Behind(q.gone, to, t) == Behind(r.gone, s, t)
    requires to.levels[t].rest == s.levels[t].rest
    requires forall j :: t < j < |s.levels| ==> to.levels[j] == s.levels[j] && Behind(q.gone, to, j) == Behind(r.gone, s, j)
    ensures Full(q.gone, to, t) == Full(r.gone, s, t)
  {
    hide Behind, Full;
    var n := |s.levels| - 1;
    FullTop(r, s, n);
    FullTop(q, to, n);
    if t < n {
      FullSame(r, s, q, to, t + 1, n);
      FullNext(r, s, t);
      FullNext(q, to, t);
    }
  }

  /** The run goes from where it is open to where it has left. */
  lemma RunMoves(gone: seq<Node>, run: seq<Node>, child: Node, later: seq<Node>)
    ensures gone + run + ([child] + later) == (gone + run) + [child] + later
    ensures gone + run + ([child] + later) == gone + (run + [child]) + later
    ensures gone + run + later == (gone + run) + [] + later
  {
  }

  /** The child is behind the open directories as before, in the run or in front of it. */
  lemma AbsorbedFull(r: Record, s: State, budget: nat)
    requires 1 <= s.measuring <= |s.levels| == |r.gone| && Inner(s).done != []
    ensures var q, to, t := AbsorbedRecord(r, s, budget), Absorbed(s, budget), s.measuring - 1;
            && |to.levels| == |s.levels| && to.measuring == s.measuring
            && Full(q.gone, to, t) == Full(r.gone, s, t)
            && (forall j :: 0 <= j < t ==> Behind(q.gone, to, j) == Behind(r.gone, s, j) && to.levels[j] == s.levels[j])
            && to.levels[t].entry == s.levels[t].entry
  {
    hide Full, SizeAll, Size;
    var q, to, t := AbsorbedRecord(r, s, budget), Absorbed(s, budget), s.measuring - 1;
    assert Inner(s).done == [Inner(s).done[0]] + Inner(s).done[1..];
    RunMoves(r.gone[t], s.run, Inner(s).done[0], Inner(s).done[1..]);
    assert Behind(q.gone, to, t) == Behind(r.gone, s, t);
    SameAbove(r, s, q, to, t);
  }

  lemma AbsorbedRooted(r: Record, s: State, goal: seq<seq<Row>>, budget: nat)
    requires Shaped(s) && Rooted(r, s, goal, budget) && Inner(s).done != []
    requires !Oversize(Inner(s).done[0], budget) && Kinds(Inner(s).done)
    ensures Rooted(Come(AbsorbedRecord(r, s, budget), Absorbed(s, budget)), Absorbed(s, budget), goal, budget)
    ensures SameWalk(r, Come(AbsorbedRecord(r, s, budget), Absorbed(s, budget)))
  {
    hide Full, LargeAt, Parts, SizeAll, Peaked, Peak, Oversize, Kinds, Followed, Settled;
    assert Step(s, Absorbed(s, budget), budget);
    FollowedFurther(r.trace, r.most, r.tree, s, Absorbed(s, budget), budget);
    AbsorbedPeaked(r.most, r.walked, Peak(r.tree, budget), s, budget);
    AbsorbedFull(r, s, budget);
    StillRooted(r, s, Come(AbsorbedRecord(r, s, budget), Absorbed(s, budget)), Absorbed(s, budget), s.measuring - 1, goal, budget);
  }

  lemma OpenedRooted(r: Record, s: State, goal: seq<seq<Row>>, budget: nat)
    requires Shaped(s) && Rooted(r, s, goal, budget) && s.measuring < |s.levels|
    requires Inner(s).done == []
    requires Own(s.levels[s.measuring].entry) + SizeAll(Seen(s.levels, s.measuring)) > budget
    ensures Rooted(Come(RunRecord(r, s), Opened(s)), Opened(s), goal, budget) && SameWalk(r, Come(RunRecord(r, s), Opened(s)))
  {
    hide Full, Parts, SizeAll, Kids, Seen, Flush, RunRows, Peaked, Peak, Followed, Settled;
    assert Step(s, Opened(s), budget);
    FollowedFurther(r.trace, r.most, r.tree, s, Opened(s), budget);
    SeenWithinKids(s.levels, s.measuring);
    OpenedPeaked(r.most, r.walked, Peak(r.tree, budget), s, budget);
    var q, to, m := RunRecord(r, s), Opened(s), s.measuring;
    FullIsKids(r, s, m);
    RunMoves(r.gone[m - 1], s.run, Node(s.levels[m].entry, []), s.levels[m - 1].done);
    assert Behind(q.gone, to, m - 1) == Behind(r.gone, s, m - 1);
    assert Behind(q.gone, to, m) == Behind(r.gone, s, m);
    SameAbove(r, s, q, to, m);
    StillRooted(r, s, Come(q, to), to, m, goal, budget);
  }

  lemma LeftRooted(r: Record, s: State, goal: seq<seq<Row>>, budget: nat)
    requires Shaped(s) && Rooted(r, s, goal, budget) && |s.levels| == s.measuring >= 2 && Top(s).rest == []
    requires Top(s).done == []
    requires r.walked ==> Held(s) <= r.most
    requires Settled(s, budget)
    ensures Rooted(Come(LeftRecord(r, s), Left(s)), Left(s), goal, budget) && SameWalk(r, Come(LeftRecord(r, s), Left(s)))
  {
    hide Full, LargeAt, Parts, RunRows, Peaked, Held, Peak, Followed, Settled;
    assert Step(s, Left(s), budget);
    FollowedFurther(r.trace, r.most, r.tree, s, Left(s), budget);
    LeftPeaked(r.most, r.walked, Peak(r.tree, budget), s, budget);
    var q, to, t := LeftRecord(r, s), Left(s), |s.levels| - 2;
    var node := Node(Top(s).entry, Full(r.gone, s, t + 1));
    assert s.levels[t].done == [];
    FullNext(r, s, t);
    FullTop(q, to, t);
    assert Behind(q.gone, to, t) == Behind(r.gone, s, t) + [node];
    StillRooted(r, s, Come(q, to), to, t, goal, budget);
  }

  /** The walk begins at the root, and nothing has left. */
  lemma StartRooted(nodes: seq<Node>, root: Open, walked: bool, budget: nat)
    requires root == Start(nodes).levels[0]
    ensures Rooted(Record(nodes, [[]], 0, walked, [State([root], 1, [], [], [])]), State([root], 1, [], [], []), Parts(nodes, budget), budget)
  {
    hide Parts, Peaked, Peak, Followed;
    FollowedFirst(nodes, budget);
    StartPeaked(nodes, root, walked, budget);
    var s := State([root], 1, [], [], []);
    var r := Record(nodes, [[]], 0, walked, [s]);
    assert Behind(r.gone, s, 0) == [];
    FullTop(r, s, 0);
    assert [] + nodes == nodes;
  }

  /** What waits now is counted, and is no more than what the tree says. */
  lemma NotedRooted(r: Record, s: State, goal: seq<seq<Row>>, budget: nat)
    requires Shaped(s) && Rooted(r, s, goal, budget) && Settled(s, budget)
    ensures Rooted(r.(most := Max(r.most, Held(s))), s, goal, budget) && Held(s) <= Peak(r.tree, budget)
    ensures Reaches(r.trace, Max(r.most, Held(s)), budget) && Trace(r.trace, r.tree, budget)
  {
    hide Parts, Peaked, Peak, Held, LargeAt, Full, Trace, Reaches;
    NotedPeaked(r.most, r.walked, Peak(r.tree, budget), s, budget);
    FollowedHere(r.trace, r.most, r.tree, s, budget);
  }

  /** At the end of the walk the most that was seen to wait is what the tree says, if nothing came as a whole. */
  lemma EndRooted(r: Record, s: State, goal: seq<seq<Row>>, budget: nat)
    requires Rooted(r, s, goal, budget) && |s.levels| == s.measuring == 1 && Top(s).rest == [] && Top(s).done == []
    requires r.walked ==> Held(s) <= r.most
    ensures r.most <= Peak(r.tree, budget) && (r.walked ==> r.most == Peak(r.tree, budget))
  {
    hide Parts, Peaked, Peak, Held;
    EndPeaked(r.most, r.walked, Peak(r.tree, budget), s, budget);
  }
}
