/** The marks of finished children, and the places where a part may end, through each step. */
module Marking {
  import opened Tree
  import opened Rule
  import opened CutLists
  import opened OnePass
  import opened Traces
  import opened Roots
  import opened Levels
  import opened Steps

  lemma MarkedSame(completed: seq<Mark>, left: seq<Level>, right: seq<Level>, s: State, to: State)
    requires Marked(completed, left, s) && |left| == |right| == |to.levels| && to.measuring == s.measuring
    requires forall k :: s.measuring <= k < |left| ==>
               left[k].completed == right[k].completed && left[k].row == right[k].row && s.levels[k].done == to.levels[k].done
    ensures Marked(completed, right, to)
  {
    hide Marks;
    forall k | s.measuring <= k < |left|
      ensures MarkedAt(completed, right, to, k)
    {
      assert MarkedAt(completed, left, s, k);
    }
  }

  /** The top level, still measuring, gets one more finished child. */
  lemma MarkedMore(completed: seq<Mark>, stack: seq<Level>, s: State, to: State, child: Node)
    requires Marked(completed, stack, s) && s.measuring < |stack| == |to.levels| && to.measuring == s.measuring
    requires forall k :: 0 <= k < |stack| - 1 ==> to.levels[k].done == s.levels[k].done
    requires Top(to).done == Top(s).done + [child]
    ensures Marked(completed + [(stack[|stack| - 1].row + 1 + CountAll(Top(s).done), Size(child))], stack, to)
  {
    hide Marks, CountAll, SizeAll;
    var top := |stack| - 1;
    var mark := (stack[top].row + 1 + CountAll(Top(s).done), Size(child));
    forall k | s.measuring <= k < |stack|
      ensures MarkedAt(completed + [mark], stack, to, k)
    {
      assert MarkedAt(completed, stack, s, k);
      var from, end := Segment(completed, stack, k), Segment(completed, stack, k + 1);
      if k < top {
        assert MarkedAt(completed, stack, s, k + 1);
        MarkedOrder(completed, stack, s, k + 1, top);
        assert (completed + [mark])[from..end] == completed[from..end];
      } else {
        MarksPlus(stack[top].row + 1, Top(s).done, [child]);
        MarksOne(mark.0, child);
        assert (completed + [mark])[from..end + 1] == completed[from..end] + [mark];
      }
    }
  }

  lemma MarksOne(at: nat, child: Node)
    ensures Marks(at, [child]) == [(at, Size(child))]
  {
    assert [child][1..] == [];
  }

  lemma {:induction false} MarkedOrder(completed: seq<Mark>, stack: seq<Level>, s: State, k: nat, t: nat)
    requires Marked(completed, stack, s) && s.measuring <= k <= t <= |stack|
    ensures Segment(completed, stack, k) <= Segment(completed, stack, t) <= |completed|
    decreases t - k
  {
    if k < |stack| {
      assert MarkedAt(completed, stack, s, k);
      if k < t {
        MarkedOrder(completed, stack, s, k + 1, t);
      }
    }
  }

  /** A new level, without finished children, comes on top. */
  lemma MarkedEntered(completed: seq<Mark>, stack: seq<Level>, right: seq<Level>, s: State, to: State)
    requires Marked(completed, stack, s) && 1 <= s.measuring <= |stack|
    requires |right| == |to.levels| == |stack| + 1 && to.measuring == s.measuring
    requires forall k :: 0 <= k < |stack| ==>
               stack[k].completed == right[k].completed && stack[k].row == right[k].row && s.levels[k].done == to.levels[k].done
    requires right[|stack|].completed == |completed| && to.levels[|stack|].done == []
    ensures Marked(completed, right, to)
  {
    forall k | s.measuring <= k < |right|
      ensures MarkedAt(completed, right, to, k)
    {
      if k < |stack| {
        assert MarkedAt(completed, stack, s, k);
      } else {
        MarkedOrder(completed, stack, s, s.measuring, |stack|);
      }
    }
  }

  /** The top level goes, with the marks of its children. */
  lemma MarkedPopped(completed: seq<Mark>, stack: seq<Level>, s: State, to: State)
    requires Marked(completed, stack, s) && 1 <= s.measuring < |stack|
    requires |to.levels| == |stack| - 1 && to.measuring == s.measuring
    requires forall k :: 0 <= k < |to.levels| ==> to.levels[k].done == s.levels[k].done
    ensures stack[|stack| - 1].completed <= |completed|
    ensures Marked(completed[..stack[|stack| - 1].completed], stack[..|stack| - 1], to)
  {
    hide Marks;
    var top := |stack| - 1;
    var end := stack[top].completed;
    MarkedOrder(completed, stack, s, s.measuring, top);
    MarkedOrder(completed, stack, s, top, |stack|);
    forall k | s.measuring <= k < top
      ensures MarkedAt(completed[..end], stack[..top], to, k)
    {
      assert MarkedAt(completed, stack, s, k);
      MarkedOrder(completed, stack, s, k + 1, top);
      var from, until := Segment(completed, stack, k), Segment(completed, stack, k + 1);
      assert completed[..end][from..until] == completed[from..until];
    }
  }

  /** The marks of the levels above the outermost measuring one come behind its own. */
  lemma MarkedAbove(completed: seq<Mark>, stack: seq<Level>, s: State, size: nat)
    requires Marked(completed, stack, s) && s.measuring < |stack| && size == Segment(completed, stack, s.measuring + 1)
    ensures size <= |completed| && stack[s.measuring].completed == 0
    ensures forall k :: s.measuring < k < |stack| ==> stack[k].completed >= size
  {
    MarkedOrder(completed, stack, s, s.measuring + 1, |stack|);
    forall k | s.measuring < k < |stack|
      ensures stack[k].completed >= size
    {
      MarkedOrder(completed, stack, s, s.measuring + 1, k);
    }
  }

  /** The outermost measuring level goes, with its marks, and the marks behind them move down. */
  lemma MarkedSplit(completed: seq<Mark>, stack: seq<Level>, right: seq<Level>, s: State, to: State)
    requires Marked(completed, stack, s) && 1 <= s.measuring < |stack| == |right|
    requires to.levels == s.levels && to.measuring == s.measuring + 1
    requires var size := Segment(completed, stack, s.measuring + 1);
             forall k :: s.measuring < k < |stack| ==>
               stack[k].completed >= size ==> right[k].completed == stack[k].completed - size && right[k].row == stack[k].row
    ensures var size := Segment(completed, stack, s.measuring + 1);
            && size <= |completed|
            && completed[..size] == Marks(stack[s.measuring].row + 1, s.levels[s.measuring].done)
            && Marked(completed[size..], right, to)
            && forall k :: s.measuring < k < |stack| ==> stack[k].completed >= size
  {
    hide Marks, MarkedAt, Segment;
    var m := s.measuring;
    var size := Segment(completed, stack, m + 1);
    MarkedAbove(completed, stack, s, size);
    MarkedFirst(completed, stack, s);
    AllLower(completed, stack, right, s.measuring, size);
    forall k | m < k < |stack|
      ensures MarkedAt(completed[size..], right, to, k)
    {
      assert MarkedAt(completed, stack, s, k);
      MarkedOrder(completed, stack, s, m + 1, k);
      MarkedOrder(completed, stack, s, k, k + 1);
      MarkedLower(completed, stack, right, s, to, size, k);
    }
  }

  lemma MarkedFirst(completed: seq<Mark>, stack: seq<Level>, s: State)
    requires Marked(completed, stack, s) && s.measuring < |stack|
    ensures var size := Segment(completed, stack, s.measuring + 1);
            size <= |completed| && completed[..size] == Marks(stack[s.measuring].row + 1, s.levels[s.measuring].done)
  {
    hide Marks;
    assert MarkedAt(completed, stack, s, s.measuring);
  }

  /** Behind the first `size` marks the segments start so much further down. */
  lemma AllLower(completed: seq<Mark>, stack: seq<Level>, right: seq<Level>, m: nat, size: nat)
    requires m < |stack| == |right| && size == Segment(completed, stack, m + 1) <= |completed|
    requires forall k :: m < k < |stack| ==> stack[k].completed >= size
    requires forall k :: m < k < |stack| ==> stack[k].completed >= size ==> right[k].completed == stack[k].completed - size
    ensures forall k :: m < k <= |stack| ==>
              Segment(completed, stack, k) >= size && Segment(completed[size..], right, k) == Segment(completed, stack, k) - size
  {
  }

  lemma MarkedLower(completed: seq<Mark>, stack: seq<Level>, right: seq<Level>, s: State, to: State, size: nat, k: nat)
    requires k < |stack| == |s.levels| == |right| == |to.levels| && MarkedAt(completed, stack, s, k)
    requires to.levels[k].done == s.levels[k].done && right[k].row == stack[k].row
    requires size <= Segment(completed, stack, k) && size <= Segment(completed, stack, k + 1) && size <= |completed|
    requires Segment(completed[size..], right, k) == Segment(completed, stack, k) - size
    requires Segment(completed[size..], right, k + 1) == Segment(completed, stack, k + 1) - size
    ensures MarkedAt(completed[size..], right, to, k)
  {
    hide Marks, Segment;
    SliceLower(completed, size, Segment(completed, stack, k), Segment(completed, stack, k + 1));
  }

  lemma SliceLower<T>(all: seq<T>, size: nat, from: nat, end: nat)
    requires size <= from <= end <= |all|
    ensures all[size..][from - size..end - size] == all[from..end]
  {
  }

  /** A level whose marks lie `size` places further down. */
  function Moved(l: Level, size: nat): Level {
    if size <= l.completed then l.(completed := l.completed - size) else l
  }

  /** The marks of the levels above `level` were moved down. */
  ghost predicate MovedUp(left: seq<Level>, right: seq<Level>, level: nat, size: nat) {
    && |right| == |left|
    && forall k :: 0 <= k < |left| ==> right[k] == if k > level then Moved(left[k], size) else left[k]
  }

  // ----- where the marks are

  lemma {:induction false} MarksFrom(at: nat, nodes: seq<Node>)
    ensures forall mark <- Marks(at, nodes) :: at <= mark.0
    decreases |nodes|
  {
    if nodes != [] {
      MarksFrom(at + Count(nodes[0]), nodes[1..]);
    }
  }

  lemma MarksHere(completed: seq<Mark>, stack: seq<Level>, s: State, k: nat)
    requires k < |stack| == |s.levels| && MarkedAt(completed, stack, s, k)
    ensures Segment(completed, stack, k) <= Segment(completed, stack, k + 1) <= |completed|
    ensures forall j :: Segment(completed, stack, k) <= j < Segment(completed, stack, k + 1) ==> stack[k].row < completed[j].0
  {
    var from, end := Segment(completed, stack, k), Segment(completed, stack, k + 1);
    MarksFrom(stack[k].row + 1, s.levels[k].done);
    forall j | from <= j < end
      ensures stack[k].row < completed[j].0
    {
      assert completed[j] == completed[from..end][j - from];
    }
  }

  /** Everything marked lies behind the row of the outermost measuring level. */
  lemma {:induction false} MarksBehind(completed: seq<Mark>, base: nat, position: nat, stack: seq<Level>, s: State, k: nat)
    requires Shaped(s) && Marked(completed, stack, s) && Places(base, position, stack, s)
    requires s.measuring <= k < |stack|
    ensures forall j :: Segment(completed, stack, k) <= j < |completed| ==> stack[k].row < completed[j].0
    ensures forall t :: k <= t < |stack| ==> stack[k].row <= stack[t].row
    decreases |stack| - k
  {
    hide Seen, CountAll, SizeAll, Pre, Marks, MarkedAt;
    assert MarkedAt(completed, stack, s, k);
    MarksHere(completed, stack, s, k);
    if k + 1 < |stack| {
      SeenOne(s.levels, k);
      MarksBehind(completed, base, position, stack, s, k + 1);
    }
  }

  /** After a seal up to `after`, the places still ahead are where they were. */
  lemma CutsMove(waiting: seq<RowSource>, later: seq<RowSource>, base: nat, after: nat, completed: seq<Mark>, stack: seq<Level>, right: seq<Level>, m: nat)
    requires Cuts(waiting, base, completed, stack, m) && base <= after && KeepsCuts(waiting, later, after - base)
    requires |stack| == |right| && forall k :: m <= k < |stack| ==> right[k].row == stack[k].row && after <= stack[k].row
    requires forall j :: 0 <= j < |completed| ==> after <= completed[j].0
    ensures Cuts(later, after, completed, right, m)
  {
    hide Cuttable;
    forall k | m <= k < |right|
      ensures after <= right[k].row && Cuttable(later, right[k].row - after)
    {
      assert Cuttable(waiting, stack[k].row - base);
      assert right[k].row - base - (after - base) == right[k].row - after;
    }
    forall j | 0 <= j < |completed|
      ensures after <= completed[j].0 && Cuttable(later, completed[j].0 - after)
    {
      assert Cuttable(waiting, completed[j].0 - base);
      assert completed[j].0 - base - (after - base) == completed[j].0 - after;
    }
  }

  /** Finished children about to join a run: a part may end before each. */
  ghost predicate Ready(waiting: seq<RowSource>, base: nat, children: seq<Mark>) {
    forall j :: 0 <= j < |children| ==> base <= children[j].0 && Cuttable(waiting, children[j].0 - base)
  }

  lemma CutsSplit(waiting: seq<RowSource>, base: nat, completed: seq<Mark>, size: nat, stack: seq<Level>, right: seq<Level>, m: nat)
    requires Cuts(waiting, base, completed, stack, m) && size <= |completed|
    requires |stack| == |right| && forall k :: m < k < |stack| ==> right[k].row == stack[k].row
    ensures Ready(waiting, base, completed[..size])
    ensures Cuts(waiting, base, completed[size..], right, m + 1)
  {
    hide Cuttable;
    forall k | m + 1 <= k < |right|
      ensures base <= right[k].row && Cuttable(waiting, right[k].row - base)
    {
      assert base <= stack[k].row;
    }
    forall j | 0 <= j < |completed| - size
      ensures base <= completed[size..][j].0 && Cuttable(waiting, completed[size..][j].0 - base)
    {
      assert base <= completed[size + j].0;
    }
  }

  /** The open run before the outermost measuring level has been handed out; that level is over the budget. */
  ghost predicate ToOpen(b: Books, closed: Books, whole: seq<Mark>, goal: seq<seq<Row>>, budget: nat) {
    && Stands(b, goal, budget) && Inner(b.now).done == [] && b.now.measuring < |b.stack|
    && b.total - b.stack[b.now.measuring].startTotal > budget
    && RunClosed(b, closed)
    && Marked(whole, b.stack, b.now) && Cuts(closed.waiting, closed.base, whole, b.stack, b.now.measuring)
  }

  /** That level was split, and the first `size` marks are those of its children. */
  ghost predicate SplitFrom(b: Books, closed: Books, c: Books, whole: seq<Mark>, size: nat) {
    && 1 <= b.now.measuring < |b.now.levels| && |c.stack| == |b.stack| == |b.now.levels|
    && size == Segment(whole, b.stack, b.now.measuring + 1)
    && c == closed.(stack := c.stack, now := Opened(b.now))
    && forall k :: 0 <= k < |c.stack| ==>
         c.stack[k] == if k > b.now.measuring then Moved(b.stack[k], size) else SplitStack(b.stack, b.now.measuring)[k]
  }

  /** The finished children of the innermost split level that are still to join its run are those marked in `children`. */
  ghost predicate Awaiting(b: Books, completed: seq<Mark>, children: seq<Mark>) {
    && 1 <= b.now.measuring <= |b.now.levels| == |b.stack|
    && Marked(completed, b.stack, b.now) && Cuts(b.waiting, b.base, completed, b.stack, b.now.measuring)
    && Ready(b.waiting, b.base, children)
    && children == Marks(b.stack[b.now.measuring - 1].runFirst + CountAll(b.now.run), Inner(b.now).done)
  }

  lemma IsSplit(b: Books, closed: Books, c: Books, between: seq<Level>, whole: seq<Mark>, size: nat)
    requires 1 <= b.now.measuring < |b.now.levels| == |b.stack|
    requires size == Segment(whole, b.stack, b.now.measuring + 1)
    requires c == closed.(stack := c.stack, now := Opened(b.now))
    requires between == SplitStack(b.stack, b.now.measuring) && MovedUp(between, c.stack, b.now.measuring, size)
    ensures SplitFrom(b, closed, c, whole, size)
  {
  }

  lemma IsToOpen(b: Books, closed: Books, whole: seq<Mark>, goal: seq<seq<Row>>, budget: nat)
    requires Stands(b, goal, budget) && Inner(b.now).done == [] && b.now.measuring < |closed.stack|
    requires closed.total - closed.stack[b.now.measuring].startTotal > budget
    requires RunClosed(b, closed)
    requires Marked(whole, closed.stack, closed.now) && Cuts(closed.waiting, closed.base, whole, closed.stack, b.now.measuring)
    ensures ToOpen(b, closed, whole, goal, budget) && closed.now == b.now && closed.stack == b.stack
    ensures 1 <= b.now.measuring < |b.now.levels| == |b.stack|
    ensures Opened(b.now).measuring == b.now.measuring + 1 && Opened(b.now).run == [] && |Opened(b.now).levels| == |b.now.levels|
  {
    hide Marks, Cuts, Marked, Future, Delivers, Pathed, Totals, Places, Waits, Handed, Kinds, Carries, AllFit, RunFits;
  }

  /** While children are waiting to join, the first of them is the next. */
  lemma NextChild(b: Books, completed: seq<Mark>, children: seq<Mark>)
    requires Awaiting(b, completed, children)
    ensures 1 <= b.now.measuring <= |b.now.levels| == |b.stack|
    ensures Marked(completed, b.stack, b.now) && Cuts(b.waiting, b.base, completed, b.stack, b.now.measuring)
    ensures Inner(b.now).done == [] <==> children == []
    ensures children != [] ==>
              && children[0] == (b.stack[b.now.measuring - 1].runFirst + CountAll(b.now.run), Size(Inner(b.now).done[0]))
              && b.base <= children[0].0 && Cuttable(b.waiting, children[0].0 - b.base)
  {
    hide Marked, Cuts, Cuttable, CountAll, Size;
  }

  lemma SplitStands(b: Books, closed: Books, c: Books, whole: seq<Mark>, size: nat, goal: seq<seq<Row>>, budget: nat)
    requires ToOpen(b, closed, whole, goal, budget) && SplitFrom(b, closed, c, whole, size)
    ensures Stands(c, goal, budget) && SameReading(b.stack, c.stack)
  {
    hide Stands, Marks, Cuts, Marked, SameReading, SourcesOk, Handed, Pre, Seen, Strip, Flat, Segment;
    SplitReading(b.stack, b.now.measuring, c.stack);
    OpenedStands(b, closed, c, goal, budget);
  }

  lemma SplitMarks(b: Books, closed: Books, c: Books, whole: seq<Mark>, size: nat, goal: seq<seq<Row>>, budget: nat)
    requires ToOpen(b, closed, whole, goal, budget) && SplitFrom(b, closed, c, whole, size)
    ensures size <= |whole| && Awaiting(c, whole[size..], whole[..size])
  {
    hide Stands, Marks, Cuts, Marked, Ready, SourcesOk, Handed, Pre, Seen, Strip, Flat, Segment;
    MarkedSplit(whole, b.stack, c.stack, b.now, c.now);
    CutsSplit(closed.waiting, closed.base, whole, size, b.stack, c.stack, b.now.measuring);
  }

  lemma SplitRooted(b: Books, closed: Books, whole: seq<Mark>, r: Record, goal: seq<seq<Row>>, budget: nat)
    requires ToOpen(b, closed, whole, goal, budget) && Rooted(r, b.now, goal, budget)
    ensures Rooted(Come(RunRecord(r, b.now), Opened(b.now)), Opened(b.now), goal, budget)
    ensures SameWalk(r, Come(RunRecord(r, b.now), Opened(b.now)))
  {
    OverBudget(b, goal, budget);
    StandsHeight(b, goal, budget);
    hide Stands, Cuts, Marked, RunClosed, Kids, SizeAll, Rooted;
    OpenedRooted(r, b.now, goal, budget);
  }

  /** After a seal up to the row of the outermost measuring level, all places to cut are still ahead. */
  lemma CutsSealed(b: Books, completed: seq<Mark>, later: seq<RowSource>, at: nat)
    requires Shaped(b.now) && b.now.measuring < |b.now.levels|
    requires Marked(completed, b.stack, b.now) && Places(b.base, b.position, b.stack, b.now)
    requires Cuts(b.waiting, b.base, completed, b.stack, b.now.measuring)
    requires b.base <= at <= b.stack[b.now.measuring].row && KeepsCuts(b.waiting, later, at - b.base)
    ensures Cuts(later, at, completed, b.stack, b.now.measuring)
  {
    MarksBehind(completed, b.base, b.position, b.stack, b.now, b.now.measuring);
    CutsMove(b.waiting, later, b.base, at, completed, b.stack, b.stack, b.now.measuring);
  }

  lemma ReadyMoves(waiting: seq<RowSource>, later: seq<RowSource>, base: nat, after: nat, children: seq<Mark>)
    requires Ready(waiting, base, children) && base <= after && KeepsCuts(waiting, later, after - base)
    requires forall j :: 0 <= j < |children| ==> after <= children[j].0
    ensures Ready(later, after, children)
  {
    hide Cuttable;
    forall j | 0 <= j < |children|
      ensures Cuttable(later, children[j].0 - after)
    {
      assert Cuttable(waiting, children[j].0 - base);
      assert children[j].0 - base - (after - base) == children[j].0 - after;
    }
  }

  /** The row of the outermost measuring level comes right behind the run, if nothing else does. */
  lemma RunGap(b: Books)
    requires Shaped(b.now) && b.now.measuring < |b.now.levels| && Inner(b.now).done == []
    requires Places(b.base, b.position, b.stack, b.now)
    ensures b.stack[b.now.measuring].row == b.stack[b.now.measuring - 1].runFirst + CountAll(b.now.run)
    ensures RunRows(b.now) == [] <==> b.now.run == []
    ensures b.now.run == [] <==> CountAll(b.now.run) == 0
  {
    SeenOne(b.now.levels, b.now.measuring - 1);
    PreLength(Inner(b.now).path, b.now.run);
  }

  /** Where the rows of the measuring levels and the marks are, when a child has just joined the run. */
  lemma MarksPastRun(b: Books, completed: seq<Mark>)
    requires Shaped(b.now) && b.now.measuring <= |b.now.levels|
    requires Marked(completed, b.stack, b.now) && Places(b.base, b.position, b.stack, b.now)
    ensures var end := b.stack[b.now.measuring - 1].runFirst + CountAll(b.now.run) + CountAll(Inner(b.now).done);
            && (forall k :: b.now.measuring <= k < |b.stack| ==> end <= b.stack[k].row)
            && (forall j :: 0 <= j < |completed| ==> end <= completed[j].0)
  {
    var m := b.now.measuring;
    if m < |b.stack| {
      SeenOne(b.now.levels, m - 1);
      MarksBehind(completed, b.base, b.position, b.stack, b.now, m);
    }
  }

  /** The first finished child of the innermost split level joined its run. */
  ghost predicate JoinedOne(b: Books, c: Books, budget: nat) {
    && 1 <= b.now.measuring <= |b.now.levels| == |b.stack| == |c.stack|
    && Inner(b.now).done != [] && c.now == Absorbed(b.now, budget) && c.position == b.position
    && var level := b.now.measuring - 1;
       && c.stack == b.stack[level := WithRun(b.stack[level], c.stack[level])]
       && b.base <= c.base <= b.stack[level].runFirst + CountAll(b.now.run)
       && KeepsCuts(b.waiting, c.waiting, c.base - b.base)
  }

  lemma OneJoined(b: Books, c: Books, budget: nat)
    requires 1 <= b.now.measuring <= |b.now.levels| == |b.stack| == |c.stack|
    requires Inner(b.now).done != [] && c.now == Absorbed(b.now, budget) && c.position == b.position
    requires var level := b.now.measuring - 1;
             && c.stack == b.stack[level := WithRun(b.stack[level], c.stack[level])]
             && b.base <= c.base <= b.stack[level].runFirst + CountAll(b.now.run)
             && KeepsCuts(b.waiting, c.waiting, c.base - b.base)
    ensures JoinedOne(b, c, budget) && c.now.measuring == b.now.measuring
  {
    hide KeepsCuts, CountAll;
  }

  lemma ReplayedMarks(b: Books, c: Books, completed: seq<Mark>, children: seq<Mark>, goal: seq<seq<Row>>, budget: nat)
    requires Stands(b, goal, budget) && Stands(c, goal, budget)
    requires Awaiting(b, completed, children) && JoinedOne(b, c, budget)
    ensures Marked(completed, c.stack, c.now) && Cuts(c.waiting, c.base, completed, c.stack, c.now.measuring)
  {
    hide Future, Delivers, Pathed, Totals, Waits, Handed, Cuttable, Carries, Kinds, AllFit, RunFits, KeepsCuts, Cuts, Ready,
         Seen, Marks, MarkedAt;
    MarksPastRun(b, completed);
    MarkedSame(completed, b.stack, c.stack, b.now, c.now);
    CutsMove(b.waiting, c.waiting, b.base, c.base, completed, b.stack, c.stack, b.now.measuring);
  }

  lemma ReplayedChildren(b: Books, c: Books, completed: seq<Mark>, children: seq<Mark>, goal: seq<seq<Row>>, budget: nat)
    requires Stands(b, goal, budget) && Stands(c, goal, budget)
    requires Awaiting(b, completed, children) && JoinedOne(b, c, budget)
    ensures children != [] && Ready(c.waiting, c.base, children[1..])
    ensures c.now.measuring == b.now.measuring
    ensures children[1..] == Marks(c.stack[c.now.measuring - 1].runFirst + CountAll(c.now.run), Inner(c.now).done)
  {
    hide Stands, Marked, KeepsCuts, Cuts, Ready, Size, CountAll, SizeAll;
    ReplayedRun(b, c, goal, budget);
    ReadyTail(b.waiting, b.base, children);
    MarksFrom(b.stack[b.now.measuring - 1].runFirst + CountAll(b.now.run) + Count(Inner(b.now).done[0]), Inner(b.now).done[1..]);
    ReadyMoves(b.waiting, c.waiting, b.base, c.base, children[1..]);
  }

  /** After one child joined the run, the marks and the children still to join are as they should be. */
  lemma Replayed(b: Books, c: Books, completed: seq<Mark>, children: seq<Mark>, goal: seq<seq<Row>>, budget: nat)
    requires Stands(b, goal, budget) && Stands(c, goal, budget)
    requires Awaiting(b, completed, children) && JoinedOne(b, c, budget)
    ensures children != [] && Awaiting(c, completed, children[1..])
    ensures SameReading(b.stack, c.stack)
  {
    hide Stands, Marked, KeepsCuts, Cuts, Ready, Marks;
    ReplayedMarks(b, c, completed, children, goal, budget);
    ReplayedChildren(b, c, completed, children, goal, budget);
    RunUpdate(b.stack, b.now.measuring - 1, c.stack[b.now.measuring - 1]);
  }

  lemma ReadyTail(waiting: seq<RowSource>, base: nat, children: seq<Mark>)
    requires Ready(waiting, base, children) && children != []
    ensures Ready(waiting, base, children[1..])
  {
    hide Cuttable;
    assert forall j :: 0 <= j < |children| - 1 ==> children[1..][j] == children[j + 1];
  }

  /** The run now ends behind the child that joined it. */
  lemma ReplayedRun(b: Books, c: Books, goal: seq<seq<Row>>, budget: nat)
    requires Stands(b, goal, budget) && Stands(c, goal, budget) && c.position == b.position
    requires Inner(b.now).done != [] && c.now == Absorbed(b.now, budget)
    ensures var level := b.now.measuring - 1;
            c.stack[level].runFirst + CountAll(c.now.run)
            == b.stack[level].runFirst + CountAll(b.now.run) + Count(Inner(b.now).done[0])
  {
    hide Future, Delivers, Pathed, Totals, Waits, Handed, Cuttable, Carries, Kinds, AllFit, RunFits, Seen;
    AbsorbedSeen(b.now, budget);
    CountPlus([Inner(b.now).done[0]], Seen(c.now.levels, b.now.measuring - 1));
    PreFirst([], Inner(b.now).done[0], []);
  }

  /** The next row comes right behind everything waiting. */
  lemma WaitingEnd(b: Books, goal: seq<seq<Row>>, budget: nat)
    requires Stands(b, goal, budget)
    ensures SourcesOk(b.waiting) && b.position == b.base + |Flat(b.waiting)|
    ensures Cuttable(b.waiting, b.position - b.base)
  {
    hide Future, Delivers, Pathed, Totals, Handed, Carries, Kinds, AllFit, RunFits, Seen, Flat, Cuttable, SourceOk, WaitingRows;
    WaitingCount(b.now);
    CuttableEnd(b.waiting);
  }

  /** Where the next child of the top level will have its row. */
  lemma NextAt(b: Books, goal: seq<seq<Row>>, budget: nat)
    requires Stands(b, goal, budget) && Inner(b.now).done == []
    ensures |b.now.levels| == b.now.measuring ==>
              b.position == b.stack[|b.stack| - 1].runFirst + CountAll(b.now.run)
    ensures |b.now.levels| > b.now.measuring ==>
              b.position == b.stack[|b.stack| - 1].row + 1 + CountAll(Top(b.now).done)
  {
    hide Future, Delivers, Pathed, Totals, Handed, Waits, Carries, Kinds, AllFit, RunFits;
    assert Seen(b.now.levels, |b.stack| - 1) == Top(b.now).done + [] == Top(b.now).done;
  }

  /** `now` is `before` with one more finished child at the top level. */
  ghost predicate OneMore(before: State, now: State, child: Node) {
    && 1 <= now.measuring == before.measuring <= |now.levels| == |before.levels|
    && (forall k :: 0 <= k < |now.levels| - 1 ==> now.levels[k].done == before.levels[k].done)
    && Top(now).done == Top(before).done + [child]
    && Inner(before).done == []
  }

  /** A child of the top level is finished and counted, its row at `at`, but it has no mark and is in no run yet. */
  ghost predicate Settling(b: Books, completed: seq<Mark>, before: State, child: Node, at: nat, bytes: nat, goal: seq<seq<Row>>, budget: nat) {
    && Stands(b, goal, budget)
    && OneMore(before, b.now, child) && bytes == Size(child) && |b.stack| == |b.now.levels|
    && Marked(completed, b.stack, before) && Cuts(b.waiting, b.base, completed, b.stack, b.now.measuring)
    && b.base <= at && Cuttable(b.waiting, at - b.base)
    && var top := |b.stack| - 1;
       && (top == b.now.measuring - 1 ==> at == b.stack[top].runFirst + CountAll(b.now.run))
       && (top >= b.now.measuring ==> at == b.stack[top].row + 1 + CountAll(Top(before).done))
  }

  /** A child taken in at once: where it is, and that nothing else moved. */
  lemma TookIn(b: Books, c: Books, x: Node, completed: seq<Mark>, goal: seq<seq<Row>>, budget: nat)
    requires Stands(b, goal, budget) && Inner(b.now).done == [] && Top(b.now).rest != [] && x == Top(b.now).rest[0]
    requires !Oversize(x, budget)
    requires Marked(completed, b.stack, b.now) && Cuts(b.waiting, b.base, completed, b.stack, b.now.measuring)
    requires Counted(b, c, x) && c.total == b.total + Size(x) && c.now == Taken(b.now)
    requires |c.stack| == |b.stack|
    requires var top := |b.stack| - 1; Consumed(b.stack[top], c.stack[top], x, budget) && c.stack == b.stack[top := c.stack[top]]
    requires Pathed(c.path, b.stack, b.now.levels) && KeepsCuts(b.waiting, c.waiting, 0)
    ensures Settling(c, completed, b.now, x, b.position, Size(x), goal, budget)
  {
    hide Future, Delivers, Pathed, Totals, Places, Waits, Handed, Carries, Kinds, AllFit, RunFits, Seen, Flat, Cuttable, SourceOk,
         Remaining, Lines, Count, CountAll, SizeAll, LevelOk, MarkedAt;
    TakenStands(b, c, x, goal, budget);
    NextAt(b, goal, budget);
    WaitingEnd(b, goal, budget);
    MarkedSame(completed, b.stack, c.stack, b.now, b.now);
    CutsMove(b.waiting, c.waiting, b.base, c.base, completed, b.stack, c.stack, b.now.measuring);
  }

  lemma LineOf(depth: nat, x: Node)
    requires x.children == []
    ensures Lines(depth, [x]) == [Line(depth, x.entry)]
    ensures Size(x) == Own(x.entry) && Count(x) == 1
  {
    assert [x][1..] == [];
  }

  /** A directory entered: what it adds to the marks and the places to cut. */
  lemma WentIn(b: Books, c: Books, completed: seq<Mark>, goal: seq<seq<Row>>, budget: nat)
    requires Stands(b, goal, budget) && Inner(b.now).done == []
    requires Top(b.now).rest != [] && Top(b.now).rest[0].entry.Directory?
    requires Marked(completed, b.stack, b.now) && Cuts(b.waiting, b.base, completed, b.stack, b.now.measuring)
    requires var x := Node(Top(b.now).rest[0].entry, []);
             Counted(b, c, x) && c.total == b.total + Own(x.entry) && c.now == Entered(b.now)
    requires |c.stack| == |b.stack| + 1
    requires var top := |b.stack| - 1;
             && c.stack[..top] == b.stack[..top]
             && Consumed(b.stack[top], c.stack[top], Top(b.now).rest[0], budget)
    requires var below := c.stack[|b.stack|];
             && LevelOk(below, budget) && Remaining(below) == Top(b.now).rest[0].children
             && below.row == b.position && below.startTotal == b.total && !below.split && below.completed == |completed|
    requires Pathed(c.path, c.stack, c.now.levels) && KeepsCuts(b.waiting, c.waiting, 0)
    ensures Stands(c, goal, budget) && Inner(c.now).done == []
    ensures Marked(completed, c.stack, c.now) && Cuts(c.waiting, c.base, completed, c.stack, c.now.measuring)
  {
    hide Future, Delivers, Pathed, Totals, Places, Waits, Handed, Carries, Kinds, AllFit, RunFits, Seen, Flat, Cuttable, SourceOk,
         Remaining, Lines, Count, CountAll, SizeAll, LevelOk, MarkedAt;
    EnteredStands(b, c, goal, budget);
    WaitingEnd(b, goal, budget);
    EnteredRuns(b, c, budget);
    MarkedEntered(completed, b.stack, c.stack, b.now, c.now);
    CutsMove(b.waiting, c.waiting, b.base, c.base, completed, b.stack, c.stack[..|b.stack|], b.now.measuring);
    CutsPush(c.waiting, c.base, completed, c.stack, c.now.measuring);
  }

  lemma CutsPush(waiting: seq<RowSource>, base: nat, completed: seq<Mark>, stack: seq<Level>, m: nat)
    requires stack != [] && Cuts(waiting, base, completed, stack[..|stack| - 1], m)
    requires base <= stack[|stack| - 1].row && Cuttable(waiting, stack[|stack| - 1].row - base)
    ensures Cuts(waiting, base, completed, stack, m)
  {
    hide Cuttable;
    forall k | m <= k < |stack|
      ensures base <= stack[k].row && Cuttable(waiting, stack[k].row - base)
    {
      if k < |stack| - 1 {
        assert stack[..|stack| - 1][k] == stack[k];
      }
    }
  }

  /** The rows of a directory taken in with everything below it. */
  lemma LinesOf(depth: nat, entry: Entry, below: seq<Node>)
    ensures Lines(depth, [Node(entry, below)]) == [Line(depth, entry)] + Lines(depth + 1, below)
    ensures CountAll(below) == 0 ==> below == [] && Lines(depth + 1, below) == []
  {
    assert [Node(entry, below)][1..] == [];
  }

  /** The walk has reached directory `node`: its row waits and its item is used up, and no more. */
  ghost predicate Reached(b: Books, c: Books, completed: seq<Mark>, node: Node, goal: seq<seq<Row>>, budget: nat) {
    && Stands(b, goal, budget) && Inner(b.now).done == []
    && Marked(completed, b.stack, b.now) && Cuts(b.waiting, b.base, completed, b.stack, b.now.measuring)
    && Top(b.now).rest != [] && node == Top(b.now).rest[0] && node.entry.Directory?
    && c == b.(waiting := c.waiting, position := b.position + 1, path := c.path, stack := c.stack)
    && SourcesOk(b.waiting) && SourcesOk(c.waiting)
    && Flat(c.waiting) == Flat(b.waiting) + [Line(|b.stack| - 1, node.entry)] && KeepsCuts(b.waiting, c.waiting, 0)
    && |c.stack| == |b.stack|
    && Consumed(b.stack[|b.stack| - 1], c.stack[|b.stack| - 1], node, budget)
    && c.stack == b.stack[|b.stack| - 1 := c.stack[|b.stack| - 1]]
    && Pathed(c.path, b.stack, b.now.levels)
    && c.path == Join(Top(b.now).path + [node.entry.name])
  }

  /** The state without its top level, before that is counted as a finished child. */
  function Dropped(s: State): State
    requires s.levels != []
  {
    s.(levels := s.levels[..|s.levels| - 1])
  }

  /** A directory that fits is finished: its size. */
  lemma CameOutSize(b: Books, goal: seq<seq<Row>>, budget: nat)
    requires Stands(b, goal, budget) && b.now.measuring < |b.now.levels|
    requires Own(b.now.levels[b.now.measuring].entry) + SizeAll(Seen(b.now.levels, b.now.measuring)) <= budget
    ensures var child := Node(Top(b.now).entry, Top(b.now).done);
            Size(child) == b.total - b.stack[|b.stack| - 1].startTotal && Size(child) <= budget
  {
    hide Future, Delivers, Pathed, Places, Waits, Handed, Carries, Kinds, AllFit, RunFits, SizeAll, Seen;
    SeenTop(b.now.levels);
    InnerIsSmaller(b.now, b.now.measuring, |b.stack| - 1);
  }

  /** And where its row is among its parent's children. */
  lemma CameOutRow(b: Books, goal: seq<seq<Row>>, budget: nat)
    requires Stands(b, goal, budget) && Inner(b.now).done == [] && b.now.measuring < |b.now.levels|
    ensures var row, top := b.stack[|b.stack| - 1].row, |b.stack| - 1;
            && (top == b.now.measuring ==> row == b.stack[top - 1].runFirst + CountAll(b.now.run))
            && (top > b.now.measuring ==> row == b.stack[top - 1].row + 1 + CountAll(b.now.levels[top - 1].done))
  {
    hide Future, Delivers, Pathed, Totals, Waits, Handed, Carries, Kinds, AllFit, RunFits, CountAll, Seen, RunRows;
    SeenTop(b.now.levels);
    SeenOne(b.now.levels, |b.stack| - 2);
    if |b.stack| - 1 == b.now.measuring {
      RunGap(b);
    }
  }

  lemma PathedBelow(b: Books, goal: seq<seq<Row>>, budget: nat)
    requires Stands(b, goal, budget)
    ensures |b.stack| == |b.now.levels| && Shaped(b.now)
    ensures Pathed(b.path, b.stack[..|b.stack| - 1], b.now.levels[..|b.stack| - 1])
  {
    hide Future, Delivers, Totals, Places, Waits, Handed, Carries, Kinds, AllFit, RunFits, Join;
  }

  /** The top level goes: the marks that are left, and where its own row is. */
  lemma CutsPopped(waiting: seq<RowSource>, base: nat, completed: seq<Mark>, stack: seq<Level>, m: nat)
    requires Cuts(waiting, base, completed, stack, m) && m < |stack| && stack[|stack| - 1].completed <= |completed|
    ensures Cuts(waiting, base, completed[..stack[|stack| - 1].completed], stack[..|stack| - 1], m)
    ensures base <= stack[|stack| - 1].row && Cuttable(waiting, stack[|stack| - 1].row - base)
  {
    hide Cuttable;
  }

  lemma PoppedIsOneMore(s: State)
    requires Shaped(s) && s.measuring < |s.levels| && Top(s).rest == [] && Inner(s).done == []
    ensures OneMore(Dropped(s), Popped(s), Node(Top(s).entry, Top(s).done))
    ensures Popped(s).measuring == s.measuring && |Popped(s).levels| == |s.levels| - 1 && Popped(s).run == s.run
  {
  }

  /** A directory that fits is finished: the books without it, before it is marked. */
  lemma CameOut(b: Books, c: Books, completed: seq<Mark>, goal: seq<seq<Row>>, budget: nat)
    requires Stands(b, goal, budget) && Inner(b.now).done == [] && b.now.measuring < |b.now.levels| && Top(b.now).rest == []
    requires Settled(b.now, budget)
    requires Marked(completed, b.stack, b.now) && Cuts(b.waiting, b.base, completed, b.stack, b.now.measuring)
    requires c == b.(stack := b.stack[..|b.stack| - 1], now := Popped(b.now))
    ensures var done := b.stack[|b.stack| - 1];
            && done.completed <= |completed| && done.startTotal <= b.total
            && Settling(c, completed[..done.completed], Dropped(b.now), Node(Top(b.now).entry, Top(b.now).done),
                        done.row, b.total - done.startTotal, goal, budget)
  {
    hide Stands, Shaped, Pathed, Cuts, Marked, Cuttable, Size, SizeAll, CountAll, Seen, Popped, OneMore, Inner;
    PathedBelow(b, goal, budget);
    CameOutSize(b, goal, budget);
    CameOutRow(b, goal, budget);
    PoppedIsOneMore(b.now);
    InnerBounds(b.now);
    MarkedPopped(completed, b.stack, b.now, Dropped(b.now));
    CutsPopped(b.waiting, b.base, completed, b.stack, b.now.measuring);
    PoppedStands(b, c, goal, budget);
  }

  lemma InnerBounds(s: State)
    requires Shaped(s)
    ensures 1 <= s.measuring <= |s.levels|
  {
  }

  /** At the end of a split directory on top, all that waits is the carried rows and the run. */
  lemma AtEnd(b: Books, completed: seq<Mark>, goal: seq<seq<Row>>, budget: nat)
    requires Stands(b, goal, budget) && Inner(b.now).done == [] && b.now.measuring == |b.now.levels|
    requires Marked(completed, b.stack, b.now)
    ensures var rows, top := b.now.carry + RunRows(b.now), |b.stack| - 1;
            && |b.stack| == |b.now.levels| && completed == []
            && b.base + |rows| == b.position
            && SourcesOk(b.waiting) && |rows| <= |Flat(b.waiting)|
            && Flat(b.waiting)[|rows|..] == []
            && Cuttable(b.waiting, |rows|)
            && (rows == [] ==> Flat(b.waiting) == [])
            && (top >= 1 ==> (rows != [] <==> b.stack[top].runFirst < b.position || b.base <= b.stack[top].row))
  {
    hide Future, Delivers, Pathed, Totals, Handed, Kinds, AllFit, RunFits, Flat, Cuttable, SourceOk, Linked;
    SealReady(b, goal, budget);
    WaitingEnd(b, goal, budget);
    var inner := Inner(b.now);
    assert Seen(b.now.levels, |b.stack| - 1) == [];
    assert Strip(Pre(inner.path, [])) == [];
    PreLength(inner.path, b.now.run);
  }

  lemma NothingWaits(waiting: seq<RowSource>)
    requires SourcesOk(waiting) && Flat(waiting) == []
    ensures waiting == []
  {
    if waiting != [] {
      SourceLength(waiting[0]);
    }
  }
}
