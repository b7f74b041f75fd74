/** The walk: one pass over the tree in walk order, which decides where parts end. */
module Cutter {
  import opened Tree
  import opened Rule
  import opened Delivery
  import opened CutLists
  import opened OnePass
  import opened Peaks
  import opened Traces
  import opened Roots
  import opened Weights
  import opened Levels
  import opened Steps
  import opened Marking
  import opened Reading

  /** The sink took every part that it was handed. */
  ghost predicate AllTaken(accepts: seq<CutList> -> bool, sealed: seq<CutList>) {
    forall k :: 0 < k <= |sealed| ==> accepts(sealed[..k])
  }

  /** The sink took every part but the last one. */
  ghost predicate LastRefused(accepts: seq<CutList> -> bool, sealed: seq<CutList>) {
    && sealed != [] && !accepts(sealed)
    && forall k :: 0 < k < |sealed| ==> accepts(sealed[..k])
  }

  /** What was noted so far of what waits, on the way to the peak of the root's tree. */
  ghost predicate Watched(r: Record, root: Unit, heaviest: nat, trace: seq<State>, budget: nat) {
    && r.tree == Children(root) && r.walked == Walked(root) && heaviest == r.most
    && heaviest <= Peak(Children(root), budget)
    && Trace(trace, Children(root), budget) && Reaches(trace, heaviest, budget)
  }

  lemma FirstWatched(r: Record, root: Unit, heaviest: nat, trace: seq<State>, budget: nat)
    requires r.tree == Children(root) && r.walked == Walked(root) && r.most == heaviest == 0
    requires Trace(trace, Children(root), budget) && Reaches(trace, heaviest, budget)
    ensures Watched(r, root, heaviest, trace, budget)
  {
    hide Trace, Reaches, Walked, Children, Peak;
  }

  lemma NowWatched(was: Record, r: Record, root: Unit, heaviest: nat, trace: seq<State>, now: nat, budget: nat)
    requires Watched(was, root, heaviest, trace, budget) && r == was.(most := Max(was.most, now)) && now <= Peak(r.tree, budget)
    requires Reaches(r.trace, r.most, budget) && Trace(r.trace, r.tree, budget)
    ensures Watched(r, root, r.most, r.trace, budget)
  {
    hide Trace, Reaches, Walked, Children, Peak;
  }

  lemma StillWatched(was: Record, r: Record, root: Unit, heaviest: nat, trace: seq<State>, budget: nat)
    requires Watched(was, root, heaviest, trace, budget) && SameWalk(was, r)
    ensures Watched(r, root, heaviest, trace, budget)
  {
    hide Trace, Reaches, Walked, Children, Peak;
  }

  lemma WatchedMeans(r: Record, root: Unit, heaviest: nat, trace: seq<State>, budget: nat)
    requires Watched(r, root, heaviest, trace, budget)
    ensures r.tree == Children(root) && r.walked == Walked(root) && heaviest == r.most
    ensures heaviest <= Peak(Children(root), budget)
    ensures Trace(trace, Children(root), budget) && Reaches(trace, heaviest, budget)
  {
    hide Trace, Reaches, Walked, Children, Peak;
  }

  /** The cancel flag was not set before any of the first visits. */
  ghost predicate NoneSet(cancels: nat -> bool, visits: nat) {
    forall visit :: 0 <= visit < visits ==> !cancels(visit)
  }

  lemma NoneSetYet(cancels: nat -> bool)
    ensures NoneSet(cancels, 0)
  {
  }

  lemma OneNotSet(cancels: nat -> bool, visits: nat)
    requires NoneSet(cancels, visits)
    ensures !cancels(visits) ==> NoneSet(cancels, visits + 1)
  {
  }

  lemma NoVisits(stack: seq<Level>)
    requires stack == []
    ensures Visits(stack) == 0
  {
  }

  lemma NothingTaken(accepts: seq<CutList> -> bool)
    ensures AllTaken(accepts, [])
  {
  }

  lemma OneAnswer(accepts: seq<CutList> -> bool, sealed: seq<CutList>, more: seq<CutList>)
    requires AllTaken(accepts, sealed) && |more| == |sealed| + 1 && more[..|sealed|] == sealed
    ensures if accepts(more) then AllTaken(accepts, more) else LastRefused(accepts, more)
  {
    assert more[..|more|] == more;
    assert forall k :: 0 < k <= |sealed| ==> more[..k] == sealed[..k];
  }

  datatype Outcome = Done | Cancelled | Unreadable | Refused

  class Walker {
    const budget: nat
    /** Entries that cannot be read are counted and left out, instead of ending the walk. */
    const skipErrors: bool
    /** Whether the sink takes the last of the parts handed to it so far. */
    const accepts: seq<CutList> -> bool
    /** What the cancel flag reads before each visit. */
    const cancels: nat -> bool

    // What has been read and not handed out.
    var waiting: seq<RowSource>
    // How many rows were handed out, and how many were read.
    var base: nat
    var position: nat
    // The estimates of all rows read, added up.
    var total: nat
    var path: seq<Byte>
    var stack: seq<Level>
    // The lowest level that may still fit a part; past the stack if every level is split.
    var measuring: nat
    // Where the children lie that levels not yet split have finished with, lower levels first.
    var completed: seq<Mark>
    // What the sink was handed.
    var sealed: seq<CutList>

    ghost var now: State
    ghost var goal: seq<seq<Row>>
    // The tree that is walked, and what of it has left.
    ghost var record: Record

    /** The books as they are now, without the marks. */
    ghost function Kept(): Books
      reads this
    {
      Books(waiting, base, position, total, path, stack, sealed, now)
    }

    ghost predicate Core()
      reads this
    {
      && Stands(Kept(), goal, budget)
      && Rooted(record, now, goal, budget)
      && Marked(completed, stack, now)
      && Cuts(waiting, base, completed, stack, now.measuring)
    }

    /** Between two steps, moreover, every measuring level is still within budget. */
    ghost predicate Valid()
      reads this
    {
      && Core()
      && measuring == now.measuring
      && Inner(now).done == []
      && Settled(now, budget)
    }

    /** What waits now was counted. */
    ghost predicate Noted()
      reads this
    {
      Settled(now, budget) && (record.walked ==> Held(now) <= record.most)
    }

    /** What is left to read comes scan by scan, if all of it does. */
    ghost predicate ScanByScan()
      reads this
    {
      record.walked ==> WalkedStack(stack)
    }

    constructor (budget: nat, skipErrors: bool, accepts: seq<CutList> -> bool, cancels: nat -> bool)
      ensures this.budget == budget && this.skipErrors == skipErrors
      ensures this.accepts == accepts && this.cancels == cancels
      ensures sealed == [] && stack == [] && waiting == [] && completed == [] && path == []
      ensures base == position == total == 0 && measuring == 1
    {
      this.budget := budget;
      this.skipErrors := skipErrors;
      this.accepts := accepts;
      this.cancels := cancels;
      waiting, base, position, total, path := [], 0, 0, 0, [];
      stack, measuring, completed, sealed := [], 1, [], [];
      now, goal, record := State([], 1, [], [], []), [], Record([], [], 0, false, []);
    }

    // ----- sealing

    /** The names of the directories open above a row at `depth`, cut from the path text. */
    method Stem(depth: nat) returns (stem: Path)
      requires Shaped(now) && Pathed(path, stack, now.levels) && depth < |stack|
      ensures stem == now.levels[depth].path
    {
      stem := [];
      for level := 1 to depth + 1
        invariant stem == now.levels[level - 1].path
      {
        var start := NameStart(stack[level - 1].pathLen);
        ghost var parent, name := now.levels[level - 1].path, now.levels[level].entry.name;
        JoinMore(parent, name);
        assert Join(now.levels[level].path) == path[..stack[level].pathLen];
        assert path[start..stack[level].pathLen] == path[..stack[level].pathLen][start..];
        stem := stem + [path[start..stack[level].pathLen]];
      }
    }

    /** Takes the sources of the first `count` waiting rows, cutting a range in two if need be. */
    method TakeFront(count: nat) returns (sources: seq<RowSource>)
      requires SourcesOk(waiting) && count <= |Flat(waiting)| && Cuttable(waiting, count)
      modifies this`waiting
      ensures SourcesOk(sources) && SourcesOk(waiting)
      ensures Flat(sources) + Flat(waiting) == old(Flat(waiting)) && |Flat(sources)| == count
      ensures KeepsCuts(old(waiting), waiting, count)
    {
      hide Flat, Cuttable, KeepsCuts, SourceLines, Folds;
      sources := [];
      var left: nat := count;
      ghost var all := waiting;
      StartTaking(all, count);
      while left > 0
        invariant left <= count
        invariant Taking(all, sources, waiting, count - left)
        invariant Cutting(all, waiting, left, count)
      {
        FrontOf(waiting, left);
        var front := waiting[0];
        if front.count <= left {
          TakesWhole(all, sources, waiting, count - left);
          CutsWhole(all, waiting, left, count);
          left := left - front.count;
          sources := sources + [front];
          waiting := waiting[1..];
        } else {
          var head, tail := SplitOffFront(front, left);
          RangeIsSource(front);
          RangeIsSource(head);
          RangeIsSource(tail);
          TakesHead(all, sources, waiting, count - left, head, tail);
          CutsHead(all, waiting, left, count, head, tail);
          sources := sources + [head];
          waiting := [tail] + waiting[1..];
          left := 0;
        }
      }
    }

    /** Hands out what waits in front of row number `end`, which is `rows`, as one part. */
    method Seal(end: nat, ghost rows: seq<Row>) returns (ok: bool)
      requires base + |rows| == end && SourcesOk(waiting)
      requires Strip(rows) <= Flat(waiting) && Cuttable(waiting, |rows|)
      requires rows != [] ==>
                 && Shaped(now) && Pathed(path, stack, now.levels)
                 && |rows[0].dir| < |stack| && now.levels[|rows[0].dir|].path == rows[0].dir
                 && Linked(rows[0].dir, rows)
      requires AllTaken(accepts, sealed)
      modifies this`waiting, this`base, this`sealed
      ensures base == end && SourcesOk(waiting)
      ensures Flat(waiting) == old(Flat(waiting))[|rows|..]
      ensures KeepsCuts(old(waiting), waiting, |rows|)
      ensures rows == [] ==> ok && sealed == old(sealed)
      ensures rows != [] ==> OneSealed(old(sealed), sealed, rows) && ok == accepts(sealed)
      ensures if ok then AllTaken(accepts, sealed) else LastRefused(accepts, sealed)
    {
      var count := end - base;
      if count == 0 {
        return true;
      }
      assert Strip(rows)[0] == Flat(waiting)[0];
      FirstDepth(waiting);
      var stem := Stem(waiting[0].depth);
      var sources := TakeFront(count);
      assert Flat(sources) == old(Flat(waiting))[..count] == Strip(rows);
      base := end;
      sealed := sealed + [CutList(stem, sources)];
      OneAnswer(accepts, old(sealed), sealed);
      ok := accepts(sealed);
    }

    // ----- the open sibling run

    /** Offers the first finished child of split `level`, whose row is at `at`, to its open sibling run. */
    method AddToRun(level: nat, at: nat, bytes: nat) returns (ok: bool)
      requires Stands(Kept(), goal, budget) && level == now.measuring - 1 && Inner(now).done != []
      requires Rooted(record, now, goal, budget)
      requires at == stack[level].runFirst + CountAll(now.run) && bytes == Size(Inner(now).done[0])
      requires base <= at && Cuttable(waiting, at - base)
      requires AllTaken(accepts, sealed)
      modifies this`waiting, this`base, this`sealed, this`stack, this`now, this`record
      ensures ok ==> Stands(Kept(), goal, budget) && now == Absorbed(old(now), budget)
      ensures SameWalk(old(record), record) && (ok ==> Rooted(record, now, goal, budget))
      ensures ok ==> |stack| == |old(stack)| && stack == old(stack)[level := WithRun(old(stack)[level], stack[level])]
      ensures ok ==> stack[level].completed == old(stack)[level].completed
      ensures ok ==> old(base) <= base <= at && KeepsCuts(old(waiting), waiting, base - old(base))
      ensures if ok then AllTaken(accepts, sealed) else HandedPrefix(sealed, goal) && LastRefused(accepts, sealed)
    {
      hide Stands, Shaped, Pathed, Handed, Flat, SourcesOk, Strip, Pre, Seen, KeepsCuts, Cuttable, Linked, Means,
           HandedPrefix, Rooted, Absorbed, AbsorbedRecord, CountAll, RunRows, Size, OneSealed, AllTaken, LastRefused;
      ghost var b := Kept();
      AbsorbReady(b, goal, budget);
      AbsorbedRooted(record, now, goal, budget);
      record := Come(AbsorbedRecord(record, now, budget), Absorbed(now, budget));
      SealReady(b, goal, budget);
      var open := stack[level];
      if open.runFirst < at && open.runBytes + bytes > budget {
        ok := Seal(at, now.carry + RunRows(now));
        if !ok {
          ClosedPrefix(b, sealed, goal, budget);
          return;
        }
        stack := stack[level := stack[level].(runFirst := at, runBytes := 0)];
        stack := stack[level := stack[level].(runBytes := stack[level].runBytes + bytes)];
        now := Absorbed(now, budget);
        ClosedRun(b, Kept(), goal, budget);
      } else {
        stack := stack[level := stack[level].(runBytes := stack[level].runBytes + bytes)];
        now := Absorbed(now, budget);
        JoinedRun(b, Kept(), goal, budget);
        SameCuts(waiting);
      }
      ok := true;
    }

    /** A child of the top level is finished, its row at `at`: it joins the run, or is marked as finished. */
    method Finished(level: nat, at: nat, bytes: nat, ghost before: State, ghost child: Node) returns (ok: bool)
      requires level == |stack| - 1
      requires Rooted(record, now, goal, budget)
      requires Settling(Kept(), completed, before, child, at, bytes, goal, budget)
      requires AllTaken(accepts, sealed)
      modifies this`waiting, this`base, this`sealed, this`stack, this`now, this`record, this`completed
      ensures ok ==> Core() && Inner(now).done == [] && |stack| == |old(stack)| && SameReading(old(stack), stack)
      ensures SameWalk(old(record), record)
      ensures ok ==> now.measuring == old(now).measuring && |now.levels| == |old(now).levels|
      ensures ok && now.measuring < |now.levels| ==> now == old(now)
      ensures if ok then AllTaken(accepts, sealed) else HandedPrefix(sealed, goal) && LastRefused(accepts, sealed)
    {
      hide Sound, Future, Delivers, Pathed, Totals, Places, Waits, Handed, KeepsCuts, Cuttable, HandedPrefix, Marks,
           CountAll, SizeAll, Marked, Rooted, AllTaken, LastRefused;
      ghost var b := Kept();
      if stack[level].split {
        ok := AddToRun(level, at, bytes);
        if ok {
          RunUpdate(b.stack, level, stack[level]);
          MarkedNone(completed, b.stack, stack, before, now);
          NoCuts(waiting, base, completed, stack, now);
        }
      } else {
        MarkedMore(completed, stack, before, now, child);
        CutsMore(waiting, base, completed, stack, now.measuring, (at, bytes));
        completed := completed + [(at, bytes)];
        ok := true;
        SameReadingSelf(stack);
      }
    }

    // ----- splitting

    /** Splits the outermost measuring level, which has passed the budget: its finished children join its run. */
    method Split(level: nat) returns (ok: bool)
      requires Core() && Inner(now).done == [] && level == now.measuring < |stack|
      requires total - stack[level].startTotal > budget
      requires AllTaken(accepts, sealed)
      modifies this`waiting, this`base, this`sealed, this`stack, this`now, this`record, this`completed
      ensures ok ==> Core() && Inner(now).done == [] && now.measuring == level + 1
      ensures SameWalk(old(record), record)
      ensures ok ==> SameReading(old(stack), stack)
      ensures if ok then AllTaken(accepts, sealed) else HandedPrefix(sealed, goal) && LastRefused(accepts, sealed)
    {
      hide Sound, Future, Delivers, Pathed, Totals, Places, Waits, Handed, Flat, Strip, Pre, Seen, Cuts, Marks, Marked,
           Awaiting, SameReading, HandedPrefix, RunClosed, Rooted, AllTaken, LastRefused;
      ghost var b := Kept();
      ok := CloseRun(level);
      if ok {
        var children := OpenRun(level, b);
        ghost var between := stack;
        ok := Replay(level, children);
        if ok {
          SameReadingTwice(old(stack), between, stack);
        }
      }
    }

    /** A child that does not fit closes the open sibling run before it. */
    method CloseRun(level: nat) returns (ok: bool)
      requires Core() && Inner(now).done == [] && level == now.measuring < |stack|
      requires total - stack[level].startTotal > budget
      requires AllTaken(accepts, sealed)
      modifies this`waiting, this`base, this`sealed
      ensures ok ==> RunClosed(old(Kept()), Kept()) && Cuts(waiting, base, completed, stack, level)
      ensures if ok then AllTaken(accepts, sealed) else HandedPrefix(sealed, goal) && LastRefused(accepts, sealed)
    {
      hide Future, Delivers, Pathed, Totals, Handed, Kinds, AllFit, Flat, SourceOk, Strip, Pre, Seen, KeepsCuts,
           Cuttable, Linked, Means, HandedPrefix, Carries, Marked, CountAll, Kids, Rooted, AllTaken, LastRefused;
      ghost var b := Kept();
      RunGap(b);
      SealReady(b, goal, budget);
      assert now.parts + [] == now.parts;
      var row := stack[level].row;
      ok := true;
      if stack[level - 1].runFirst < row {
        ok := Seal(row, now.carry + RunRows(now));
        HandedMore(b.sealed, sealed, now.parts, now.carry + RunRows(now));
        if ok {
          CutsSealed(b, completed, waiting, row);
        } else {
          OverBudget(b, goal, budget);
          OpenedKeeps(now, budget);
          HandedIsPrefix(sealed, Opened(now).parts, Future(Opened(now), budget), goal);
        }
      }
    }

    /** Opens the run of split `level` below its row and takes its finished children out of the marks. */
    method OpenRun(level: nat, ghost b: Books) returns (children: seq<Mark>)
      requires Stands(b, goal, budget) && Inner(b.now).done == [] && level == b.now.measuring < |stack|
      requires total - stack[level].startTotal > budget
      requires RunClosed(b, Kept()) && Rooted(record, b.now, goal, budget)
      requires Marked(completed, stack, now) && Cuts(waiting, base, completed, stack, level)
      modifies this`stack, this`now, this`record, this`completed
      ensures Core() && now.measuring == level + 1 && now.run == []
      ensures SameWalk(old(record), record)
      ensures SameReading(old(stack), stack)
      ensures Awaiting(Kept(), completed, children)
    {
      hide Stands, Marks, Rooted, Cuts, Marked, Ready, SameReading, ToOpen, Awaiting, RunClosed, MovedUp, SplitFrom,
           Shaped, Opened, RunRecord, Inner, SplitStack;
      IsToOpen(b, Kept(), completed, goal, budget);
      ghost var closed, whole := Kept(), completed;
      ghost var size := Segment(completed, stack, level + 1);
      MarkedAbove(completed, stack, now, size);
      BeginRun(level);
      ghost var between := stack;
      children := Drain(level, size);
      IsSplit(b, closed, Kept().(now := Opened(b.now)), between, whole, size);
      SplitRooted(b, closed, whole, record, goal, budget);
      record := Come(RunRecord(record, now), Opened(now));
      now := Opened(now);
      SplitStands(b, closed, Kept(), whole, size, goal, budget);
      SplitMarks(b, closed, Kept(), whole, size, goal, budget);
      NextChild(Kept(), completed, children);
    }

    /** The run of the level's parent is over, its own starts below its row. */
    method BeginRun(level: nat)
      requires 1 <= level < |stack|
      modifies this`stack
      ensures stack == SplitStack(old(stack), level) && |stack| == |old(stack)|
      ensures forall k :: 0 <= k < |stack| ==> stack[k].completed == old(stack)[k].completed
    {
      stack := stack[level - 1 := stack[level - 1].(runFirst := USIZE_MAX, runBytes := 0)];
      stack := stack[level := stack[level].(split := true, runFirst := stack[level].row + 1, runBytes := 0)];
    }

    /** Takes the marks of the level's children out; those of the levels above it move down. */
    method Drain(level: nat, ghost size: nat) returns (children: seq<Mark>)
      requires level < |stack| && stack[level].completed == 0
      requires size == Segment(completed, stack, level + 1) <= |completed|
      requires forall k :: level < k < |stack| ==> stack[k].completed >= size
      modifies this`stack, this`completed
      ensures children == old(completed)[..size] && completed == old(completed)[size..]
      ensures MovedUp(old(stack), stack, level, size)
    {
      var from := stack[level].completed;
      var to := if level + 1 < |stack| then stack[level + 1].completed else |completed|;
      children := completed[from..to];
      completed := completed[..from] + completed[to..];
      MoveMarks(level, to - from);
    }

    /** The marks of the levels above `level` lie `size` places further down. */
    method MoveMarks(level: nat, size: nat)
      requires level < |stack| && forall k :: level < k < |stack| ==> stack[k].completed >= size
      modifies this`stack
      ensures MovedUp(old(stack), stack, level, size)
    {
      for below := level + 1 to |stack|
        invariant |stack| == |old(stack)|
        invariant forall k :: 0 <= k < |stack| ==>
                    stack[k] == if level < k < below then Moved(old(stack)[k], size) else old(stack)[k]
      {
        assert old(stack)[below].completed >= size;
        stack := stack[below := stack[below].(completed := stack[below].completed - size)];
      }
    }

    /** Offers the finished children of a level just split to its run, in order. */
    method Replay(level: nat, children: seq<Mark>) returns (ok: bool)
      requires Core() && level == now.measuring - 1
      requires Awaiting(Kept(), completed, children)
      requires AllTaken(accepts, sealed)
      modifies this`waiting, this`base, this`sealed, this`stack, this`now, this`record
      ensures ok ==> Core() && Inner(now).done == [] && now.measuring == level + 1
      ensures SameWalk(old(record), record)
      ensures ok ==> SameReading(old(stack), stack)
      ensures if ok then AllTaken(accepts, sealed) else HandedPrefix(sealed, goal) && LastRefused(accepts, sealed)
    {
      hide Stands, Marked, Cuts, Awaiting, JoinedOne, Rooted, SameReading, HandedPrefix, Cuttable, CountAll, Size, Absorbed,
           KeepsCuts, AllTaken, LastRefused;
      SameReadingSelf(stack);
      for i := 0 to |children|
        invariant Stands(Kept(), goal, budget) && Rooted(record, now, goal, budget)
        invariant level == now.measuring - 1 && SameWalk(old(record), record) && AllTaken(accepts, sealed)
        invariant SameReading(old(stack), stack)
        invariant Awaiting(Kept(), completed, children[i..])
      {
        ghost var b := Kept();
        assert children[i..][0] == children[i] && children[i..][1..] == children[i + 1..];
        NextChild(b, completed, children[i..]);
        ok := AddToRun(level, children[i].0, children[i].1);
        if !ok {
          return;
        }
        OneJoined(b, Kept(), budget);
        Replayed(b, Kept(), completed, children[i..], goal, budget);
        SameReadingTwice(old(stack), b.stack, stack);
      }
      NextChild(Kept(), completed, children[|children|..]);
      ok := true;
    }

    /** From the outside in, opens up each measuring level that holds more than the budget by now. */
    method CheckBudget() returns (ok: bool)
      requires Core() && Inner(now).done == [] && measuring == now.measuring
      requires AllTaken(accepts, sealed)
      modifies this`waiting, this`base, this`sealed, this`stack, this`now, this`record, this`completed, this`measuring
      ensures ok ==> Valid() && SameReading(old(stack), stack)
      ensures SameWalk(old(record), record)
      ensures if ok then AllTaken(accepts, sealed) else HandedPrefix(sealed, goal) && LastRefused(accepts, sealed)
    {
      hide Stands, HandedPrefix, Seen, SizeAll, Cuts, Marked, SameReading, Rooted, Inner, Settled, AllTaken, LastRefused;
      StandsHeight(Kept(), goal, budget);
      SameReadingSelf(stack);
      while measuring < |stack| && total - stack[measuring].startTotal > budget
        invariant Core() && 1 <= now.measuring <= |now.levels| == |stack| && Inner(now).done == []
        invariant measuring == now.measuring && SameWalk(old(record), record) && AllTaken(accepts, sealed)
        invariant SameReading(old(stack), stack) && |stack| == |old(stack)|
        decreases |stack| - measuring
      {
        ghost var before := stack;
        ok := Split(measuring);
        if !ok {
          return;
        }
        SameReadingTwice(old(stack), before, stack);
        SameHeight(old(stack), stack);
        StandsHeight(Kept(), goal, budget);
        measuring := measuring + 1;
      }
      WithinBudget(Kept(), goal, budget);
      ok := true;
    }

    /** A child was taken in at once: it is finished, and levels may have passed the budget. */
    method Settle(level: nat, at: nat, bytes: nat, ghost before: State, ghost child: Node) returns (ok: bool)
      requires level == |stack| - 1 && measuring == now.measuring
      requires Rooted(record, now, goal, budget)
      requires Settling(Kept(), completed, before, child, at, bytes, goal, budget)
      requires AllTaken(accepts, sealed)
      modifies this`waiting, this`base, this`sealed, this`stack, this`now, this`record, this`completed, this`measuring
      ensures ok ==> Valid() && SameReading(old(stack), stack)
      ensures SameWalk(old(record), record)
      ensures if ok then AllTaken(accepts, sealed) else HandedPrefix(sealed, goal) && LastRefused(accepts, sealed)
    {
      hide Stands, OneMore, Marked, Cuts, Cuttable, CountAll, SameReading, HandedPrefix, Rooted, AllTaken, LastRefused;
      ok := Finished(level, at, bytes, before, child);
      if ok {
        ghost var between := stack;
        ok := CheckBudget();
        if ok {
          SameReadingTwice(old(stack), between, stack);
        }
      }
    }

    // ----- the next item

    /** The item that comes next has nothing below it. */
    method Leaf(level: nat, index: nat, bytes: nat) returns (ok: bool)
      requires Valid() && level == |stack| - 1
      requires HasNext(stack) && index == stack[level].next
      requires var item := NextItem(stack); item.Recorded? && !item.entry.Directory? && bytes == Own(item.entry)
      requires Noted()
      requires ScanByScan()
      requires AllTaken(accepts, sealed)
      modifies this
      ensures goal == old(goal) && SameWalk(old(record), record)
      ensures ok ==> Valid() && Work(stack) < old(Work(stack)) && (Clean(stack) <==> old(Clean(stack)))
      ensures ok ==> ScanByScan()
      ensures if ok then AllTaken(accepts, sealed) else HandedPrefix(sealed, goal) && LastRefused(accepts, sealed)
      ensures ok ==> Visits(stack) + 1 == old(Visits(stack))
    {
      hide Stands, Rooted, Marked, Cuts, HandedPrefix, Work, Clean, SameReading, Settling, Own, Held, WalkedStack, Settled, Inner,
           AllTaken, LastRefused, Visits;
      ghost var before, x := now, Node(NextItem(stack).entry, []);
      var at := position;
      AddLeaf(level, index, bytes);
      ghost var taken := stack;
      ok := Settle(level, at, bytes, before, x);
      if ok {
        SameAhead(taken, stack);
      }
    }

    /** Its row waits behind the others and is counted. */
    method AddLeaf(level: nat, index: nat, bytes: nat)
      requires Valid() && level == |stack| - 1
      requires HasNext(stack) && index == stack[level].next
      requires var item := NextItem(stack); item.Recorded? && !item.entry.Directory? && bytes == Own(item.entry)
      requires Noted()
      requires ScanByScan()
      modifies this`stack, this`waiting, this`position, this`total, this`record, this`now
      ensures SameWalk(old(record), record) && Rooted(record, now, goal, budget)
      ensures |stack| == |old(stack)| && measuring == now.measuring
      ensures Settling(Kept(), completed, old(now), Node(old(NextItem(stack)).entry, []), old(position), bytes, goal, budget)
      ensures Work(stack) < old(Work(stack)) && (Clean(stack) <==> old(Clean(stack))) && ScanByScan()
      ensures Visits(stack) + 1 == old(Visits(stack))
    {
      hide Stands, Rooted, Marked, Cuts, Flat, SourcesOk, KeepsCuts, Cuttable, Work, Clean, Shaped, Settling, Taken, Size, Inner,
           Own, LeafSize, Held, WalkedStack, Settled, Visits;
      ghost var b := Kept();
      LeafTakes(b, goal, budget);
      LeafWalked(record.walked, stack);
      TakenRooted(record, now, goal, budget);
      var top := stack[level];
      stack := stack[level := top.(next := index + 1)];
      waiting := Extend(waiting, top.scanned.rows, index, level);
      position := position + 1;
      total := total + bytes;
      record := Come(record, Taken(now));
      now := Taken(now);
      LeafSettles(b, Kept(), Node(top.scanned.rows.items[index].entry, []), completed, goal, budget);
    }

    /** The item that comes next is a directory: its row is added, and its unit is taken in. */
    method Enter(level: nat, index: nat) returns (r: Outcome)
      requires Valid() && level == |stack| - 1
      requires HasNext(stack) && index == stack[level].next && IsDirectory(NextItem(stack))
      requires Noted()
      requires ScanByScan()
      requires AllTaken(accepts, sealed)
      modifies this
      ensures goal == old(goal) && SameWalk(old(record), record)
      ensures r == Done ==> Valid() && Work(stack) < old(Work(stack))
      ensures r == Done ==> if skipErrors then true else Clean(stack) <==> old(Clean(stack))
      ensures r == Done ==> ScanByScan()
      ensures r != Done ==> HandedPrefix(sealed, goal)
      ensures if r == Refused then LastRefused(accepts, sealed) else AllTaken(accepts, sealed)
      ensures r == Unreadable ==> !skipErrors && !old(Clean(stack))
      ensures r != Cancelled
      ensures r == Done ==> Visits(stack) + 1 == old(Visits(stack))
    {
      hide Stands, Rooted, Marked, Cuts, SizeAll, Seen, HandedPrefix, Work, Clean, Reached, UnitOk, UnitWork, CleanUnit, Children,
           Inner, Own, Held, WalkedStack, Walked, Settled, AllTaken, LastRefused, Visits;
      ghost var b := Kept();
      EnterAhead(b, goal, budget);
      var unit, entry := stack[level].subdirs[0], stack[level].scanned.rows.items[index].entry;
      var row := position;
      EnterWalked(record.walked, stack);
      AddDirectory(level, index);
      match unit
      case Whole(_, _, _) =>
        r := EnterWhole(level, row, unit, Own(entry), b, Node(entry, Children(unit)));
      case Dir(scanned, subdirs, rest) =>
        if scanned.unreadable && !skipErrors {
          PrefixNow(b, goal, budget);
          UnreadableRoot(unit);
          return Unreadable;
        }
        r := EnterDirectory(level, row, unit, Own(entry), b, Node(entry, Children(unit)));
    }

    /** Its row waits behind the others, and the path text is its path. */
    method AddDirectory(level: nat, index: nat)
      requires Valid() && level == |stack| - 1
      requires HasNext(stack) && index == stack[level].next && IsDirectory(NextItem(stack))
      requires ScanByScan()
      modifies this`stack, this`path, this`waiting, this`position
      ensures ReachedNext(old(Kept()), Kept(), completed, goal, budget) && ScanByScan()
    {
      hide Stands, Rooted, Marked, Cuts, Flat, SourcesOk, KeepsCuts, Reached, Children, JoinTo, Inner, WalkedStack, Walked, Settled,
           UnitOk, UnitWork, CleanUnit, Work, Clean, Own, Shaped;
      ghost var b := Kept();
      EnterAhead(b, goal, budget);
      EnterWalked(record.walked, stack);
      var top := stack[level];
      var entry := top.scanned.rows.items[index].entry;
      stack := stack[level := top.(next := index + 1, subdirs := top.subdirs[1..])];
      path := path[..top.pathLen];
      if top.pathLen > 0 {
        path := path + [SLASH];
      }
      path := path + entry.name;
      NamedPath(b.path[..top.pathLen], entry.name, path);
      waiting := Extend(waiting, top.scanned.rows, index, level);
      position := position + 1;
      EnterReached(b, Kept(), completed, Node(entry, Children(top.subdirs[0])), goal, budget);
    }

    /** A subtree delivered as one unit fits a part, so it counts as one finished child. */
    method EnterWhole(level: nat, row: nat, unit: Unit, own: nat, ghost b: Books, ghost node: Node) returns (r: Outcome)
      requires Reached(b, Kept(), completed, node, goal, budget) && measuring == now.measuring
      requires Rooted(record, now, goal, budget)
      requires level == |stack| - 1 && row == b.position && own == Own(node.entry)
      requires unit.Whole? && UnitOk(unit, budget) && node.children == Children(unit) && own + unit.bytes <= budget
      requires Noted()
      requires !record.walked
      requires AllTaken(accepts, sealed)
      modifies this
      ensures goal == old(goal) && SameWalk(old(record), record)
      ensures r == Done ==> Valid() && Work(stack) == old(Work(stack)) && (Clean(stack) <==> old(Clean(stack)))
      ensures r != Done ==> r == Refused && HandedPrefix(sealed, goal)
      ensures if r == Done then AllTaken(accepts, sealed) else LastRefused(accepts, sealed)
      ensures r == Done ==> Visits(stack) == old(Visits(stack))
    {
      hide Reached, Rooted, Marked, Cuts, Stands, SameReading, Work, Clean, HandedPrefix, UnitOk, Children, Held, Settled,
           Settling, Own, Inner, AllTaken, LastRefused, Visits;
      AddWhole(level, unit, own, b, node);
      ghost var taken := stack;
      var ok := Settle(level, row, own + unit.bytes, b.now, node);
      if !ok {
        return Refused;
      }
      SameAhead(taken, stack);
      r := Done;
    }

    /** All its rows wait behind the directory's own, and are counted. */
    method AddWhole(level: nat, unit: Unit, own: nat, ghost b: Books, ghost node: Node)
      requires Reached(b, Kept(), completed, node, goal, budget) && measuring == now.measuring
      requires Rooted(record, now, goal, budget) && level == |stack| - 1 && own == Own(node.entry)
      requires unit.Whole? && UnitOk(unit, budget) && node.children == Children(unit) && own + unit.bytes <= budget
      requires Noted()
      requires !record.walked
      modifies this`waiting, this`position, this`total, this`record, this`now
      ensures SameWalk(old(record), record) && Rooted(record, now, goal, budget) && measuring == now.measuring
      ensures Settling(Kept(), completed, b.now, node, b.position, own + unit.bytes, goal, budget)
    {
      hide Stands, Marked, Cuts, Flat, SourceOk, Lines, CountAll, SizeAll, KeepsCuts, Consumed, Pathed, Join, Cuttable, Folds,
           Folded, Rooted, Held, LeafSize, Settled, Settling;
      ghost var c := Kept();
      StandsHeight(b, goal, budget);
      position := position + unit.count;
      total := total + own + unit.bytes;
      LinesOf(level, node.entry, node.children);
      if unit.count > 0 {
        AddSubtree(b.waiting, waiting, unit, level + 1, budget);
        waiting := waiting + [Subtree(unit.scans, level + 1, unit.count)];
      }
      assert Flat(c.waiting) + [] == Flat(c.waiting);
      TakenRooted(record, now, goal, budget);
      record := Come(record, Taken(now));
      now := Taken(now);
      WholeCounted(b, c, Kept(), completed, node, goal, budget);
      TookIn(b, Kept(), node, completed, goal, budget);
    }

    /** A directory read scan by scan is opened. */
    method EnterDirectory(level: nat, row: nat, unit: Unit, own: nat, ghost b: Books, ghost node: Node) returns (r: Outcome)
      requires Reached(b, Kept(), completed, node, goal, budget) && measuring == now.measuring
      requires Rooted(record, now, goal, budget)
      requires level == |stack| - 1 && row == b.position && own == Own(node.entry)
      requires unit.Dir? && UnitOk(unit, budget) && node.children == Children(unit)
      requires Noted()
      requires ScanByScan()
      requires record.walked ==> Walked(unit)
      requires AllTaken(accepts, sealed)
      modifies this
      ensures goal == old(goal) && SameWalk(old(record), record)
      ensures r == Done ==> Valid() && Work(stack) == old(Work(stack)) + UnitWork(unit)
      ensures r == Done ==> (!unit.scanned.unreadable ==> (Clean(stack) <==> old(Clean(stack)) && CleanUnit(unit)))
      ensures r == Done ==> ScanByScan()
      ensures r != Done ==> r == Refused && HandedPrefix(sealed, goal)
      ensures if r == Done then AllTaken(accepts, sealed) else LastRefused(accepts, sealed)
      ensures r == Done ==> Visits(stack) == old(Visits(stack)) + UnitVisits(unit)
    {
      hide Reached, Rooted, Marked, Cuts, Stands, SameReading, Work, Clean, HandedPrefix, UnitOk, UnitWork, CleanUnit, Children,
           Held, Settled, Own, Inner, Walked, WalkedStack, AllTaken, LastRefused, Visits;
      PushLevel(unit, row, own, b, node);
      ghost var entered := stack;
      var ok := CheckBudget();
      if !ok {
        return Refused;
      }
      SameAhead(entered, stack);
      r := Done;
    }

    /** The directory becomes the top level, with its own row counted. */
    method PushLevel(unit: Unit, row: nat, own: nat, ghost b: Books, ghost node: Node)
      requires Reached(b, Kept(), completed, node, goal, budget) && measuring == now.measuring
      requires Rooted(record, now, goal, budget) && row == b.position && own == Own(node.entry)
      requires unit.Dir? && UnitOk(unit, budget) && node.children == Children(unit)
      requires Noted()
      requires ScanByScan()
      requires record.walked ==> Walked(unit)
      modifies this`stack, this`total, this`record, this`now
      ensures SameWalk(old(record), record) && Core() && Inner(now).done == [] && measuring == now.measuring
      ensures Work(stack) == old(Work(stack)) + UnitWork(unit) && ScanByScan()
      ensures !unit.scanned.unreadable ==> (Clean(stack) <==> old(Clean(stack)) && CleanUnit(unit))
      ensures Visits(stack) == old(Visits(stack)) + UnitVisits(unit)
    {
      hide Stands, Marked, Cuts, Flat, SourceOk, Lines, CountAll, SizeAll, KeepsCuts, Consumed, Cuttable, Work, Clean, UnitOk,
           CleanUnit, UnitWork, LevelOk, LevelWork, CleanLevel, Children, Remaining, Join, Rooted, Held, WalkedStack, WalkedAll,
           WalkedRest, Settled, Visits;
      ghost var c := Kept();
      StandsHeight(b, goal, budget);
      FreshLevel(unit, |path|, row, total, false, |completed|, budget);
      WorkPush(stack, Fresh(unit, |path|, row, total, false, |completed|));
      stack := stack + [Level(unit.scanned, unit.scanned.start, unit.subdirs, unit.rest, |path|, row, total, false, 0, 0, |completed|)];
      total := total + own;
      EnteredRooted(record, now, goal, budget);
      record := Come(EnteredRecord(record), Entered(now));
      now := Entered(now);
      PathedPush(b, c, stack, completed, node, goal, budget);
      LineOf(|c.stack| - 1, Node(node.entry, []));
      WentIn(b, Kept(), completed, goal, budget);
      PushedWalked(record.walked, c.stack, stack, unit);
    }

    /** The top level's scan is used up and more are to follow: the next one takes its place. */
    method ReadOn()
      requires Valid() && UsedUp(stack[|stack| - 1]) && stack[|stack| - 1].rest != []
      requires ScanByScan()
      modifies this`path, this`stack
      ensures Valid() && Work(stack) < old(Work(stack)) && (Clean(stack) <==> old(Clean(stack)))
      ensures ScanByScan() && |path| == stack[|stack| - 1].pathLen
      ensures Visits(stack) == old(Visits(stack))
    {
      hide Carries, Kinds, AllFit, RunFits, Future, Delivers, Totals, Places, Waits, Handed, Seen, Marks, Cuttable,
           Work, Clean, Join, Rooted, WalkedStack, Settled, Visits;
      ghost var b := Kept();
      var level := |stack| - 1;
      RestAhead(stack, now.levels, budget);
      RestWalked(record.walked, stack);
      PathUp(path, stack, now.levels, level);
      assert stack[..level + 1] == stack && now.levels[..level + 1] == now.levels;
      path := path[..stack[level].pathLen];
      var top, next := stack[level], stack[level].rest[0];
      stack := stack[level := top.(scanned := next.scanned, next := next.scanned.start, subdirs := next.subdirs, rest := top.rest[1..])];
      ReadStands(b, Kept(), goal, budget);
      MarkedSame(completed, b.stack, stack, now, now);
    }

    /** Finishes the top level: a split one leaves as parts, one that fits becomes a child of its parent. */
    method FinishLevel() returns (ok: bool)
      requires Valid() && UsedUp(stack[|stack| - 1]) && stack[|stack| - 1].rest == []
      requires Noted()
      requires ScanByScan()
      requires AllTaken(accepts, sealed)
      modifies this
      ensures goal == old(goal) && SameWalk(old(record), record)
      ensures ok && |old(stack)| == 1 ==> stack == [] && waiting == [] && completed == [] && Handed(sealed, goal) && old(Clean(stack))
      ensures ok && |old(stack)| == 1 && record.walked ==> record.most == Peak(record.tree, budget)
      ensures ok ==> Work(stack) < old(Work(stack))
      ensures ok && |old(stack)| > 1 ==> Valid() && (Clean(stack) <==> old(Clean(stack)))
      ensures ok ==> ScanByScan()
      ensures if ok then AllTaken(accepts, sealed) else HandedPrefix(sealed, goal) && LastRefused(accepts, sealed)
      ensures ok ==> Visits(stack) == old(Visits(stack))
    {
      hide Stands, Marked, Cuts, Seen, SizeAll, Handed, HandedPrefix, Work, Clean, Delivers, Rooted, Held, Peak, WalkedStack,
           Settled, AllTaken, LastRefused, Visits;
      NothingAheadOf(Kept(), goal, budget);
      BelowWalked(record.walked, stack);
      ghost var before := stack;
      var level := |stack| - 1;
      if level == 0 {
        assert Clean(before[..level]) by { CleanNone(before[..level]); }
        ok := FinishRoot();
        assert before[..level] == [];
      } else {
        if stack[level].split {
          ok := FinishSplit(level);
        } else {
          ok := FinishWhole(level);
        }
        if ok {
          SameAhead(before[..level], stack);
        }
      }
    }

    method FinishRoot() returns (ok: bool)
      requires Valid() && |stack| == 1 && Top(now).rest == []
      requires Noted()
      requires AllTaken(accepts, sealed)
      modifies this
      ensures goal == old(goal) && SameWalk(old(record), record)
      ensures ok ==> stack == [] && waiting == [] && completed == [] && Handed(sealed, goal)
      ensures record.most <= Peak(record.tree, budget) && (record.walked ==> record.most == Peak(record.tree, budget))
      ensures if ok then AllTaken(accepts, sealed) else HandedPrefix(sealed, goal) && LastRefused(accepts, sealed)
    {
      hide Future, Delivers, Pathed, Totals, Places, Waits, Kinds, AllFit, RunFits, Flat, Strip, Pre, Seen, KeepsCuts,
           Cuttable, Linked, Means, Handed, HandedPrefix, CountAll, SizeAll, Rooted, Held, Peak, AllTaken, LastRefused;
      ghost var b := Kept();
      ghost var rows := now.carry + RunRows(now);
      StandsHeight(b, goal, budget);
      EndRooted(record, now, goal, budget);
      AtEnd(b, completed, goal, budget);
      SealReady(b, goal, budget);
      EndedKeeps(now, budget);
      assert now.parts + [] == now.parts;
      ok := Seal(position, rows);
      NothingWaits(waiting);
      if rows != [] {
        HandedMore(b.sealed, sealed, now.parts, rows);
      }
      HandedAll(sealed, goal);
      stack := [];
    }

    /** Hands out what is left of a split level before it is popped: a part starting inside it needs it for its stem. */
    method SealRest(level: nat) returns (ok: bool)
      requires Valid() && level == |stack| - 1 >= 1 && Top(now).rest == [] && now.measuring == |stack|
      requires AllTaken(accepts, sealed)
      modifies this`waiting, this`base, this`sealed
      ensures ok ==> HandedRest(old(Kept()), Kept())
      ensures if ok then AllTaken(accepts, sealed) else HandedPrefix(sealed, goal) && LastRefused(accepts, sealed)
    {
      hide Future, Delivers, Totals, Places, Waits, Kinds, AllFit, RunFits, Flat, Strip, Pre, Seen, KeepsCuts, Cuttable,
           Join, Linked, Means, Handed, HandedPrefix, CountAll, SizeAll, Carries, Rooted, AllTaken, LastRefused;
      ghost var b := Kept();
      ghost var rows := now.carry + RunRows(now);
      StandsHeight(b, goal, budget);
      AtEnd(b, completed, goal, budget);
      SealReady(b, goal, budget);
      assert now.parts + [] == now.parts;
      ok := true;
      if stack[level].runFirst < position || base <= stack[level].row {
        ok := Seal(position, rows);
        HandedMore(b.sealed, sealed, now.parts, rows);
        if !ok {
          LeftGoal(b, goal, budget);
          HandedIsPrefix(sealed, Left(now).parts, Future(Left(now), budget), goal);
        }
      }
    }

    method FinishSplit(level: nat) returns (ok: bool)
      requires Valid() && level == |stack| - 1 >= 1 && Top(now).rest == [] && stack[level].split
      requires now.measuring == |stack|
      requires Noted()
      requires AllTaken(accepts, sealed)
      modifies this
      ensures goal == old(goal) && SameWalk(old(record), record)
      ensures ok ==> Valid() && SameReading(old(stack)[..level], stack)
      ensures if ok then AllTaken(accepts, sealed) else HandedPrefix(sealed, goal) && LastRefused(accepts, sealed)
    {
      hide Stands, Rooted, Marked, Cuts, SameReading, HandedPrefix, Shaped, Left, LeftRecord, HandedRest, Inner, Pathed, Held,
           Settled, AllTaken, LastRefused;
      ok := SealRest(level);
      if ok {
        LeaveSplit(level, old(Kept()));
      }
    }

    /** A split level whose rows were all handed out is popped; the run of its parent starts at the next row. */
    method LeaveSplit(level: nat, ghost b: Books)
      requires Stands(b, goal, budget) && Marked(completed, b.stack, b.now) && Rooted(record, b.now, goal, budget)
      requires HandedRest(b, Kept()) && level == |b.stack| - 1 >= 1 && measuring == b.now.measuring
      requires Top(b.now).rest == [] && Inner(b.now).done == [] && b.now.measuring == |b.stack| && Noted()
      modifies this`stack, this`completed, this`measuring, this`path, this`record, this`now
      ensures Valid() && SameWalk(old(record), record) && SameReading(b.stack[..level], stack)
    {
      hide Stands, Rooted, Marked, Cuts, SameReading, Shaped, Left, LeftRecord, Inner, Pathed, Held, Settled, SourcesOk, Handed,
           Flat;
      SplitEnds(b, completed, goal, budget);
      LeftRooted(record, now, goal, budget);
      ghost var c := Kept();
      var leaving := stack[level];
      stack := stack[..level];
      completed := Truncate(completed, leaving.completed);
      measuring := Min(measuring, level);
      stack := stack[level - 1 := stack[level - 1].(runFirst := position, runBytes := 0)];
      path := path[..stack[level - 1].pathLen];
      record := Come(LeftRecord(record, now), Left(now));
      now := Left(now);
      SplitEnded(b, c, Kept(), goal, budget);
    }

    method FinishWhole(level: nat) returns (ok: bool)
      requires Valid() && level == |stack| - 1 >= 1 && Top(now).rest == [] && !stack[level].split
      requires now.measuring < |stack|
      requires Noted()
      requires AllTaken(accepts, sealed)
      modifies this
      ensures goal == old(goal) && SameWalk(old(record), record)
      ensures ok ==> Valid() && SameReading(old(stack)[..level], stack)
      ensures if ok then AllTaken(accepts, sealed) else HandedPrefix(sealed, goal) && LastRefused(accepts, sealed)
    {
      hide Stands, Rooted, Marked, Cuts, SameReading, HandedPrefix, Shaped, Popped, Settling, Inner, Held, Settled,
           AllTaken, LastRefused;
      ghost var b := Kept();
      StandsHeight(b, goal, budget);
      PoppedShape(now);
      ghost var before, child := Dropped(now), Node(Top(now).entry, Top(now).done);
      var done := stack[level];
      PopLevel(level);
      ghost var between := stack;
      ok := Finished(level - 1, done.row, total - done.startTotal, before, child);
      if ok {
        SameHeight(between, stack);
        CutPath();
        PoppedSettles(b.now, now, budget);
      }
    }

    /** The top level, which fits, is popped; it is not finished in its parent yet. */
    method PopLevel(level: nat)
      requires Valid() && level == |stack| - 1 >= 1 && Top(now).rest == [] && now.measuring < |stack|
      requires Noted()
      modifies this`stack, this`completed, this`measuring, this`record, this`now
      ensures stack == old(stack)[..level] && now == Popped(old(now)) && measuring == old(measuring)
      ensures SameWalk(old(record), record) && Rooted(record, now, goal, budget)
      ensures var done := old(stack)[level];
              && done.startTotal <= total
              && Settling(Kept(), completed, Dropped(old(now)), Node(Top(old(now)).entry, Top(old(now)).done),
                          done.row, total - done.startTotal, goal, budget)
    {
      hide Stands, Rooted, Marked, Cuts, SizeAll, Seen, Shaped, Popped, PoppedRecord, Settling, Inner, Held, Settled;
      ghost var b, marks := Kept(), completed;
      StandsHeight(b, goal, budget);
      InnerBounds(now);
      PoppedRooted(record, now, goal, budget);
      CameOut(b, b.(stack := b.stack[..level], now := Popped(now)), completed, goal, budget);
      var done := stack[level];
      stack := stack[..level];
      completed := Truncate(completed, done.completed);
      measuring := Min(measuring, level);
      record := Come(PoppedRecord(record), Popped(now));
      now := Popped(now);
      Truncated(marks, done.completed);
    }

    /** The path text ends with the directory that the walk is in. */
    method CutPath()
      requires Core() && Inner(now).done == []
      modifies this`path
      ensures Core() && stack != [] && |path| == stack[|stack| - 1].pathLen
    {
      hide Stands, Rooted, Marked, Cuts, Inner;
      ghost var c := Kept();
      TrimPath(c, goal, budget);
      path := path[..stack[|stack| - 1].pathLen];
      assert Kept() == c.(path := path);
    }

    // ----- the whole walk

    /** Takes in the item the top level has come to. */
    method Visit() returns (r: Outcome)
      requires Valid() && HasNext(stack)
      requires Noted()
      requires ScanByScan()
      requires AllTaken(accepts, sealed)
      modifies this
      ensures goal == old(goal) && SameWalk(old(record), record)
      ensures r == Done ==> Valid() && Work(stack) < old(Work(stack))
      ensures r == Done && !skipErrors ==> (Clean(stack) <==> old(Clean(stack)))
      ensures r == Done ==> ScanByScan()
      ensures r != Done ==> HandedPrefix(sealed, goal)
      ensures if r == Refused then LastRefused(accepts, sealed) else AllTaken(accepts, sealed)
      ensures r == Unreadable ==> !skipErrors && !old(Clean(stack))
      ensures r != Cancelled
      ensures r == Done ==> Visits(stack) + 1 == old(Visits(stack))
    {
      hide Rooted, Stands, Marked, Cuts, SizeAll, Seen, HandedPrefix, Work, Clean, Held, WalkedStack, Settled,
           AllTaken, LastRefused, Visits;
      TopRange(Kept(), goal, budget);
      var level := |stack| - 1;
      var index := stack[level].next;
      match stack[level].scanned.rows.items[index]
      case Recorded(entry) =>
        if entry.Directory? {
          r := Enter(level, index);
        } else {
          var ok := Leaf(level, index, Own(entry));
          r := if ok then Done else Refused;
        }
      case Skipped(_, _) =>
        PassOver(level, index);
        r := Done;
      case Failed(_) =>
        if skipErrors {
          PassOver(level, index);
          r := Done;
        } else {
          FailedAhead(Kept(), goal, budget);
          r := Unreadable;
        }
    }

    /** An item that is no row: the scan has counted it. */
    method PassOver(level: nat, index: nat)
      requires Valid() && HasNext(stack) && level == |stack| - 1 && index == stack[level].next && !NextItem(stack).Recorded?
      requires ScanByScan()
      modifies this`stack
      ensures Valid() && Work(stack) < old(Work(stack))
      ensures !old(NextItem(stack)).Failed? ==> (Clean(stack) <==> old(Clean(stack)))
      ensures ScanByScan()
      ensures Visits(stack) + 1 == old(Visits(stack))
    {
      hide Carries, Kinds, AllFit, RunFits, Future, Delivers, Pathed, Totals, Places, Waits, Handed, Seen, Marks,
           Cuttable, Work, Clean, Join, Rooted, WalkedStack, Settled, Visits;
      ghost var b := Kept();
      LeafWalked(record.walked, stack);
      NothingHere(stack, now.levels, budget);
      stack := stack[level := stack[level].(next := index + 1)];
      ReadStands(b, Kept(), goal, budget);
      MarkedSame(completed, b.stack, stack, now, now);
    }

    /**
     * Walks the tree that `root` reads. Whatever the outcome, the sink was handed the first parts
     * of the rule for that tree; when the walk is done, all of them. `trace` are the states it came
     * to, and `heaviest` is the most that one of them held back between two steps.
     */
    method Run(root: Unit) returns (r: Outcome, ghost heaviest: nat, ghost trace: seq<State>)
      requires root.Dir? && UnitOk(root, budget)
      requires stack == [] && sealed == [] && waiting == [] && completed == [] && path == []
      requires base == position == total == 0 && measuring == 1
      modifies this
      ensures goal == Parts(Children(root), budget)
      ensures HandedPrefix(sealed, goal)
      ensures r == Done ==> Handed(sealed, goal) && waiting == [] && completed == [] && (skipErrors || CleanUnit(root))
      ensures if r == Refused then LastRefused(accepts, sealed) else AllTaken(accepts, sealed)
      ensures r == Unreadable ==> !CleanUnit(root) && (skipErrors ==> root.scanned.unreadable)
      ensures root.scanned.unreadable ==> r == Unreadable && sealed == []
      ensures r == Done ==> NoneSet(cancels, UnitVisits(root))
      ensures r == Cancelled ==> exists visit :: 0 <= visit < UnitVisits(root) && cancels(visit) && NoneSet(cancels, visit)
      ensures Trace(trace, Children(root), budget) && Reaches(trace, heaviest, budget)
      ensures heaviest <= Peak(Children(root), budget) <= MostWaiting(Children(root), budget)
      ensures r == Done && Walked(root) ==> heaviest == Peak(Children(root), budget)
    {
      hide Stands, Marked, Cuts, Seen, SizeAll, Handed, HandedPrefix, Work, Clean, Children, Parts, CleanUnit, UnitOk,
           Inner, Rooted, MostWaiting, Weight, Peak, Held, Walked, WalkedStack, Trace, Reaches, Settled, AllTaken, LastRefused,
           NoneSet, Visits, Watched, UnitVisits;
      heaviest, trace := 0, [Start(Children(root))];
      FollowedFirst(Children(root), budget);
      goal := Parts(Children(root), budget);
      ChildrenKinds(root);
      PeakIsBounded(Children(root), budget);
      NothingHanded(sealed, goal);
      NothingTaken(accepts);
      if root.scanned.unreadable {
        UnreadableRoot(root);
        return Unreadable, heaviest, trace;
      }
      StartLevel(root);
      FirstWatched(record, root, heaviest, trace, budget);
      var visits: nat := 0;
      NoneSetYet(cancels);
      while stack != []
        invariant NoneSet(cancels, visits) && visits + Visits(stack) == UnitVisits(root)
        invariant goal == Parts(Children(root), budget) && AllTaken(accepts, sealed)
        invariant stack != [] ==> Valid() && ScanByScan()
        invariant Watched(record, root, heaviest, trace, budget)
        invariant stack == [] && record.walked ==> record.most == Peak(record.tree, budget)
        invariant stack != [] && !skipErrors ==> (Clean(stack) <==> CleanUnit(root))
        invariant stack == [] ==> Handed(sealed, goal) && waiting == [] && completed == [] && (skipErrors || CleanUnit(root))
        decreases Work(stack)
      {
        ghost var was := record;
        Note();
        NowWatched(was, record, root, heaviest, trace, Weight(Flat(waiting)), budget);
        heaviest, trace := record.most, record.trace;
        ghost var noted := record;
        r, visits := Turn(visits);
        StillWatched(noted, record, root, heaviest, trace, budget);
        if r != Done {
          WatchedMeans(record, root, heaviest, trace, budget);
          return;
        }
      }
      HandedAll(sealed, goal);
      NoVisits(stack);
      WatchedMeans(record, root, heaviest, trace, budget);
      r := Done;
    }

    /** The top level's scan is used up: the next one is read, or the level is finished. */
    method GoOn() returns (ok: bool)
      requires Valid() && Noted() && ScanByScan() && stack != [] && UsedUp(stack[|stack| - 1])
      requires AllTaken(accepts, sealed)
      modifies this
      ensures goal == old(goal) && SameWalk(old(record), record)
      ensures ok ==> Work(stack) < old(Work(stack))
      ensures ok && stack != [] ==> Valid() && ScanByScan() && (Clean(stack) <==> old(Clean(stack)))
      ensures ok && stack == [] ==> waiting == [] && completed == [] && Handed(sealed, goal) && old(Clean(stack))
      ensures ok && stack == [] && record.walked ==> record.most == Peak(record.tree, budget)
      ensures if ok then AllTaken(accepts, sealed) else HandedPrefix(sealed, goal) && LastRefused(accepts, sealed)
      ensures ok ==> Visits(stack) == old(Visits(stack))
    {
      hide Stands, Marked, Cuts, Seen, SizeAll, Inner, Rooted, Peak, Held, Work, Clean, Handed, HandedPrefix, WalkedStack, SameReading,
           AllTaken, LastRefused, Visits;
      if stack[|stack| - 1].rest != [] {
        ReadOn();
        TopRange(Kept(), goal, budget);
        ok := true;
      } else {
        ghost var last := |stack| == 1;
        ok := FinishLevel();
        if ok && !last {
          TopRange(Kept(), goal, budget);
        }
      }
    }

    /** One item is visited, unless the flag is set, or the walk goes on behind a scan that is used up. */
    method Turn(visits: nat) returns (r: Outcome, visited: nat)
      requires Valid() && Noted() && ScanByScan() && stack != [] && LevelRange(stack[|stack| - 1])
      requires AllTaken(accepts, sealed) && NoneSet(cancels, visits)
      modifies this
      ensures goal == old(goal) && SameWalk(old(record), record)
      ensures if r == Refused then LastRefused(accepts, sealed) else AllTaken(accepts, sealed)
      ensures r != Done ==> HandedPrefix(sealed, goal)
      ensures r == Unreadable ==> !skipErrors && !old(Clean(stack))
      ensures r == Cancelled ==> visited == visits && cancels(visits) && old(Visits(stack)) > 0
      ensures r == Done ==> NoneSet(cancels, visited) && visited + Visits(stack) == visits + old(Visits(stack))
      ensures r == Done ==> Work(stack) < old(Work(stack))
      ensures r == Done && stack != [] ==> Valid() && ScanByScan() && (!skipErrors ==> (Clean(stack) <==> old(Clean(stack))))
      ensures r == Done && stack == [] ==> waiting == [] && completed == [] && Handed(sealed, goal) && old(Clean(stack))
      ensures r == Done && stack == [] && record.walked ==> record.most == Peak(record.tree, budget)
    {
      hide Stands, Marked, Cuts, Seen, SizeAll, Inner, Rooted, Peak, Held, Work, Clean, Handed, HandedPrefix, WalkedStack, SameReading,
           AllTaken, LastRefused, Visits, NoneSet;
      var top := stack[|stack| - 1];
      visited := visits;
      if top.next == top.scanned.end {
        var ok := GoOn();
        r := if ok then Done else Refused;
      } else {
        HasVisits(stack);
        if cancels(visits) {
          PrefixNow(Kept(), goal, budget);
          return Cancelled, visits;
        }
        OneNotSet(cancels, visits);
        visited := visits + 1;
        r := Visit();
        if r == Done {
          TopRange(Kept(), goal, budget);
        }
      }
    }

    /** Counts what waits now. */
    ghost method Note()
      requires Valid() && stack != []
      modifies this`record
      ensures Valid() && Noted() && LevelRange(stack[|stack| - 1]) && SourcesOk(waiting)
      ensures record == old(record).(most := Max(old(record).most, Weight(Flat(waiting))))
      ensures Weight(Flat(waiting)) <= Peak(record.tree, budget)
      ensures Reaches(record.trace, record.most, budget) && Trace(record.trace, record.tree, budget)
    {
      hide Stands, Marked, Cuts, Seen, SizeAll, Inner, Rooted, Weight, Peak, Held, Flat, SourceOk, Reaches, Trace;
      TopRange(Kept(), goal, budget);
      NotesWaiting(Kept(), record, goal, budget);
      record := record.(most := Max(record.most, Weight(Flat(waiting))));
    }

    method StartLevel(root: Unit)
      requires root.Dir? && UnitOk(root, budget) && !root.scanned.unreadable
      requires stack == [] && sealed == [] && waiting == [] && completed == [] && path == []
      requires base == position == total == 0 && measuring == 1
      requires goal == Parts(Children(root), budget)
      modifies this`stack, this`now, this`record
      ensures Valid() && stack != [] && (Clean(stack) <==> CleanUnit(root))
      ensures record.tree == Children(root) && record.most == 0 && record.walked == Walked(root) && ScanByScan()
      ensures Visits(stack) == UnitVisits(root)
    {
      hide Stands, Rooted, Marked, Cuts, Clean, CleanUnit, Children, Parts, UnitOk, Settled, Walked, WalkedAll, WalkedRest,
           Visits, UnitVisits;
      FirstWalked(root);
      stack := [Level(root.scanned, root.scanned.start, root.subdirs, root.rest, 0, 0, 0, true, 0, 0, 0)];
      now := State([Open([], Entry.Directory([], None, 0), [], Children(root))], 1, [], [], []);
      record := Record(Children(root), [[]], 0, Walked(root), [now]);
      StartRooted(Children(root), now.levels[0], Walked(root), budget);
      Started(root, Kept(), goal, budget);
    }
  }

  /** What waits between two steps is counted. */
  lemma NotesWaiting(b: Books, r: Record, goal: seq<seq<Row>>, budget: nat)
    requires Stands(b, goal, budget) && Rooted(r, b.now, goal, budget) && Settled(b.now, budget)
    ensures SourcesOk(b.waiting) && 1 <= b.now.measuring <= |b.now.levels| && Weight(Flat(b.waiting)) == Held(b.now)
    ensures Rooted(r.(most := Max(r.most, Held(b.now))), b.now, goal, budget) && Held(b.now) <= Peak(r.tree, budget)
    ensures Reaches(r.trace, Max(r.most, Held(b.now)), budget) && Trace(r.trace, r.tree, budget)
  {
    hide Future, Delivers, Pathed, Totals, Places, Handed, Seen, SizeAll, Rooted, Strip, Flat, WaitingRows, Bytes, Carries, Kinds,
         AllFit, RunFits, SourcesOk, Trace, Reaches, Peak;
    NotedRooted(r, b.now, goal, budget);
    RowsWeigh(WaitingRows(b.now));
    WaitingWeighs(b.now);
  }

  lemma Started(root: Unit, b: Books, goal: seq<seq<Row>>, budget: nat)
    requires root.Dir? && UnitOk(root, budget) && !root.scanned.unreadable
    requires goal == Parts(Children(root), budget)
    requires b == Books([], 0, 0, 0, [], [Fresh(root, 0, 0, 0, true, 0)], [],
                        State([Open([], Entry.Directory([], None, 0), [], Children(root))], 1, [], [], []))
    ensures Stands(b, goal, budget) && Inner(b.now).done == []
    ensures Settled(b.now, budget)
    ensures Marked([], b.stack, b.now) && Cuts([], 0, [], b.stack, 1)
    ensures Clean(b.stack) <==> CleanUnit(root)
    ensures Visits(b.stack) == UnitVisits(root)
  {
    hide Children, CleanUnit, UnitOk, Sound, Delivers, Pathed, Totals, Places, Waits, Handed, Future, Marked, Cuts, Clean, Parts,
         Visits, UnitVisits;
    StartedState(Children(root), b.now.levels[0], goal, budget);
    StartedLevel(root, b.stack[0], b.now.levels, budget);
    StartedBooks(b);
    ChildrenKinds(root);
    StartedSound(b.now, budget);
    assert [] + goal == goal;
  }

  lemma StartedState(nodes: seq<Node>, open: Open, goal: seq<seq<Row>>, budget: nat)
    requires open.done == [] && open.rest == nodes && open.path == [] && goal == Parts(nodes, budget)
    ensures Future(State([open], 1, [], [], []), budget) == goal
  {
    var s := State([open], 1, [], [], []);
    assert Kids(s.levels, 0) == [] + [] + nodes == nodes;
    assert RunRows(s) == [];
  }

  lemma StartedSound(s: State, budget: nat)
    requires |s.levels| == 1 == s.measuring && s.carry == [] && s.run == [] && s.levels[0].path == []
    requires s.levels[0].done == [] && Kinds(s.levels[0].rest)
    ensures Sound(s, budget)
  {
  }

  lemma StartedLevel(root: Unit, l: Level, levels: seq<Open>, budget: nat)
    requires root.Dir? && UnitOk(root, budget) && !root.scanned.unreadable
    requires l == Fresh(root, 0, 0, 0, true, 0) && |levels| == 1 && levels[0].rest == Children(root)
    ensures Delivers([l], levels, budget) && (Clean([l]) <==> CleanUnit(root)) && Visits([l]) == UnitVisits(root)
  {
    hide Children, CleanUnit, UnitOk, LevelOk, CleanLevel, Remaining;
    FreshLevel(root, 0, 0, 0, true, 0, budget);
    assert [l][..0] == [];
  }

  /** At the start nothing waits and nothing is counted. */
  lemma StartedBooks(b: Books)
    requires |b.stack| == 1 == |b.now.levels| && b.stack[0].split && b.stack[0].pathLen == 0
    requires b.stack[0].runFirst == b.stack[0].runBytes == b.stack[0].completed == 0
    requires b == Books([], 0, 0, 0, [], b.stack, [], State(b.now.levels, 1, [], [], []))
    requires b.now.levels[0].path == [] && b.now.levels[0].done == []
    ensures Flags(b.stack, b.now) && Pathed(b.path, b.stack, b.now.levels) && Totals(b.total, b.stack, b.now)
    ensures Places(b.base, b.position, b.stack, b.now) && Waits(b.waiting, b.now) && Handed(b.sealed, b.now.parts)
    ensures Marked([], b.stack, b.now) && Cuts([], 0, [], b.stack, 1) && Inner(b.now).done == []
  {
    assert Seen(b.now.levels, 0) == [];
    assert WaitingRows(b.now) == [] && Strip([]) == [];
  }

  lemma NothingHanded(sealed: seq<CutList>, goal: seq<seq<Row>>)
    requires sealed == []
    ensures HandedPrefix(sealed, goal)
  {
  }

  lemma UnreadableRoot(root: Unit)
    requires root.Dir? && root.scanned.unreadable
    ensures !CleanUnit(root)
  {
  }

  lemma FirstWalked(root: Unit)
    requires root.Dir?
    ensures Walked(root) ==> WalkedAll(root.subdirs) && WalkedRest(root.rest)
  {
  }

  /** Two stacks that read the same have the same ahead. */
  lemma SameAhead(left: seq<Level>, right: seq<Level>)
    requires SameReading(left, right)
    ensures Work(left) == Work(right) && Visits(left) == Visits(right) && (Clean(left) <==> Clean(right))
    ensures WalkedStack(left) ==> WalkedStack(right)
  {
    hide Work, Clean, WalkedStack, SameReading;
    WorkSame(left, right);
    if WalkedStack(left) {
      WalkedSame(left, right);
    }
  }

  lemma LeafWalked(walked: bool, stack: seq<Level>)
    requires stack != [] && (walked ==> WalkedStack(stack))
    ensures walked ==> WalkedStack(stack[|stack| - 1 := stack[|stack| - 1].(next := stack[|stack| - 1].next + 1)])
  {
  }

  lemma EnterWalked(walked: bool, stack: seq<Level>)
    requires stack != [] && stack[|stack| - 1].subdirs != [] && (walked ==> WalkedStack(stack))
    ensures var l := stack[|stack| - 1];
            walked ==> Walked(l.subdirs[0]) && WalkedStack(stack[|stack| - 1 := l.(next := l.next + 1, subdirs := l.subdirs[1..])])
  {
    if walked {
      WalkedOn(stack);
      var l := stack[|stack| - 1];
      WalkedTop(stack, l.(next := l.next + 1, subdirs := l.subdirs[1..]));
    }
  }

  lemma RestWalked(walked: bool, stack: seq<Level>)
    requires stack != [] && stack[|stack| - 1].rest != [] && stack[|stack| - 1].rest[0].Dir?
    requires walked ==> WalkedStack(stack)
    ensures var l, next := stack[|stack| - 1], stack[|stack| - 1].rest[0];
            walked ==> WalkedStack(stack[|stack| - 1 := l.(scanned := next.scanned, next := next.scanned.start,
                                                           subdirs := next.subdirs, rest := l.rest[1..])])
  {
    if walked {
      WalkedOn(stack);
      var l, next := stack[|stack| - 1], stack[|stack| - 1].rest[0];
      WalkedTop(stack, l.(scanned := next.scanned, next := next.scanned.start, subdirs := next.subdirs, rest := l.rest[1..]));
    }
  }

  lemma PushedWalked(walked: bool, stack: seq<Level>, pushed: seq<Level>, unit: Unit)
    requires |pushed| == |stack| + 1 && pushed[..|stack|] == stack && (walked ==> WalkedStack(stack) && Walked(unit))
    requires unit.Dir? && pushed[|stack|].subdirs == unit.subdirs && pushed[|stack|].rest == unit.rest
    ensures walked ==> WalkedStack(pushed)
  {
    if walked {
      WalkedPush(stack, pushed[|stack|]);
      assert pushed == stack + [pushed[|stack|]];
    }
  }

  lemma BelowWalked(walked: bool, stack: seq<Level>)
    requires stack != [] && (walked ==> WalkedStack(stack))
    ensures walked ==> WalkedStack(stack[..|stack| - 1])
  {
    if walked {
      WalkedOn(stack);
    }
  }

  /** The totals tell that nothing measured is over the budget. */
  lemma WithinBudget(b: Books, goal: seq<seq<Row>>, budget: nat)
    requires Stands(b, goal, budget) && Inner(b.now).done == []
    requires b.now.measuring < |b.stack| ==> b.total - b.stack[b.now.measuring].startTotal <= budget
    ensures Settled(b.now, budget)
  {
    hide Future, Delivers, Pathed, Places, Waits, Handed, Carries, Kinds, AllFit, RunFits, Seen, SizeAll;
  }

  lemma NamedPath(parent: seq<Byte>, name: Name, path: seq<Byte>)
    requires path == (if parent != [] then parent + [SLASH] else parent) + name
    ensures path == JoinTo(parent, name)
  {
  }

  /** The next item is a file or a symlink, and taking it in leaves less work. */
  ghost predicate TakesNext(stack: seq<Level>) {
    && HasNext(stack) && NextItem(stack).Recorded? && !IsDirectory(NextItem(stack))
    && var l := stack[|stack| - 1];
       var after := stack[|stack| - 1 := l.(next := l.next + 1)];
       Work(after) < Work(stack) && Visits(after) + 1 == Visits(stack) && (Clean(after) <==> Clean(stack))
  }

  lemma LeafTakes(b: Books, goal: seq<seq<Row>>, budget: nat)
    requires HasNext(b.stack) && NextItem(b.stack).Recorded? && !IsDirectory(NextItem(b.stack))
    requires Stands(b, goal, budget)
    ensures SourcesOk(b.waiting) && TakesNext(b.stack)
    ensures |b.now.levels| >= 1 && Shaped(b.now) && Top(b.now).rest != [] && Taken(b.now).measuring == b.now.measuring
    ensures LeafSize(Top(b.now).rest[0]) == Size(Top(b.now).rest[0]) && !Top(b.now).rest[0].entry.Directory?
  {
    hide Future, Totals, Places, Handed, Carries, Kinds, AllFit, RunFits, Flat, SourceOk, LevelOk, Remaining, Work, Clean, Pathed,
         Consumed, Seen, Visits;
    LeafAhead(b.stack, b.now.levels, budget);
  }

  /** The next item, which has nothing below it, was taken in and its row waits: it is finished. */
  lemma LeafSettles(b: Books, c: Books, x: Node, completed: seq<Mark>, goal: seq<seq<Row>>, budget: nat)
    requires TakesNext(b.stack) && x == Node(NextItem(b.stack).entry, [])
    requires Stands(b, goal, budget) && Inner(b.now).done == [] && Top(b.now).rest != []
    requires Marked(completed, b.stack, b.now) && Cuts(b.waiting, b.base, completed, b.stack, b.now.measuring)
    requires SourcesOk(b.waiting) && SourcesOk(c.waiting) && KeepsCuts(b.waiting, c.waiting, 0)
    requires Flat(c.waiting) == Flat(b.waiting) + [Line(|b.stack| - 1, x.entry)]
    requires var l := b.stack[|b.stack| - 1];
             c == b.(waiting := c.waiting, position := b.position + 1, total := b.total + Own(x.entry), now := Taken(b.now),
                     stack := b.stack[|b.stack| - 1 := l.(next := l.next + 1)])
    ensures Settling(c, completed, b.now, x, b.position, Own(x.entry), goal, budget)
  {
    hide Future, Totals, Places, Waits, Handed, Carries, Kinds, AllFit, RunFits, Seen, Flat, SourcesOk, LevelOk, Remaining,
         Work, Clean, KeepsCuts, Cuts, Marked, Settling, Pathed, Taken, Lines, SizeAll, CountAll, Visits;
    LeafAhead(b.stack, b.now.levels, budget);
    LineOf(|b.stack| - 1, x);
    TookIn(b, c, x, completed, goal, budget);
  }

  /** The next item is a directory, with its unit, and entering it leaves less work. */
  ghost predicate EntersNext(stack: seq<Level>, budget: nat) {
    && AtDirectory(stack)
    && var unit := stack[|stack| - 1].subdirs[0];
       && UnitOk(unit, budget)
       && (unit.Whole? ==> Own(NextItem(stack).entry) + unit.bytes <= budget && CleanUnit(unit))
       && Work(Beyond(stack)) + UnitWork(unit) < Work(stack)
       && Visits(Beyond(stack)) + 1 + UnitVisits(unit) == Visits(stack)
       && (Clean(stack) <==> Clean(Beyond(stack)) && CleanUnit(unit))
  }

  lemma WholeIsClean(units: seq<Unit>)
    ensures units != [] && units[0].Whole? ==> CleanUnit(units[0])
  {
  }

  lemma DirectoryEnters(stack: seq<Level>, levels: seq<Open>, budget: nat)
    requires Delivers(stack, levels, budget) && HasNext(stack) && IsDirectory(NextItem(stack))
    ensures EntersNext(stack, budget)
  {
    hide Delivers, Work, Clean, Consumed, UnitOk, UnitWork, Children, CleanUnit;
    WholeIsClean(stack[|stack| - 1].subdirs);
    DirectoryAhead(stack, levels, budget);
  }

  /** What is known before the next item, a directory, is entered. */
  lemma EnterAhead(b: Books, goal: seq<seq<Row>>, budget: nat)
    requires HasNext(b.stack) && IsDirectory(NextItem(b.stack))
    requires Stands(b, goal, budget)
    ensures SourcesOk(b.waiting) && EntersNext(b.stack, budget) && b.stack[|b.stack| - 1].pathLen <= |b.path|
  {
    hide Future, Totals, Places, Handed, Carries, Kinds, AllFit, RunFits, Flat, SourceOk, LevelOk, Remaining, EntersNext, Join,
         Delivers;
    DirectoryEnters(b.stack, b.now.levels, budget);
    PathDown(b.path, b.stack, b.now.levels, NextItem(b.stack).entry.name);
  }

  /** The next item is a directory, and there is a unit for it. */
  ghost predicate AtDirectory(stack: seq<Level>) {
    HasNext(stack) && IsDirectory(NextItem(stack)) && stack[|stack| - 1].subdirs != []
  }

  /** The stack with the item and the unit used up. */
  function Beyond(stack: seq<Level>): seq<Level>
    requires AtDirectory(stack)
  {
    var l := stack[|stack| - 1];
    stack[|stack| - 1 := l.(next := l.next + 1, subdirs := l.subdirs[1..])]
  }

  /** The directory that comes next, with what is below it. */
  function NextNode(stack: seq<Level>): Node
    requires AtDirectory(stack)
  {
    Node(NextItem(stack).entry, Children(stack[|stack| - 1].subdirs[0]))
  }

  /** The row of the next item, a directory, waits behind the others. */
  ghost predicate RowWaits(waiting: seq<RowSource>, later: seq<RowSource>, stack: seq<Level>)
    requires AtDirectory(stack)
  {
    && SourcesOk(waiting) && SourcesOk(later) && KeepsCuts(waiting, later, 0)
    && Flat(later) == Flat(waiting) + [Line(|stack| - 1, NextItem(stack).entry)]
  }

  /** And the path text is its path. */
  ghost predicate PathGrows(path: seq<Byte>, later: seq<Byte>, stack: seq<Level>)
    requires AtDirectory(stack)
  {
    var l := stack[|stack| - 1];
    l.pathLen <= |path| && later == JoinTo(path[..l.pathLen], NextItem(stack).entry.name)
  }

  ghost predicate StepsIn(b: Books, c: Books) {
    && AtDirectory(b.stack) && RowWaits(b.waiting, c.waiting, b.stack) && PathGrows(b.path, c.path, b.stack)
    && c == b.(waiting := c.waiting, position := b.position + 1, path := c.path, stack := Beyond(b.stack))
  }

  /** The walk has reached the directory that came next. */
  ghost predicate ReachedNext(b: Books, c: Books, completed: seq<Mark>, goal: seq<seq<Row>>, budget: nat) {
    && AtDirectory(b.stack) && c.stack == Beyond(b.stack) && c.position == b.position + 1
    && Reached(b, c, completed, NextNode(b.stack), goal, budget)
  }

  /** The path text goes on with the directory's name. */
  lemma PathReached(b: Books, path: seq<Byte>, goal: seq<seq<Row>>, budget: nat)
    requires AtDirectory(b.stack) && PathGrows(b.path, path, b.stack) && Stands(b, goal, budget)
    ensures |b.stack| == |b.now.levels| && Pathed(path, b.stack, b.now.levels)
    ensures path == Join(Top(b.now).path + [NextNode(b.stack).entry.name])
  {
    hide Future, Totals, Places, Waits, Handed, Carries, Kinds, AllFit, RunFits, Seen, Delivers, Join, JoinTo;
    PathDown(b.path, b.stack, b.now.levels, NextItem(b.stack).entry.name);
  }

  /** What comes next is the next node of the open directory, and it is used up. */
  lemma AheadReached(b: Books, goal: seq<seq<Row>>, budget: nat)
    requires AtDirectory(b.stack) && Stands(b, goal, budget)
    ensures |b.stack| == |b.now.levels| && Top(b.now).rest != [] && NextNode(b.stack) == Top(b.now).rest[0]
    ensures var after, top := Beyond(b.stack), |b.stack| - 1;
            |after| == |b.stack| && after == b.stack[top := after[top]]
            && Consumed(b.stack[top], after[top], NextNode(b.stack), budget)
  {
    hide Future, Totals, Places, Waits, Handed, Carries, Kinds, AllFit, RunFits, Seen, Pathed, Work, Clean, Visits, Consumed,
         UnitOk, UnitWork, Children, CleanUnit, UnitVisits;
    DirectoryAhead(b.stack, b.now.levels, budget);
  }

  /** So the directory is reached. */
  lemma EnterReached(b: Books, c: Books, completed: seq<Mark>, node: Node, goal: seq<seq<Row>>, budget: nat)
    requires StepsIn(b, c) && node == NextNode(b.stack)
    requires Stands(b, goal, budget) && Inner(b.now).done == []
    requires Marked(completed, b.stack, b.now) && Cuts(b.waiting, b.base, completed, b.stack, b.now.measuring)
    ensures Reached(b, c, completed, node, goal, budget)
  {
    hide Stands, PathGrows, Pathed, Beyond, Consumed, Join, KeepsCuts, Cuts, Marked, Flat, SourcesOk, Children;
    AheadReached(b, goal, budget);
    PathReached(b, c.path, goal, budget);
  }

  /** The item is no row: only the place in the scan moves on. */
  lemma NothingHere(stack: seq<Level>, levels: seq<Open>, budget: nat)
    requires Delivers(stack, levels, budget) && HasNext(stack) && !NextItem(stack).Recorded?
    ensures var top := |stack| - 1;
            var after := stack[top := stack[top].(next := stack[top].next + 1)];
            && Delivers(after, levels, budget) && Work(after) < Work(stack) && Visits(after) + 1 == Visits(stack)
            && (!NextItem(stack).Failed? ==> (Clean(after) <==> Clean(stack)))
            && (NextItem(stack).Failed? ==> !Clean(stack))
  {
    hide LevelWork, CleanLevel, ItemsOk, RestOk, Decode, DecodeRest, Visits, LevelVisits, Work, Clean;
    var l := stack[|stack| - 1];
    assert LevelOk(l, budget) && Unvisited(l)[0] == NextItem(stack);
    UsesItem(l, budget);
    WorkTop(stack, After(l, l.subdirs));
    assert Single(NextItem(stack)) + Remaining(After(l, l.subdirs)) == Remaining(After(l, l.subdirs));
  }

  lemma FailedAhead(b: Books, goal: seq<seq<Row>>, budget: nat)
    requires HasNext(b.stack) && NextItem(b.stack).Failed?
    requires Stands(b, goal, budget)
    ensures !Clean(b.stack) && HandedPrefix(b.sealed, goal)
  {
    hide Future, Totals, Places, Waits, Handed, Pathed, Work, Clean, Carries, Kinds, AllFit, RunFits, HandedPrefix;
    NothingHere(b.stack, b.now.levels, budget);
    PrefixNow(b, goal, budget);
  }

  lemma PrefixNow(b: Books, goal: seq<seq<Row>>, budget: nat)
    requires Stands(b, goal, budget)
    ensures HandedPrefix(b.sealed, goal)
  {
    hide Totals, Places, Waits, Pathed, Carries, Kinds, AllFit, RunFits, Delivers;
    HandedIsPrefix(b.sealed, b.now.parts, Future(b.now, budget), goal);
  }

  lemma TopRange(b: Books, goal: seq<seq<Row>>, budget: nat)
    requires Stands(b, goal, budget)
    ensures b.stack != [] && LevelRange(b.stack[|b.stack| - 1])
  {
    hide Future, Totals, Places, Waits, Handed, Pathed, Carries, Kinds, AllFit, RunFits;
    assert LevelOk(b.stack[|b.stack| - 1], budget);
  }

  function Truncate<T>(s: seq<T>, n: nat): seq<T> {
    if n < |s| then s[..n] else s
  }

  /** The innermost split directory is on top and finished: nothing is marked, and its parent is split too. */
  lemma SplitEnds(b: Books, completed: seq<Mark>, goal: seq<seq<Row>>, budget: nat)
    requires Stands(b, goal, budget) && Inner(b.now).done == [] && Top(b.now).rest == []
    requires Marked(completed, b.stack, b.now) && b.now.measuring == |b.stack| >= 2
    ensures |b.stack| == |b.now.levels| && Shaped(b.now) && completed == []
    ensures b.stack[|b.stack| - 2].pathLen <= |b.path|
    ensures Left(b.now).measuring == |b.stack| - 1 && Top(b.now).done == []
  {
    hide Stands, Marked, Pathed, Left, Shaped;
    StandsHeight(b, goal, budget);
    LeftShape(b.now);
    NoMarks(completed, b.stack, b.now);
    PathBack(b, goal, budget);
  }

  lemma SplitEnded(b: Books, closed: Books, c: Books, goal: seq<seq<Row>>, budget: nat)
    requires Stands(b, goal, budget) && HandedRest(b, closed) && Inner(b.now).done == [] && Top(b.now).rest == []
    requires var n := |b.stack|;
             && n >= 2 && b.stack[n - 2].pathLen <= |b.path|
             && c == closed.(path := b.path[..b.stack[n - 2].pathLen], now := Left(b.now),
                             stack := b.stack[..n - 1][n - 2 := b.stack[n - 2].(runFirst := b.position, runBytes := 0)])
    ensures Stands(c, goal, budget) && c.now.measuring == |c.stack| >= 1 && 1 <= |c.now.levels| && Inner(c.now).done == []
    ensures Marked([], c.stack, c.now) && Cuts(c.waiting, c.base, [], c.stack, c.now.measuring)
    ensures Settled(c.now, budget)
    ensures SameReading(b.stack[..|b.stack| - 1], c.stack)
  {
    hide Stands, Pathed, Left, Shaped, SameReading, Marked, Cuts;
    StandsHeight(b, goal, budget);
    LeftShape(b.now);
    PathBack(b, goal, budget);
    LeftStands(b, closed, c, goal, budget);
    MarkedNothing(c.stack, c.now);
    NoCuts(c.waiting, c.base, [], c.stack, c.now);
    RunUpdate(b.stack[..|b.stack| - 1], |b.stack| - 2, c.stack[|b.stack| - 2]);
  }

  /** The path text is cut back to the parent of the directory that is left. */
  lemma PathBack(b: Books, goal: seq<seq<Row>>, budget: nat)
    requires Stands(b, goal, budget) && |b.stack| >= 2
    ensures var n := |b.stack| - 1;
            && |b.stack| == |b.now.levels| && b.stack[n - 1].pathLen <= |b.path|
            && Pathed(b.path[..b.stack[n - 1].pathLen], b.stack[..n], b.now.levels[..n])
  {
    hide Future, Delivers, Totals, Places, Waits, Handed, Kinds, AllFit, RunFits, Carries, Join;
    PathUp(b.path, b.stack, b.now.levels, |b.stack| - 2);
  }

  lemma Truncated<T>(s: seq<T>, n: nat)
    requires n <= |s|
    ensures Truncate(s, n) == s[..n]
  {
  }

  lemma CleanNone(stack: seq<Level>)
    requires stack == []
    ensures Clean(stack)
  {
  }

  lemma HandedAll(sealed: seq<CutList>, goal: seq<seq<Row>>)
    requires Handed(sealed, goal)
    ensures HandedPrefix(sealed, goal)
  {
  }

  lemma MarkedNothing(stack: seq<Level>, now: State)
    requires now.measuring == |stack| == |now.levels|
    ensures Marked([], stack, now)
  {
  }

  /** Its parent is settled again when the popped directory has joined a run or stays measured. */
  lemma PoppedSettles(s: State, now: State, budget: nat)
    requires Shaped(s) && s.measuring < |s.levels| && Top(s).rest == [] && Settled(s, budget)
    requires now.measuring == s.measuring <= |now.levels| && |now.levels| == |s.levels| - 1 && Inner(now).done == []
    requires now.measuring < |now.levels| ==> now == Popped(s)
    ensures Settled(now, budget)
  {
    hide Seen, SizeAll, Own;
    PoppedSeen(s);
  }

  lemma PoppedShape(s: State)
    requires Shaped(s) && s.measuring < |s.levels| && Top(s).rest == []
    ensures Popped(s).measuring == s.measuring && |Popped(s).levels| == |s.levels| - 1
  {
  }

  /** The path text is cut back to the directory the walk is in again. */
  lemma TrimPath(b: Books, goal: seq<seq<Row>>, budget: nat)
    requires Stands(b, goal, budget)
    ensures b.stack != [] && b.stack[|b.stack| - 1].pathLen <= |b.path|
    ensures Stands(b.(path := b.path[..b.stack[|b.stack| - 1].pathLen]), goal, budget)
  {
    hide Future, Delivers, Totals, Places, Waits, Handed, Kinds, AllFit, RunFits, Carries, Join;
    var top := |b.stack| - 1;
    PathUp(b.path, b.stack, b.now.levels, top);
    assert b.stack[..top + 1] == b.stack && b.now.levels[..top + 1] == b.now.levels;
  }

  lemma NothingAheadOf(b: Books, goal: seq<seq<Row>>, budget: nat)
    requires Stands(b, goal, budget) && UsedUp(b.stack[|b.stack| - 1]) && b.stack[|b.stack| - 1].rest == []
    ensures 1 <= b.now.measuring <= |b.stack| == |b.now.levels| && Top(b.now).rest == []
    ensures Work(b.stack[..|b.stack| - 1]) < Work(b.stack) && Visits(b.stack[..|b.stack| - 1]) == Visits(b.stack)
    ensures Clean(b.stack[..|b.stack| - 1]) <==> Clean(b.stack)
    ensures forall k :: 0 <= k < |b.stack| ==> b.stack[k].split == (k < b.now.measuring)
  {
    hide Future, Totals, Places, Waits, Handed, Pathed, Work, Clean, Carries, Kinds, AllFit, RunFits;
    NothingAhead(b.stack, b.now.levels, budget);
  }

  /** A whole subtree behind what is waiting. */
  lemma AddSubtree(before: seq<RowSource>, waiting: seq<RowSource>, unit: Unit, depth: nat, budget: nat)
    requires unit.Whole? && UnitOk(unit, budget) && unit.count > 0
    requires SourcesOk(waiting) && KeepsCuts(before, waiting, 0)
    ensures var more := waiting + [Subtree(unit.scans, depth, unit.count)];
            SourcesOk(more) && Flat(more) == Flat(waiting) + Lines(depth, Children(unit)) && KeepsCuts(before, more, 0)
  {
    hide Flat, Lines, KeepsCuts, Folds, Folded, CountAll;
    var source := Subtree(unit.scans, depth, unit.count);
    FlatOne(source);
    FlatPlus(waiting, [source]);
    KeepsCutsPlus(before, waiting, [source]);
  }

  lemma KeepsCutsPlus(before: seq<RowSource>, waiting: seq<RowSource>, more: seq<RowSource>)
    requires KeepsCuts(before, waiting, 0)
    ensures KeepsCuts(before, waiting + more, 0)
  {
    forall at: nat | Cuttable(before, at)
      ensures Cuttable(waiting + more, at)
    {
      CuttableGrows(waiting, more, at);
    }
  }

  lemma WholeCounted(b: Books, c: Books, d: Books, completed: seq<Mark>, node: Node, goal: seq<seq<Row>>, budget: nat)
    requires Reached(b, c, completed, node, goal, budget)
    requires d == c.(waiting := d.waiting, position := c.position + CountAll(node.children),
                     total := c.total + Size(node), now := d.now)
    requires SourcesOk(d.waiting) && Flat(d.waiting) == Flat(c.waiting) + Lines(|b.stack|, node.children)
    ensures Counted(b, d, node)
  {
    hide Stands, Marked, Cuts, Flat, SourceOk, KeepsCuts, Consumed, Pathed, Join, SizeAll;
    StandsHeight(b, goal, budget);
    LinesOf(|b.stack| - 1, node.entry, node.children);
    PlusAssociates(Flat(b.waiting), [Line(|b.stack| - 1, node.entry)], Lines(|b.stack|, node.children));
  }

  lemma PathedPush(b: Books, c: Books, stack: seq<Level>, completed: seq<Mark>, node: Node, goal: seq<seq<Row>>, budget: nat)
    requires Reached(b, c, completed, node, goal, budget)
    requires |stack| == |c.stack| + 1 && stack[..|c.stack|] == c.stack && stack[|c.stack|].pathLen == |c.path|
    ensures Pathed(c.path, stack, Entered(b.now).levels)
  {
    hide Marked, Cuts, Flat, SourceOk, KeepsCuts, Join, SizeAll, Future, Delivers, Totals, Places, Waits, Handed, Kinds, RunFits, AllFit;
    forall k | 0 <= k < |stack|
      ensures Join(Entered(b.now).levels[k].path) <= c.path && stack[k].pathLen == |Join(Entered(b.now).levels[k].path)|
    {
      if k < |c.stack| {
        assert stack[k] == stack[..|c.stack|][k];
      }
    }
  }

  lemma SameHeight(left: seq<Level>, right: seq<Level>)
    requires SameReading(left, right)
    ensures |left| == |right|
  {
  }

  lemma SameReadingSelf(stack: seq<Level>)
    ensures SameReading(stack, stack)
  {
  }

  /** With every level split there are no marks. */
  lemma MarkedNone(completed: seq<Mark>, stack: seq<Level>, right: seq<Level>, before: State, now: State)
    requires Marked(completed, stack, before) && before.measuring == |stack| == |right| == |now.levels| == now.measuring
    ensures completed == [] && Marked(completed, right, now)
  {
  }

  lemma NoMarks(completed: seq<Mark>, stack: seq<Level>, now: State)
    requires Marked(completed, stack, now) && now.measuring == |stack|
    ensures completed == []
  {
  }

  lemma NoCuts(waiting: seq<RowSource>, base: nat, completed: seq<Mark>, stack: seq<Level>, now: State)
    requires completed == [] && now.measuring == |stack|
    ensures Cuts(waiting, base, completed, stack, now.measuring)
  {
  }

  lemma CutsMore(waiting: seq<RowSource>, base: nat, completed: seq<Mark>, stack: seq<Level>, m: nat, mark: Mark)
    requires Cuts(waiting, base, completed, stack, m) && base <= mark.0 && Cuttable(waiting, mark.0 - base)
    ensures Cuts(waiting, base, completed + [mark], stack, m)
  {
    hide Cuttable;
  }

  lemma SameCuts(waiting: seq<RowSource>)
    ensures KeepsCuts(waiting, waiting, 0)
  {
  }

  /** The depth of a source is that of its first row. */
  lemma FirstDepth(sources: seq<RowSource>)
    requires SourcesOk(sources) && Flat(sources) != []
    ensures sources != [] && Flat(sources)[0].depth == sources[0].depth
  {
    SourceLength(sources[0]);
    if sources[0].Range? {
      ItemsDepth(sources[0].rows.items[sources[0].from..sources[0].to], sources[0].depth);
    }
  }

  /** The first `taken` rows of `all` are in `sources`, the others still in `waiting`. */
  ghost predicate Taking(all: seq<RowSource>, sources: seq<RowSource>, waiting: seq<RowSource>, taken: nat) {
    && SourcesOk(all) && SourcesOk(sources) && SourcesOk(waiting)
    && Flat(sources) + Flat(waiting) == Flat(all)
    && |Flat(sources)| == taken
  }

  /** Places to cut, with `left` of `count` rows still to take. */
  ghost predicate Cutting(all: seq<RowSource>, waiting: seq<RowSource>, left: nat, count: nat)
    requires left <= count
  {
    Cuttable(waiting, left) && KeepsCuts(all, waiting, count - left)
  }

  lemma StartTaking(all: seq<RowSource>, count: nat)
    requires SourcesOk(all) && Cuttable(all, count)
    ensures Taking(all, [], all, 0) && Cutting(all, all, count, count)
  {
    assert Flat([]) + Flat(all) == Flat(all);
  }

  lemma FrontOf(waiting: seq<RowSource>, left: nat)
    requires SourcesOk(waiting) && Cuttable(waiting, left) && left > 0
    ensures waiting != [] && SourceOk(waiting[0]) && (waiting[0].count <= left || waiting[0].Range?)
  {
  }

  lemma TakesWhole(all: seq<RowSource>, sources: seq<RowSource>, waiting: seq<RowSource>, taken: nat)
    requires Taking(all, sources, waiting, taken) && waiting != []
    ensures Taking(all, sources + [waiting[0]], waiting[1..], taken + waiting[0].count)
  {
    SourceLength(waiting[0]);
    FlatPlus(sources, [waiting[0]]);
    FlatOne(waiting[0]);
    PlusAssociates(Flat(sources), SourceLines(waiting[0]), Flat(waiting[1..]));
  }

  lemma CutsWhole(all: seq<RowSource>, waiting: seq<RowSource>, left: nat, count: nat)
    requires SourcesOk(waiting) && waiting != [] && waiting[0].count <= left <= count
    requires Cutting(all, waiting, left, count)
    ensures Cutting(all, waiting[1..], left - waiting[0].count, count)
  {
    PopKeepsCuts(waiting);
    KeepsCutsTwice(all, waiting, waiting[1..], count - left, waiting[0].count);
  }

  lemma TakesHead(all: seq<RowSource>, sources: seq<RowSource>, waiting: seq<RowSource>, taken: nat, head: RowSource, tail: RowSource)
    requires Taking(all, sources, waiting, taken) && waiting != []
    requires SourceOk(head) && SourceOk(tail) && SourceLines(waiting[0]) == SourceLines(head) + SourceLines(tail)
    ensures Taking(all, sources + [head], [tail] + waiting[1..], taken + head.count)
  {
    var rest := waiting[1..];
    SourceLength(head);
    FlatPlus(sources, [head]);
    FlatOne(head);
    FlatPlus([tail], rest);
    FlatOne(tail);
    PlusAssociates(SourceLines(head), SourceLines(tail), Flat(rest));
    PlusAssociates(Flat(sources), SourceLines(head), SourceLines(tail) + Flat(rest));
  }

  lemma CutsHead(all: seq<RowSource>, waiting: seq<RowSource>, left: nat, count: nat, head: RowSource, tail: RowSource)
    requires waiting != [] && tail.Range? && left <= count
    requires head.count == left && head.count + tail.count == waiting[0].count
    requires Cutting(all, waiting, left, count)
    ensures Cutting(all, [tail] + waiting[1..], 0, count)
  {
    SplitKeepsCuts(waiting, head, tail);
    KeepsCutsTwice(all, waiting, [tail] + waiting[1..], count - left, left);
  }
}
