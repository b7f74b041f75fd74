/** How each step of the walk carries over to the bookkeeping. */
module Steps {
  import opened Tree
  import opened Rule
  import opened Delivery
  import opened CutLists
  import opened OnePass
  import opened Levels

  /** What the walk keeps, apart from the marks of finished children, and the state it stands for. */
  datatype Books = Books(
    waiting: seq<RowSource>,
    base: nat,
    position: nat,
    total: nat,
    path: seq<Byte>,
    stack: seq<Level>,
    sealed: seq<CutList>,
    now: State)

  /** The books stand for their state, on the way to the parts `goal`. */
  ghost predicate Stands(b: Books, goal: seq<seq<Row>>, budget: nat) {
    && Sound(b.now, budget)
    && Flags(b.stack, b.now)
    && Delivers(b.stack, b.now.levels, budget)
    && Pathed(b.path, b.stack, b.now.levels)
    && Totals(b.total, b.stack, b.now)
    && Places(b.base, b.position, b.stack, b.now)
    && Waits(b.waiting, b.now)
    && Handed(b.sealed, b.now.parts)
    && b.now.parts + Future(b.now, budget) == goal
  }

  lemma StandsHeight(b: Books, goal: seq<seq<Row>>, budget: nat)
    requires Stands(b, goal, budget)
    ensures |b.stack| == |b.now.levels| && Shaped(b.now)
  {
  }

  /** The same directories, read just as far: only sibling runs and marks may differ. */
  ghost predicate SameReading(left: seq<Level>, right: seq<Level>) {
    && |left| == |right|
    && forall k :: 0 <= k < |left| ==> right[k] == WithRun(left[k], right[k])
  }

  function WithRun(l: Level, run: Level): Level {
    l.(split := run.split, runFirst := run.runFirst, runBytes := run.runBytes, completed := run.completed)
  }

  lemma SameReadingTwice(a: seq<Level>, b: seq<Level>, c: seq<Level>)
    requires SameReading(a, b) && SameReading(b, c)
    ensures SameReading(a, c)
  {
    forall k | 0 <= k < |a|
      ensures c[k] == WithRun(a[k], c[k])
    {
      assert b[k] == WithRun(a[k], b[k]) && c[k] == WithRun(b[k], c[k]);
    }
  }

  /** A change of runs and marks, and of finished children, leaves the reading side as it is. */
  lemma SameDelivers(left: seq<Level>, right: seq<Level>, from: seq<Open>, to: seq<Open>, path: seq<Byte>, budget: nat)
    requires Delivers(left, from, budget) && Pathed(path, left, from) && SameReading(left, right)
    requires |from| == |to| && forall k :: 0 <= k < |to| ==> to[k] == from[k].(done := to[k].done)
    ensures Delivers(right, to, budget) && Pathed(path, right, to)
  {
    forall k | 0 <= k < |right|
      ensures LevelOk(right[k], budget) && to[k].rest == Remaining(right[k])
      ensures Join(to[k].path) <= path && right[k].pathLen == |Join(to[k].path)|
    {
      assert right[k] == WithRun(left[k], right[k]);
      assert LevelOk(left[k], budget) && from[k].rest == Remaining(left[k]);
    }
  }

  // ----- sealing

  /** One more cut list was handed out, and it means `rows`. */
  ghost predicate OneSealed(before: seq<CutList>, after: seq<CutList>, rows: seq<Row>) {
    |after| == |before| + 1 && after[..|before|] == before && Means(after[|before|], rows)
  }

  lemma HandedMore(before: seq<CutList>, after: seq<CutList>, parts: seq<seq<Row>>, rows: seq<Row>)
    requires Handed(before, parts) && OneSealed(before, after, rows)
    ensures Handed(after, parts + [rows])
  {
    forall i | 0 <= i < |after|
      ensures Means(after[i], (parts + [rows])[i])
    {
      if i < |before| {
        assert after[i] == after[..|before|][i];
      }
    }
  }

  lemma HandedIsPrefix(sealed: seq<CutList>, parts: seq<seq<Row>>, future: seq<seq<Row>>, goal: seq<seq<Row>>)
    requires Handed(sealed, parts) && parts + future == goal
    ensures HandedPrefix(sealed, goal)
  {
    assert forall i :: 0 <= i < |parts| ==> goal[i] == parts[i];
  }

  /** The carried rows and the open run are the first waiting rows. */
  lemma RunWaits(waiting: seq<RowSource>, s: State)
    requires 1 <= s.measuring <= |s.levels| && Waits(waiting, s)
    ensures Strip(s.carry + RunRows(s)) <= Flat(waiting)
    ensures |s.carry + RunRows(s)| <= |Flat(waiting)|
    ensures Flat(waiting)[|s.carry + RunRows(s)|..] == Strip(Pre(Inner(s).path, Seen(s.levels, s.measuring - 1)))
    ensures |s.carry + RunRows(s)| == |s.carry| + CountAll(s.run)
  {
    hide Pre, Seen, Flat, SourcesOk;
    var run, seen := RunRows(s), Pre(Inner(s).path, Seen(s.levels, s.measuring - 1));
    PrePlus(Inner(s).path, s.run, Seen(s.levels, s.measuring - 1));
    PreLength(Inner(s).path, s.run);
    PlusAssociates(s.carry, run, seen);
    StripPlus(s.carry + run, seen);
    Halves(Strip(s.carry + run), Strip(seen));
  }

  lemma Halves<T>(a: seq<T>, b: seq<T>)
    ensures a <= a + b && (a + b)[|a|..] == b
  {
  }

  // ----- a finished child joins the run

  lemma AbsorbedWaits(s: State, waiting: seq<RowSource>, after: seq<RowSource>, budget: nat)
    requires Shaped(s) && Inner(s).done != [] && Waits(waiting, s)
    requires SourcesOk(after)
    requires var to := Absorbed(s, budget);
             Flat(after) == if to.parts == s.parts then Flat(waiting)
                            else Strip(Pre(Inner(s).path, Seen(s.levels, s.measuring - 1)))
    ensures Waits(after, Absorbed(s, budget))
  {
    var to := Absorbed(s, budget);
    AbsorbedSeen(s, budget);
    if to.parts == s.parts {
      PlusAssociates(s.run, [Inner(s).done[0]], Seen(to.levels, s.measuring - 1));
    }
  }

  lemma AbsorbedPlaces(s: State, base: nat, after: nat, position: nat, stack: seq<Level>, right: seq<Level>, budget: nat)
    requires Shaped(s) && Inner(s).done != [] && Places(base, position, stack, s)
    requires var to := Absorbed(s, budget);
             var m, open := s.measuring, stack[s.measuring - 1];
             var at := open.runFirst + CountAll(s.run);
             if to.parts == s.parts
             then after == base && right == stack[m - 1 := open.(runBytes := open.runBytes + Size(Inner(s).done[0]))]
             else after == at && right == stack[m - 1 := open.(runFirst := at, runBytes := Size(Inner(s).done[0]))]
    ensures Places(after, position, right, Absorbed(s, budget))
  {
    var to := Absorbed(s, budget);
    var child := Inner(s).done[0];
    AbsorbedSeen(s, budget);
    CountPlus([child], Seen(to.levels, s.measuring - 1));
    PreFirst([], child, []);
    CountPlus(s.run, [child]);
    SizePlus(s.run, [child]);
  }

  lemma AbsorbedTotals(s: State, total: nat, stack: seq<Level>, right: seq<Level>, budget: nat)
    requires Shaped(s) && Inner(s).done != [] && Totals(total, stack, s) && SameReading(stack, right)
    ensures Totals(total, right, Absorbed(s, budget))
  {
    AbsorbedSeen(s, budget);
    assert forall k :: 0 <= k < |stack| ==> right[k] == WithRun(stack[k], right[k]);
  }

  lemma RunUpdate(stack: seq<Level>, level: nat, run: Level)
    requires level < |stack| && run == WithRun(stack[level], run)
    ensures SameReading(stack, stack[level := run])
  {
  }

  /** The child went into the run without closing it. */
  lemma JoinedRun(b: Books, c: Books, goal: seq<seq<Row>>, budget: nat)
    requires Stands(b, goal, budget) && Inner(b.now).done != []
    requires Absorbed(b.now, budget).parts == b.now.parts
    requires var level, open := b.now.measuring - 1, b.stack[b.now.measuring - 1];
             c == b.(stack := b.stack[level := open.(runBytes := open.runBytes + Size(Inner(b.now).done[0]))],
                     now := Absorbed(b.now, budget))
    ensures Stands(c, goal, budget)
  {
    hide Future, Delivers, Pathed, Totals, Places, Handed, SameReading, Kinds, RunFits, Flat, SourceOk;
    var level := b.now.measuring - 1;
    AbsorbedKeeps(b.now, budget);
    AbsorbedSound(b.now, budget);
    RunUpdate(b.stack, level, c.stack[level]);
    AbsorbedPlaces(b.now, b.base, c.base, b.position, b.stack, c.stack, budget);
    AbsorbedTotals(b.now, b.total, b.stack, c.stack, budget);
    AbsorbedWaits(b.now, b.waiting, c.waiting, budget);
    SameDelivers(b.stack, c.stack, b.now.levels, c.now.levels, b.path, budget);
  }

  /** What a seal of the carried rows and the open run needs. */
  lemma SealReady(b: Books, goal: seq<seq<Row>>, budget: nat)
    requires Stands(b, goal, budget)
    ensures var rows := b.now.carry + RunRows(b.now);
            && SourcesOk(b.waiting)
            && |rows| <= |Flat(b.waiting)|
            && Strip(rows) <= Flat(b.waiting)
            && Flat(b.waiting)[|rows|..] == Strip(Pre(Inner(b.now).path, Seen(b.now.levels, b.now.measuring - 1)))
            && b.base + |rows| == b.stack[b.now.measuring - 1].runFirst + CountAll(b.now.run)
            && (rows != [] ==>
                  && |rows[0].dir| < |b.stack| && b.now.levels[|rows[0].dir|].path == rows[0].dir
                  && Linked(rows[0].dir, rows))
  {
    hide Future, Delivers, Pathed, Totals, Handed, Pre, Seen, Linked, Kinds, RunFits, AllFit, Flat, Strip, SourceOk;
    RunWaits(b.waiting, b.now);
    SealedRows(b.now, budget);
  }

  /** What adding a finished child to the run needs to know, and whether that closes the run. */
  lemma AbsorbReady(b: Books, goal: seq<seq<Row>>, budget: nat)
    requires Stands(b, goal, budget) && Inner(b.now).done != []
    ensures Shaped(b.now) && |b.stack| == |b.now.levels| && Pathed(b.path, b.stack, b.now.levels)
    ensures !Oversize(Inner(b.now).done[0], budget) && Kinds(Inner(b.now).done)
    ensures var rows, to, open := b.now.carry + RunRows(b.now), Absorbed(b.now, budget), b.stack[b.now.measuring - 1];
            var at := open.runFirst + CountAll(b.now.run);
            && to.parts == b.now.parts + (if open.runFirst < at && open.runBytes + Size(Inner(b.now).done[0]) > budget then [rows] else [])
            && to.measuring == b.now.measuring
            && 1 <= b.now.measuring <= |b.now.levels|
            && (open.runFirst < at ==> rows != [])
  {
    hide Future, Delivers, Totals, Handed, Pre, Seen, Kinds, RunFits, Carries, Pathed, Waits;
    PreLength(Inner(b.now).path, b.now.run);
    RunHolds(b.now.run);
    assert b.now.parts + [] == b.now.parts;
  }

  lemma RunHolds(run: seq<Node>)
    ensures run == [] <==> CountAll(run) == 0
  {
  }

  /** The run was handed out, and the sink took no more. */
  lemma ClosedPrefix(b: Books, sealed: seq<CutList>, goal: seq<seq<Row>>, budget: nat)
    requires Stands(b, goal, budget) && Inner(b.now).done != []
    requires Absorbed(b.now, budget).parts == b.now.parts + [b.now.carry + RunRows(b.now)]
    requires OneSealed(b.sealed, sealed, b.now.carry + RunRows(b.now))
    ensures HandedPrefix(sealed, goal)
  {
    hide Delivers, Pathed, Totals, Places, Waits, Handed, HandedPrefix, OneSealed, Kinds, RunFits, Absorbed, RunRows, Carries;
    AbsorbedKeeps(b.now, budget);
    HandedMore(b.sealed, sealed, b.now.parts, b.now.carry + RunRows(b.now));
    HandedIsPrefix(sealed, Absorbed(b.now, budget).parts, Future(Absorbed(b.now, budget), budget), goal);
  }

  /** The run was closed and sealed before the child, which starts the next one. */
  lemma ClosedRun(b: Books, c: Books, goal: seq<seq<Row>>, budget: nat)
    requires Stands(b, goal, budget) && Inner(b.now).done != []
    requires Absorbed(b.now, budget).parts == b.now.parts + [b.now.carry + RunRows(b.now)]
    requires SourcesOk(c.waiting) && OneSealed(b.sealed, c.sealed, b.now.carry + RunRows(b.now))
    requires Flat(c.waiting) == Strip(Pre(Inner(b.now).path, Seen(b.now.levels, b.now.measuring - 1)))
    requires var level, open := b.now.measuring - 1, b.stack[b.now.measuring - 1];
             var at := open.runFirst + CountAll(b.now.run);
             c == b.(waiting := c.waiting, base := at, sealed := c.sealed,
                     stack := b.stack[level := open.(runFirst := at, runBytes := Size(Inner(b.now).done[0]))],
                     now := Absorbed(b.now, budget))
    ensures Stands(c, goal, budget)
  {
    hide OneSealed, RunRows, Future, Delivers, Pathed, Totals, Places, Handed, SameReading, Kinds, RunFits, Flat,
         SourceOk, Strip, Pre, Seen;
    var level := b.now.measuring - 1;
    HandedMore(b.sealed, c.sealed, b.now.parts, b.now.carry + RunRows(b.now));
    AbsorbedKeeps(b.now, budget);
    AbsorbedSound(b.now, budget);
    RunUpdate(b.stack, level, c.stack[level]);
    AbsorbedPlaces(b.now, b.base, c.base, b.position, b.stack, c.stack, budget);
    AbsorbedTotals(b.now, b.total, b.stack, c.stack, budget);
    AbsorbedWaits(b.now, b.waiting, c.waiting, budget);
    SameDelivers(b.stack, c.stack, b.now.levels, c.now.levels, b.path, budget);
  }

  // ----- a level is split

  lemma OpenedWaits(s: State, waiting: seq<RowSource>, after: seq<RowSource>)
    requires Shaped(s) && s.measuring < |s.levels| && Inner(s).done == [] && Waits(waiting, s)
    requires SourcesOk(after)
    requires Flat(after) == if s.run == [] then Flat(waiting)
                            else Strip(Pre(Inner(s).path, Seen(s.levels, s.measuring - 1)))
    ensures Waits(after, Opened(s))
  {
    hide Flat, SourcesOk, Strip, WaitingRows, Opened, Pre, Seen;
    OpenedRows(s);
  }

  lemma OpenedRows(s: State)
    requires Shaped(s) && s.measuring < |s.levels| && Inner(s).done == []
    ensures 1 <= Opened(s).measuring <= |Opened(s).levels|
    ensures WaitingRows(Opened(s)) == if s.run == [] then WaitingRows(s) else Pre(Inner(s).path, Seen(s.levels, s.measuring - 1))
  {
    hide SizeAll, CountAll, Seen;
    var m := s.measuring;
    var to := Opened(s);
    SeenOne(s.levels, m - 1);
    PreLength(Inner(s).path, s.run);
    var below := Pre(s.levels[m].path, Seen(s.levels, m));
    assert WaitingRows(to) == to.carry + below by { assert to.run + Seen(to.levels, m) == Seen(to.levels, m); }
    assert [] + [OwnRow(s.levels, m)] + below == [OwnRow(s.levels, m)] + below;
    if s.run == [] {
      assert s.run + Seen(s.levels, m - 1) == Seen(s.levels, m - 1);
      PlusAssociates(s.carry, [OwnRow(s.levels, m)], below);
    }
  }

  /** The stack after level `m` was split: its parent's run is over, its own starts below its row. */
  function SplitStack(stack: seq<Level>, m: nat): seq<Level>
    requires 1 <= m < |stack|
  {
    stack[m - 1 := stack[m - 1].(runFirst := USIZE_MAX, runBytes := 0)]
         [m := stack[m].(split := true, runFirst := stack[m].row + 1, runBytes := 0)]
  }

  /** Level `m` of the stack was split; where the marks lie is left open. */
  ghost predicate SplitAt(stack: seq<Level>, right: seq<Level>, m: nat) {
    && 1 <= m < |stack| == |right|
    && forall k :: 0 <= k < |right| ==> right[k] == SplitStack(stack, m)[k].(completed := right[k].completed)
  }

  lemma NothingCounts(run: seq<Node>)
    ensures CountAll([]) == 0 && SizeAll([]) == 0 && (run == [] <==> CountAll(run) == 0)
  {
  }

  lemma SplitRows(stack: seq<Level>, m: nat, right: seq<Level>)
    requires SplitAt(stack, right, m)
    ensures forall k :: 0 <= k < |right| ==> right[k].row == stack[k].row
    ensures right[m].runFirst == stack[m].row + 1 && right[m].runBytes == 0
  {
  }

  lemma OpenedPlaces(s: State, base: nat, after: nat, position: nat, stack: seq<Level>, right: seq<Level>)
    requires Shaped(s) && Carries(s) && s.measuring < |s.levels| && Inner(s).done == []
    requires Places(base, position, stack, s) && SplitAt(stack, right, s.measuring)
    requires after == if s.run == [] then base else stack[s.measuring].row
    ensures Places(after, position, right, Opened(s))
  {
    hide Seen, Pre, CountAll, SizeAll, SplitStack;
    var m := s.measuring;
    SeenOne(s.levels, m - 1);
    PreLength(Inner(s).path, s.run);
    NothingCounts(s.run);
    SplitRows(stack, m, right);
  }

  lemma SplitReading(stack: seq<Level>, m: nat, right: seq<Level>)
    requires SplitAt(stack, right, m)
    ensures SameReading(stack, right)
  {
  }

  lemma OverBudget(b: Books, goal: seq<seq<Row>>, budget: nat)
    requires Stands(b, goal, budget) && b.now.measuring < |b.now.levels|
    requires b.total - b.stack[b.now.measuring].startTotal > budget
    ensures Own(b.now.levels[b.now.measuring].entry) + SizeAll(Seen(b.now.levels, b.now.measuring)) > budget
    ensures Size(Node(b.now.levels[b.now.measuring].entry, Kids(b.now.levels, b.now.measuring))) > budget
  {
    hide Future, Delivers, Pathed, Places, Waits, Handed, Kinds, RunFits, AllFit, Seen, Kids, SizeAll;
    SeenWithinKids(b.now.levels, b.now.measuring);
  }

  /** The open run of the innermost split level has been handed out, if there was one; nothing else changed. */
  ghost predicate RunClosed(b: Books, c: Books) {
    && 1 <= b.now.measuring < |b.now.levels| && b.now.measuring < |b.stack|
    && SourcesOk(b.waiting) && SourcesOk(c.waiting)
    && Handed(c.sealed, Opened(b.now).parts)
    && Flat(c.waiting) == (if b.now.run == [] then Flat(b.waiting)
                           else Strip(Pre(Inner(b.now).path, Seen(b.now.levels, b.now.measuring - 1))))
    && c == b.(waiting := c.waiting, sealed := c.sealed,
               base := if b.now.run == [] then b.base else b.stack[b.now.measuring].row)
  }

  lemma OpenedStands(b: Books, closed: Books, c: Books, goal: seq<seq<Row>>, budget: nat)
    requires Stands(b, goal, budget) && RunClosed(b, closed) && Inner(b.now).done == []
    requires b.total - b.stack[b.now.measuring].startTotal > budget
    requires c == closed.(stack := c.stack, now := Opened(b.now)) && SplitAt(b.stack, c.stack, b.now.measuring)
    ensures Stands(c, goal, budget)
  {
    hide Future, Delivers, Pathed, Places, Handed, SameReading, Kinds, RunFits, AllFit, Flat, SourceOk, Strip, Pre, Seen, Kids;
    var m := b.now.measuring;
    OverBudget(b, goal, budget);
    OpenedKeeps(b.now, budget);
    OpenedSound(b.now, budget);
    SplitReading(b.stack, m, c.stack);
    OpenedPlaces(b.now, b.base, c.base, b.position, b.stack, c.stack);
    OpenedWaits(b.now, b.waiting, c.waiting);
    SameDelivers(b.stack, c.stack, b.now.levels, c.now.levels, b.path, budget);
  }

  // ----- a child is taken in

  /** `x` comes last in everything the open levels have seen. */
  ghost predicate Grows(s: State, to: State, x: Node)
    requires Shaped(s) && |s.levels| <= |to.levels|
  {
    && to.measuring == s.measuring && to.carry == s.carry && to.run == s.run && to.parts == s.parts
    && (forall k :: 0 <= k < |s.levels| ==>
          && to.levels[k].path == s.levels[k].path && to.levels[k].entry == s.levels[k].entry
          && SizeAll(Seen(to.levels, k)) == SizeAll(Seen(s.levels, k)) + Size(x)
          && CountAll(Seen(to.levels, k)) == CountAll(Seen(s.levels, k)) + Count(x))
    && WaitingRows(to) == WaitingRows(s) + Pre(Top(s).path, [x])
  }

  lemma GrowsAt(s: State, to: State, x: Node, k: nat)
    requires Shaped(s) && |s.levels| <= |to.levels| && k < |s.levels|
    requires forall j :: 0 <= j < |s.levels| - 1 ==> s.levels[j] == to.levels[j]
    requires to.levels[|s.levels| - 1].path == Top(s).path && to.levels[|s.levels| - 1].entry == Top(s).entry
    requires Seen(to.levels, |s.levels| - 1) == Seen(s.levels, |s.levels| - 1) + [x]
    ensures to.levels[k].path == s.levels[k].path && to.levels[k].entry == s.levels[k].entry
    ensures SizeAll(Seen(to.levels, k)) == SizeAll(Seen(s.levels, k)) + Size(x)
    ensures CountAll(Seen(to.levels, k)) == CountAll(Seen(s.levels, k)) + Count(x)
    ensures Pre(s.levels[k].path, Seen(to.levels, k)) == Pre(s.levels[k].path, Seen(s.levels, k)) + Pre(Top(s).path, [x])
  {
    hide Pre, SizeAll, CountAll, Size, Count, Seen;
    SeenGrows(s.levels, to.levels, k, x);
  }

  lemma GrowsFrom(s: State, to: State, x: Node)
    requires Shaped(s) && |s.levels| <= |to.levels|
    requires to.measuring == s.measuring && to.carry == s.carry && to.run == s.run && to.parts == s.parts
    requires forall j :: 0 <= j < |s.levels| - 1 ==> s.levels[j] == to.levels[j]
    requires to.levels[|s.levels| - 1].path == Top(s).path && to.levels[|s.levels| - 1].entry == Top(s).entry
    requires Seen(to.levels, |s.levels| - 1) == Seen(s.levels, |s.levels| - 1) + [x]
    ensures Grows(s, to, x)
  {
    hide Pre, SizeAll, CountAll, Size, Count, Seen, WaitingRows;
    forall k | 0 <= k < |s.levels|
      ensures to.levels[k].path == s.levels[k].path && to.levels[k].entry == s.levels[k].entry
      ensures SizeAll(Seen(to.levels, k)) == SizeAll(Seen(s.levels, k)) + Size(x)
      ensures CountAll(Seen(to.levels, k)) == CountAll(Seen(s.levels, k)) + Count(x)
    {
      GrowsAt(s, to, x, k);
    }
    GrowsAt(s, to, x, s.measuring - 1);
    WaitingGrows(s, to, Pre(Top(s).path, [x]));
  }

  lemma WaitingGrows(s: State, to: State, more: seq<Row>)
    requires 1 <= s.measuring == to.measuring <= |s.levels| <= |to.levels|
    requires to.carry == s.carry && to.run == s.run && Inner(to).path == Inner(s).path
    requires Pre(Inner(s).path, Seen(to.levels, s.measuring - 1)) == Pre(Inner(s).path, Seen(s.levels, s.measuring - 1)) + more
    ensures WaitingRows(to) == WaitingRows(s) + more
  {
    hide Pre, Seen;
    var dir, before, after := Inner(s).path, Seen(s.levels, s.measuring - 1), Seen(to.levels, s.measuring - 1);
    PrePlus(dir, s.run, before);
    PrePlus(dir, s.run, after);
    PlusAssociates(Pre(dir, s.run), Pre(dir, before), more);
    PlusAssociates(s.carry, Pre(dir, s.run + before), more);
  }

  lemma TakenGrows(s: State)
    requires Shaped(s) && Top(s).rest != []
    ensures Grows(s, Taken(s), Top(s).rest[0])
  {
    var t := |s.levels| - 1;
    var to := Taken(s);
    assert Seen(s.levels, t) == Top(s).done + [] == Top(s).done;
    assert Seen(to.levels, t) == to.levels[t].done + [] == to.levels[t].done;
    GrowsFrom(s, to, Top(s).rest[0]);
  }

  lemma EnteredGrows(s: State)
    requires Shaped(s) && Top(s).rest != []
    ensures Grows(s, Entered(s), Node(Top(s).rest[0].entry, []))
    ensures Seen(Entered(s).levels, |s.levels|) == []
  {
    var t := |s.levels| - 1;
    var to := Entered(s);
    assert Seen(s.levels, t) == Top(s).done + [] == Top(s).done;
    assert Seen(to.levels, t + 1) == [];
    GrowsFrom(s, to, Node(Top(s).rest[0].entry, []));
  }

  /** The next item of level `top` was used up, with a unit if it was a directory. */
  ghost predicate Consumed(l: Level, after: Level, node: Node, budget: nat) {
    && LevelOk(l, budget) && LevelOk(after, budget)
    && after == l.(next := l.next + 1, subdirs := after.subdirs)
    && Remaining(l) == [node] + Remaining(after)
  }

  /** Rows appended and counted for a node that came last. */
  ghost predicate Counted(b: Books, c: Books, x: Node)
    requires b.now.levels != []
  {
    && SourcesOk(b.waiting) && SourcesOk(c.waiting)
    && Flat(c.waiting) == Flat(b.waiting) + Lines(|b.now.levels| - 1, [x])
    && c.position == b.position + Count(x)
    && c.base == b.base
    && c.sealed == b.sealed
  }

  lemma CountedWaits(b: Books, c: Books, x: Node)
    requires Shaped(b.now) && |b.now.levels| <= |c.now.levels| && Grows(b.now, c.now, x)
    requires Waits(b.waiting, b.now) && Counted(b, c, x)
    ensures Waits(c.waiting, c.now)
  {
    hide Flat, SourceOk, Seen, Pre, Lines, CountAll, SizeAll;
    PathLengths(b.now, |b.now.levels| - 1);
    StripPre(Top(b.now).path, [x]);
    StripPlus(WaitingRows(b.now), Pre(Top(b.now).path, [x]));
  }

  /** The next child was taken in at once: a leaf, or a subtree that fits. */
  lemma TakenStands(b: Books, c: Books, x: Node, goal: seq<seq<Row>>, budget: nat)
    requires Stands(b, goal, budget) && Top(b.now).rest != [] && x == Top(b.now).rest[0] && !Oversize(x, budget)
    requires Counted(b, c, x) && c.total == b.total + Size(x) && c.now == Taken(b.now)
    requires |c.stack| == |b.stack|
    requires var top := |b.stack| - 1; Consumed(b.stack[top], c.stack[top], x, budget) && c.stack == b.stack[top := c.stack[top]]
    requires Pathed(c.path, b.stack, b.now.levels)
    ensures Stands(c, goal, budget)
  {
    hide Future, Handed, SameReading, Kinds, RunFits, AllFit, Carries, Flat, SourceOk, Lines, Consumed, Totals, Places, Flags,
         Pathed, Delivers, Waits, Grows, Sound, SourcesOk, Size, Count;
    StandsHeight(b, goal, budget);
    TakenKeeps(b.now, budget);
    TakenSound(b.now, budget);
    TakenGrows(b.now);
    CountedWaits(b, c, x);
    TakenCounts(b, c, x, budget);
    TakenDelivers(b.stack, c.stack, b.now, c.path, budget);
  }

  lemma TakenCounts(b: Books, c: Books, x: Node, budget: nat)
    requires Shaped(b.now) && Top(b.now).rest != [] && x == Top(b.now).rest[0] && c.now == Taken(b.now)
    requires c.total == b.total + Size(x) && c.position == b.position + Count(x) && c.base == b.base
    requires |c.stack| == |b.stack| == |b.now.levels|
    requires var top := |b.stack| - 1; Consumed(b.stack[top], c.stack[top], x, budget) && c.stack == b.stack[top := c.stack[top]]
    requires Flags(b.stack, b.now) && Totals(b.total, b.stack, b.now) && Places(b.base, b.position, b.stack, b.now)
    ensures Flags(c.stack, c.now) && Totals(c.total, c.stack, c.now) && Places(c.base, c.position, c.stack, c.now)
  {
    hide Seen, Pre, WaitingRows, LevelOk, Remaining, Size, SizeAll, Count, CountAll;
    TakenGrows(b.now);
  }

  lemma TakenDelivers(stack: seq<Level>, right: seq<Level>, s: State, path: seq<Byte>, budget: nat)
    requires Delivers(stack, s.levels, budget) && Pathed(path, stack, s.levels) && stack != [] && Top(s).rest != []
    requires |right| == |stack|
    requires var top := |stack| - 1; Consumed(stack[top], right[top], Top(s).rest[0], budget) && right == stack[top := right[top]]
    ensures Delivers(right, Taken(s).levels, budget) && Pathed(path, right, Taken(s).levels)
  {
    hide Decode, DecodeRest, ItemsOk, RestOk, Join;
    var top := |stack| - 1;
    assert Remaining(stack[top])[1..] == Remaining(right[top]);
  }

  // ----- a directory is entered

  lemma EnteredTotals(b: Books, c: Books)
    requires Shaped(b.now) && Top(b.now).rest != [] && c.now == Entered(b.now)
    requires Totals(b.total, b.stack, b.now) && c.total == b.total + Own(Top(b.now).rest[0].entry)
    requires |c.stack| == |b.stack| + 1
    requires forall k :: 0 <= k < |b.stack| ==> c.stack[k].startTotal == b.stack[k].startTotal
    requires c.stack[|b.stack|].startTotal == b.total
    ensures Totals(c.total, c.stack, c.now)
  {
    hide Kids, Seen, Pre, WaitingRows, PathOf;
    EnteredGrows(b.now);
  }

  lemma EnteredPlaces(b: Books, c: Books)
    requires Shaped(b.now) && Top(b.now).rest != [] && c.now == Entered(b.now)
    requires Places(b.base, b.position, b.stack, b.now) && c.base == b.base && c.position == b.position + 1
    requires |c.stack| == |b.stack| + 1
    requires forall k :: 0 <= k < |b.stack| ==>
               c.stack[k].row == b.stack[k].row && c.stack[k].runFirst == b.stack[k].runFirst && c.stack[k].runBytes == b.stack[k].runBytes
    requires c.stack[|b.stack|].row == b.position
    ensures Places(c.base, c.position, c.stack, c.now)
  {
    hide Kids, Seen, Pre, WaitingRows, PathOf;
    EnteredGrows(b.now);
  }

  lemma EnteredDelivers(stack: seq<Level>, right: seq<Level>, s: State, budget: nat)
    requires Delivers(stack, s.levels, budget) && stack != [] && Top(s).rest != []
    requires |right| == |stack| + 1 && right[..|stack| - 1] == stack[..|stack| - 1]
    requires Consumed(stack[|stack| - 1], right[|stack| - 1], Top(s).rest[0], budget)
    requires LevelOk(right[|stack|], budget) && Remaining(right[|stack|]) == Top(s).rest[0].children
    ensures Delivers(right, Entered(s).levels, budget)
  {
    hide Decode, DecodeRest, ItemsOk, RestOk;
    var top := |stack| - 1;
    assert Remaining(stack[top])[1..] == Remaining(right[top]);
    forall k | 0 <= k < |right|
      ensures LevelOk(right[k], budget) && Entered(s).levels[k].rest == Remaining(right[k])
    {
      if k < top {
        assert right[k] == right[..top][k] == stack[..top][k] == stack[k];
      }
    }
  }

  lemma EnteredStands(b: Books, c: Books, goal: seq<seq<Row>>, budget: nat)
    requires Stands(b, goal, budget) && Top(b.now).rest != [] && Top(b.now).rest[0].entry.Directory?
    requires var x := Node(Top(b.now).rest[0].entry, []);
             Counted(b, c, x) && c.total == b.total + Own(x.entry) && c.now == Entered(b.now)
    requires |c.stack| == |b.stack| + 1
    requires var top := |b.stack| - 1;
             && c.stack[..top] == b.stack[..top]
             && Consumed(b.stack[top], c.stack[top], Top(b.now).rest[0], budget)
    requires var below := c.stack[|b.stack|];
             && LevelOk(below, budget) && Remaining(below) == Top(b.now).rest[0].children
             && below.row == b.position && below.startTotal == b.total && !below.split
    requires Pathed(c.path, c.stack, c.now.levels)
    ensures Stands(c, goal, budget)
  {
    hide Future, Handed, SameReading, Kinds, RunFits, AllFit, Flat, SourceOk, Strip, Pre, Seen, Kids, Decode, DecodeRest,
         ItemsOk, RestOk, Join, SizeAll, Lines, Totals, Places, Pathed, Delivers, Grows;
    EnteredKeeps(b.now, budget);
    EnteredSound(b.now, budget);
    EnteredGrows(b.now);
    EnteredRuns(b, c, budget);
    EnteredTotals(b, c);
    EnteredPlaces(b, c);
    EnteredDelivers(b.stack, c.stack, b.now, budget);
    CountedWaits(b, c, Node(Top(b.now).rest[0].entry, []));
  }

  lemma EnteredRuns(b: Books, c: Books, budget: nat)
    requires b.stack != [] && |c.stack| == |b.stack| + 1
    requires var top := |b.stack| - 1; c.stack[..top] == b.stack[..top] && c.stack[top] == b.stack[top].(next := c.stack[top].next, subdirs := c.stack[top].subdirs)
    ensures forall k :: 0 <= k < |b.stack| ==>
              && c.stack[k].row == b.stack[k].row && c.stack[k].runFirst == b.stack[k].runFirst
              && c.stack[k].runBytes == b.stack[k].runBytes && c.stack[k].startTotal == b.stack[k].startTotal
              && c.stack[k].split == b.stack[k].split && c.stack[k].completed == b.stack[k].completed
              && c.stack[k].pathLen == b.stack[k].pathLen
  {
    forall k | 0 <= k < |b.stack| - 1
      ensures c.stack[k] == b.stack[k]
    {
      assert c.stack[..|b.stack| - 1][k] == b.stack[..|b.stack| - 1][k];
    }
  }

  // ----- a directory that fits is finished

  lemma PoppedStands(b: Books, c: Books, goal: seq<seq<Row>>, budget: nat)
    requires Stands(b, goal, budget) && b.now.measuring < |b.now.levels| && Top(b.now).rest == []
    requires Size(Node(Top(b.now).entry, Top(b.now).done)) <= budget
    requires c == b.(stack := b.stack[..|b.stack| - 1], path := c.path, now := Popped(b.now))
    requires Pathed(c.path, c.stack, b.now.levels[..|c.stack|])
    ensures Stands(c, goal, budget)
  {
    hide Future, Handed, SameReading, Kinds, RunFits, AllFit, Flat, SourceOk, Strip, Pre, Seen, Kids, Decode, DecodeRest,
         ItemsOk, RestOk, Join, CountAll, SizeAll, Lines, LevelOk, Remaining;
    PoppedKeeps(b.now, budget);
    PoppedSound(b.now, budget);
    PoppedSeen(b.now);
  }

  // ----- a split directory is finished

  /** Every waiting row has been handed out before the innermost split level is left; nothing else changed. */
  ghost predicate HandedRest(b: Books, c: Books) {
    && |b.now.levels| == b.now.measuring >= 2
    && SourcesOk(c.waiting) && Flat(c.waiting) == []
    && Handed(c.sealed, Left(b.now).parts)
    && c == b.(waiting := c.waiting, base := b.position, sealed := c.sealed)
  }

  lemma LeftStands(b: Books, closed: Books, c: Books, goal: seq<seq<Row>>, budget: nat)
    requires Stands(b, goal, budget) && HandedRest(b, closed)
    requires Inner(b.now).done == [] && Inner(b.now).rest == []
    requires var n := |b.stack|;
             && n >= 2
             && c == closed.(path := c.path, now := Left(b.now),
                             stack := b.stack[..n - 1][n - 2 := b.stack[n - 2].(runFirst := b.position, runBytes := 0)])
    requires Pathed(c.path, b.stack[..|b.stack| - 1], b.now.levels[..|b.stack| - 1])
    ensures Stands(c, goal, budget)
  {
    hide Future, Handed, Sound, Flags, Delivers, Pathed, Totals, Places, Waits, Left, SourcesOk, Flat, Inner, Shaped;
    StandsHeight(b, goal, budget);
    LeftBooks(b, closed, c, goal, budget);
    LeftGoal(b, goal, budget);
    LeftShape(b.now);
    LeftDelivers(b.stack, c.stack, b.now, c.path, budget);
  }

  lemma LeftShape(s: State)
    requires Shaped(s) && |s.levels| == s.measuring >= 2
    ensures Left(s).measuring == s.measuring - 1 == |Left(s).levels| && Inner(Left(s)).done == [] && Inner(s) == Top(s)
    ensures Left(s).levels == s.levels[..|s.levels| - 1]
  {
  }

  lemma LeftGoal(b: Books, goal: seq<seq<Row>>, budget: nat)
    requires Stands(b, goal, budget) && |b.now.levels| == b.now.measuring >= 2
    requires Inner(b.now).done == [] && Inner(b.now).rest == []
    ensures Sound(Left(b.now), budget) && Left(b.now).parts + Future(Left(b.now), budget) == goal
  {
    hide Future, Delivers, Pathed, Totals, Places, Waits, Handed, Kinds, AllFit, RunFits, Pre, Seen, Left;
    LeftKeeps(b.now, budget);
    LeftSound(b.now, budget);
  }

  lemma LeftDelivers(stack: seq<Level>, right: seq<Level>, s: State, path: seq<Byte>, budget: nat)
    requires Delivers(stack, s.levels, budget) && 2 <= |stack| == s.measuring
    requires Pathed(path, stack[..|stack| - 1], s.levels[..|stack| - 1])
    requires var n := |stack|; |right| == n - 1 && right == stack[..n - 1][n - 2 := WithRun(stack[n - 2], right[n - 2])]
    ensures Delivers(right, Left(s).levels, budget) && Pathed(path, right, Left(s).levels)
  {
    hide Join, ItemsOk, RestOk, Decode, DecodeRest;
  }

  /** With every waiting row handed out, the run of the directory above starts at the next row. */
  lemma LeftBooks(b: Books, closed: Books, c: Books, goal: seq<seq<Row>>, budget: nat)
    requires Stands(b, goal, budget) && HandedRest(b, closed) && Inner(b.now).done == []
    requires var n := |b.stack|;
             && n >= 2
             && c == closed.(path := c.path, now := Left(b.now),
                             stack := b.stack[..n - 1][n - 2 := b.stack[n - 2].(runFirst := b.position, runBytes := 0)])
    ensures Flags(c.stack, c.now) && Totals(c.total, c.stack, c.now) && Places(c.base, c.position, c.stack, c.now)
    ensures Waits(c.waiting, c.now) && Handed(c.sealed, c.now.parts)
  {
    hide Future, Handed, Kinds, AllFit, RunFits, Delivers, Pathed, Flat, SourceOk, Pre, SizeAll, CountAll;
    NothingCounts([]);
    NothingRows(c.now);
    SeenTop(c.now.levels);
    SeenTop(b.now.levels);
  }

  lemma NothingRows(s: State)
    requires 1 <= s.measuring == |s.levels| && s.carry == [] && s.run == [] && Inner(s).done == []
    ensures WaitingRows(s) == [] && Strip([]) == []
  {
    assert Seen(s.levels, s.measuring - 1) == [];
  }

  lemma SeenTop(levels: seq<Open>)
    requires levels != []
    ensures Seen(levels, |levels| - 1) == levels[|levels| - 1].done
  {
    assert levels[|levels| - 1].done + [] == levels[|levels| - 1].done;
  }

  // ----- the path text and the scans alone

  lemma ReadStands(b: Books, c: Books, goal: seq<seq<Row>>, budget: nat)
    requires Stands(b, goal, budget) && c == b.(path := c.path, stack := c.stack)
    requires |c.stack| == |b.stack| && Delivers(c.stack, b.now.levels, budget) && Pathed(c.path, b.stack, b.now.levels)
    requires forall k :: 0 <= k < |b.stack| ==>
               c.stack[k] == b.stack[k].(scanned := c.stack[k].scanned, next := c.stack[k].next, subdirs := c.stack[k].subdirs, rest := c.stack[k].rest)
    ensures Stands(c, goal, budget)
  {
    hide Carries, Kinds, AllFit, RunFits, Future, Delivers, Waits, Handed, Join, Seen, SizeAll, CountAll;
  }
}
