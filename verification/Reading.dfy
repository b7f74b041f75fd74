/** What is left to read in the open levels: it shrinks with every step, and the walk misses none of it. */
module Reading {
  import opened Tree
  import opened Delivery
  import opened OnePass
  import opened Levels
  import opened Steps

  function Ahead(l: Level): seq<Item> {
    if LevelRange(l) then Unvisited(l) else []
  }

  /** How much an open level still has to read. */
  function LevelWork(l: Level): nat {
    1 + |Ahead(l)| + UnitsWork(l.subdirs) + RestWork(l.rest)
  }

  function Work(stack: seq<Level>): nat {
    if stack == [] then 0 else Work(stack[..|stack| - 1]) + LevelWork(stack[|stack| - 1])
  }

  /** How many items of an open level are still to be visited, and below it. */
  function LevelVisits(l: Level): nat {
    |Ahead(l)| + UnitsVisits(l.subdirs) + RestVisits(l.rest)
  }

  function Visits(stack: seq<Level>): nat {
    if stack == [] then 0 else Visits(stack[..|stack| - 1]) + LevelVisits(stack[|stack| - 1])
  }

  /** Nothing that is left to read in a level failed to be read. */
  predicate CleanLevel(l: Level) {
    NoneFailed(Ahead(l)) && CleanUnits(l.subdirs) && CleanRest(l.rest)
  }

  predicate Clean(stack: seq<Level>) {
    forall k :: 0 <= k < |stack| ==> CleanLevel(stack[k])
  }

  predicate WalkedStack(stack: seq<Level>) {
    forall k :: 0 <= k < |stack| ==> WalkedAll(stack[k].subdirs) && WalkedRest(stack[k].rest)
  }

  lemma WalkedSame(left: seq<Level>, right: seq<Level>)
    requires SameReading(left, right) && WalkedStack(left)
    ensures WalkedStack(right)
  {
    hide WalkedAll, WalkedRest;
    forall k | 0 <= k < |right|
      ensures WalkedAll(right[k].subdirs) && WalkedRest(right[k].rest)
    {
      assert right[k] == WithRun(left[k], right[k]);
    }
  }

  lemma WalkedTop(stack: seq<Level>, l: Level)
    requires stack != [] && WalkedStack(stack) && WalkedAll(l.subdirs) && WalkedRest(l.rest)
    ensures WalkedStack(stack[|stack| - 1 := l])
  {
  }

  /** The top level gives up its next directory, or its next scan, or nothing. */
  lemma WalkedOn(stack: seq<Level>)
    requires stack != [] && WalkedStack(stack)
    ensures WalkedStack(stack[..|stack| - 1])
    ensures var l := stack[|stack| - 1];
            && WalkedAll(l.subdirs) && WalkedRest(l.rest)
            && (l.subdirs != [] ==> Walked(l.subdirs[0]) && WalkedAll(l.subdirs[1..]))
            && (l.rest != [] ==> WalkedAll(l.rest[0].subdirs) && WalkedRest(l.rest[1..]))
  {
  }

  lemma WalkedPush(stack: seq<Level>, l: Level)
    requires WalkedStack(stack) && WalkedAll(l.subdirs) && WalkedRest(l.rest)
    ensures WalkedStack(stack + [l])
  {
  }

  lemma {:induction false} WorkSame(left: seq<Level>, right: seq<Level>)
    requires SameReading(left, right)
    ensures Work(left) == Work(right) && Visits(left) == Visits(right) && (Clean(left) <==> Clean(right))
    decreases |left|
  {
    hide UnitsWork, RestWork, UnitsVisits, RestVisits, NoneFailed, CleanUnits, CleanRest;
    if left != [] {
      var top := |left| - 1;
      assert right[top] == WithRun(left[top], right[top]);
      WorkSame(left[..top], right[..top]);
      assert Clean(left) <==> Clean(left[..top]) && CleanLevel(left[top]) by { CleanTop(left); }
      assert Clean(right) <==> Clean(right[..top]) && CleanLevel(right[top]) by { CleanTop(right); }
    }
  }

  lemma CleanTop(stack: seq<Level>)
    requires stack != []
    ensures Clean(stack) <==> Clean(stack[..|stack| - 1]) && CleanLevel(stack[|stack| - 1])
  {
    hide CleanLevel;
    var top := |stack| - 1;
    assert forall k :: 0 <= k < top ==> stack[..top][k] == stack[k];
  }

  /** A level on top of others. */
  lemma WorkPush(stack: seq<Level>, l: Level)
    ensures Work(stack + [l]) == Work(stack) + LevelWork(l)
    ensures Visits(stack + [l]) == Visits(stack) + LevelVisits(l)
    ensures Clean(stack + [l]) <==> Clean(stack) && CleanLevel(l)
  {
    hide LevelWork, LevelVisits, CleanLevel;
    assert (stack + [l])[..|stack|] == stack;
    CleanTop(stack + [l]);
  }

  /** A level as it is after its next item, with the units of `subdirs` left. */
  function After(l: Level, subdirs: seq<Unit>): Level {
    l.(next := l.next + 1, subdirs := subdirs)
  }

  /** An item that is no directory is used up alone. */
  lemma UsesItem(l: Level, budget: nat)
    requires LevelOk(l, budget) && l.next < l.scanned.end && !IsDirectory(Unvisited(l)[0])
    ensures LevelOk(After(l, l.subdirs), budget)
    ensures Remaining(l) == Single(Unvisited(l)[0]) + Remaining(After(l, l.subdirs))
    ensures LevelWork(After(l, l.subdirs)) < LevelWork(l) && LevelVisits(After(l, l.subdirs)) + 1 == LevelVisits(l)
    ensures CleanLevel(l) <==> CleanLevel(After(l, l.subdirs)) && !Unvisited(l)[0].Failed?
  {
    hide UnitsWork, RestWork, UnitsVisits, RestVisits, CleanUnits, CleanRest, RestOk, DecodeRest;
    var items, later := Unvisited(l), Unvisited(After(l, l.subdirs));
    assert items[1..] == later;
    PlusAssociates(Single(items[0]), Decode(later, l.subdirs), DecodeRest(l.rest));
    FailedTail(items);
  }

  lemma FailedTail(items: seq<Item>)
    requires items != []
    ensures NoneFailed(items) <==> !items[0].Failed? && NoneFailed(items[1..])
  {
    assert forall i :: 0 <= i < |items| - 1 ==> items[1..][i] == items[i + 1];
  }

  /** A directory is used up with its unit. */
  lemma UsesDirectory(l: Level, budget: nat)
    requires LevelOk(l, budget) && l.next < l.scanned.end && IsDirectory(Unvisited(l)[0])
    ensures l.subdirs != [] && UnitOk(l.subdirs[0], budget)
    ensures l.subdirs[0].Whole? ==> Own(Unvisited(l)[0].entry) + l.subdirs[0].bytes <= budget
    ensures LevelOk(After(l, l.subdirs[1..]), budget)
    ensures Remaining(l) == [Node(Unvisited(l)[0].entry, Children(l.subdirs[0]))] + Remaining(After(l, l.subdirs[1..]))
    ensures LevelWork(After(l, l.subdirs[1..])) + UnitWork(l.subdirs[0]) < LevelWork(l)
    ensures LevelVisits(After(l, l.subdirs[1..])) + 1 + UnitVisits(l.subdirs[0]) == LevelVisits(l)
    ensures CleanLevel(l) <==> CleanUnit(l.subdirs[0]) && CleanLevel(After(l, l.subdirs[1..]))
  {
    hide UnitWork, RestWork, UnitVisits, RestVisits, CleanUnit, CleanRest, RestOk, DecodeRest, UnitOk, Children;
    var items, later := Unvisited(l), Unvisited(After(l, l.subdirs[1..]));
    assert items[1..] == later;
    PlusAssociates([Node(items[0].entry, Children(l.subdirs[0]))], Decode(later, l.subdirs[1..]), DecodeRest(l.rest));
    FailedTail(items);
  }

  /** The later scan of a large directory takes the place of the one used up. */
  function Next(l: Level, scanned: Scanned, subdirs: seq<Unit>): Level
    requires l.rest != []
  {
    l.(scanned := scanned, next := scanned.start, subdirs := subdirs, rest := l.rest[1..])
  }

  lemma ReadsOn(l: Level, budget: nat)
    requires LevelOk(l, budget) && l.next == l.scanned.end && l.rest != []
    ensures l.rest[0].Dir?
    ensures var to := Next(l, l.rest[0].scanned, l.rest[0].subdirs);
            && LevelOk(to, budget) && Remaining(to) == Remaining(l)
            && LevelWork(to) < LevelWork(l) && LevelVisits(to) == LevelVisits(l) && (CleanLevel(to) <==> CleanLevel(l))
  {
    hide UnitWork, UnitVisits, CleanUnit, UnitOk, Children;
    var to := Next(l, l.rest[0].scanned, l.rest[0].subdirs);
    assert Unvisited(l) == [] && l.subdirs == [];
    assert Unvisited(to) == ItemsOf(l.rest[0].scanned);
    assert [] + DecodeRest(l.rest) == DecodeRest(l.rest);
  }

  /** A level for a unit just taken. */
  function Fresh(unit: Unit, pathLen: nat, row: nat, total: nat, split: bool, completed: nat): Level
    requires unit.Dir?
  {
    Level(unit.scanned, unit.scanned.start, unit.subdirs, unit.rest, pathLen, row, total, split, 0, 0, completed)
  }

  lemma FreshLevel(unit: Unit, pathLen: nat, row: nat, total: nat, split: bool, completed: nat, budget: nat)
    requires unit.Dir? && UnitOk(unit, budget)
    ensures var l := Fresh(unit, pathLen, row, total, split, completed);
            && LevelOk(l, budget) && Remaining(l) == Children(unit)
            && LevelWork(l) == UnitWork(unit) && LevelVisits(l) == UnitVisits(unit)
            && (CleanUnit(unit) <==> CleanLevel(l) && !unit.scanned.unreadable)
  {
    hide UnitsWork, RestWork, UnitsVisits, RestVisits, CleanUnits, CleanRest, RestOk, ItemsOk, DecodeRest, Decode;
    var l := Fresh(unit, pathLen, row, total, split, completed);
    assert Unvisited(l) == ItemsOf(unit.scanned);
  }

  /** The top level replaced by one with less to read. */
  lemma WorkTop(stack: seq<Level>, l: Level)
    requires stack != []
    ensures var top := |stack| - 1;
            && Work(stack[top := l]) == Work(stack) - LevelWork(stack[top]) + LevelWork(l)
            && Work(stack) >= LevelWork(stack[top])
            && Visits(stack[top := l]) == Visits(stack) - LevelVisits(stack[top]) + LevelVisits(l)
            && Visits(stack) >= LevelVisits(stack[top])
            && (Clean(stack[top := l]) <==> Clean(stack[..top]) && CleanLevel(l))
            && (Clean(stack) <==> Clean(stack[..top]) && CleanLevel(stack[top]))
  {
    hide LevelWork, LevelVisits, CleanLevel;
    var top := |stack| - 1;
    assert stack[top := l] == stack[..top] + [l];
    WorkPush(stack[..top], l);
    CleanTop(stack);
  }

  /** The next item of the top level. */
  function NextItem(stack: seq<Level>): Item
    requires stack != [] && var l := stack[|stack| - 1]; l.next < |l.scanned.rows.items|
  {
    var l := stack[|stack| - 1];
    l.scanned.rows.items[l.next]
  }

  ghost predicate HasNext(stack: seq<Level>) {
    stack != [] && var l := stack[|stack| - 1]; LevelRange(l) && l.next < l.scanned.end
  }

  /** The next item of the top level is a file or a symlink: what it leaves. */
  lemma LeafAhead(stack: seq<Level>, levels: seq<Open>, budget: nat)
    requires Delivers(stack, levels, budget) && HasNext(stack) && NextItem(stack).Recorded? && !IsDirectory(NextItem(stack))
    ensures var top := |stack| - 1;
            var after, x := stack[top].(next := stack[top].next + 1), Node(NextItem(stack).entry, []);
            && levels[top].rest != [] && levels[top].rest[0] == x
            && Consumed(stack[top], after, x, budget)
            && Work(stack[top := after]) < Work(stack) && Visits(stack[top := after]) + 1 == Visits(stack)
            && (Clean(stack[top := after]) <==> Clean(stack))
  {
    hide LevelWork, LevelVisits, CleanLevel, ItemsOk, RestOk, Decode, DecodeRest;
    var l := stack[|stack| - 1];
    assert LevelOk(l, budget) && Unvisited(l)[0] == NextItem(stack);
    UsesItem(l, budget);
    WorkTop(stack, After(l, l.subdirs));
  }

  /** The next item of the top level is a directory: its unit, and what it leaves. */
  lemma DirectoryAhead(stack: seq<Level>, levels: seq<Open>, budget: nat)
    requires Delivers(stack, levels, budget) && HasNext(stack) && IsDirectory(NextItem(stack))
    ensures stack[|stack| - 1].subdirs != []
    ensures var top := |stack| - 1;
            var unit := stack[top].subdirs[0];
            var after, x := stack[top].(next := stack[top].next + 1, subdirs := stack[top].subdirs[1..]),
                            Node(NextItem(stack).entry, Children(unit));
            && UnitOk(unit, budget)
            && (unit.Whole? ==> Own(x.entry) + unit.bytes <= budget)
            && levels[top].rest != [] && levels[top].rest[0] == x
            && Consumed(stack[top], after, x, budget)
            && Work(stack[top := after]) + UnitWork(unit) < Work(stack)
            && Visits(stack[top := after]) + 1 + UnitVisits(unit) == Visits(stack)
            && (Clean(stack) <==> Clean(stack[top := after]) && CleanUnit(unit))
  {
    hide LevelWork, LevelVisits, CleanLevel, ItemsOk, RestOk, Decode, DecodeRest, UnitOk, UnitWork, UnitVisits, CleanUnit,
         Children;
    var l := stack[|stack| - 1];
    assert LevelOk(l, budget) && Unvisited(l)[0] == NextItem(stack);
    UsesDirectory(l, budget);
    WorkTop(stack, After(l, l.subdirs[1..]));
  }

  // ----- the path text

  lemma {:induction false} JoinChain(levels: seq<Open>, k: nat, t: nat)
    requires k <= t < |levels|
    requires forall j :: 1 <= j < |levels| ==> levels[j].path == levels[j - 1].path + [levels[j].entry.name]
    ensures Join(levels[k].path) <= Join(levels[t].path)
    decreases t - k
  {
    hide Join, JoinTo;
    if k < t {
      JoinMore(levels[k].path, levels[k + 1].entry.name);
      JoinChain(levels, k + 1, t);
    }
  }

  /** The path text cut back to a level and led on by a name is right for that level and those below. */
  lemma PathDown(path: seq<Byte>, stack: seq<Level>, levels: seq<Open>, name: Name)
    requires Pathed(path, stack, levels) && stack != []
    requires forall j :: 1 <= j < |levels| ==> levels[j].path == levels[j - 1].path + [levels[j].entry.name]
    ensures var top := |stack| - 1;
            && stack[top].pathLen <= |path|
            && Join(levels[top].path + [name]) == JoinTo(path[..stack[top].pathLen], name)
            && Pathed(JoinTo(path[..stack[top].pathLen], name), stack, levels)
  {
    hide Join;
    var top := |stack| - 1;
    var parent := Join(levels[top].path);
    JoinMore(levels[top].path, name);
    assert parent == path[..stack[top].pathLen];
    forall k | 0 <= k < |stack|
      ensures Join(levels[k].path) <= JoinTo(parent, name)
    {
      JoinChain(levels, k, top);
    }
  }

  /** The path text cut back to a level still serves that level and those below. */
  lemma PathUp(path: seq<Byte>, stack: seq<Level>, levels: seq<Open>, t: nat)
    requires Pathed(path, stack, levels) && t < |stack|
    requires forall j :: 1 <= j < |levels| ==> levels[j].path == levels[j - 1].path + [levels[j].entry.name]
    ensures stack[t].pathLen <= |path|
    ensures Pathed(path[..stack[t].pathLen], stack[..t + 1], levels[..t + 1])
  {
    hide Join;
    assert path[..stack[t].pathLen] == Join(levels[t].path);
    forall k | 0 <= k < t + 1
      ensures Join(levels[k].path) <= Join(levels[t].path)
    {
      JoinChain(levels, k, t);
    }
  }

  /** A level read to its end. */
  ghost predicate UsedUp(l: Level) {
    LevelRange(l) && l.next == l.scanned.end
  }

  /** The later scan of the directory on top holds the children still to come. */
  lemma RestAhead(stack: seq<Level>, levels: seq<Open>, budget: nat)
    requires Delivers(stack, levels, budget) && stack != [] && UsedUp(stack[|stack| - 1]) && stack[|stack| - 1].rest != []
    ensures var top := |stack| - 1;
            && stack[top].rest[0].Dir?
            && var to := stack[top := Next(stack[top], stack[top].rest[0].scanned, stack[top].rest[0].subdirs)];
               Delivers(to, levels, budget) && Work(to) < Work(stack) && Visits(to) == Visits(stack)
               && (Clean(to) <==> Clean(stack))
  {
    hide LevelWork, LevelVisits, CleanLevel, ItemsOk, RestOk, Decode, DecodeRest;
    var top := |stack| - 1;
    var l := stack[top];
    assert LevelOk(l, budget);
    ReadsOn(l, budget);
    WorkTop(stack, Next(l, l.rest[0].scanned, l.rest[0].subdirs));
  }

  /** Nothing comes after a level read to its end. */
  lemma NothingAhead(stack: seq<Level>, levels: seq<Open>, budget: nat)
    requires Delivers(stack, levels, budget) && stack != [] && UsedUp(stack[|stack| - 1]) && stack[|stack| - 1].rest == []
    ensures levels[|stack| - 1].rest == []
    ensures Work(stack[..|stack| - 1]) < Work(stack) && Visits(stack[..|stack| - 1]) == Visits(stack)
    ensures Clean(stack[..|stack| - 1]) <==> Clean(stack)
  {
    hide LevelOk, LevelWork, LevelVisits, CleanLevel, Remaining;
    var l := stack[|stack| - 1];
    assert LevelOk(l, budget) && levels[|stack| - 1].rest == Remaining(l);
    NothingIn(l, budget);
    CleanTop(stack);
  }

  /** A level read to its end, with no scan to follow. */
  lemma NothingIn(l: Level, budget: nat)
    requires LevelOk(l, budget) && UsedUp(l) && l.rest == []
    ensures Remaining(l) == [] && LevelWork(l) == 1 && LevelVisits(l) == 0 && CleanLevel(l)
  {
    assert Unvisited(l) == [] && l.subdirs == [];
  }

  /** While there is an item to visit, one is counted. */
  lemma HasVisits(stack: seq<Level>)
    requires HasNext(stack)
    ensures Visits(stack) > 0
  {
    var l := stack[|stack| - 1];
    assert |Ahead(l)| > 0;
  }
}
