/**
 * The most that waits between two steps of a walk that reads every directory scan by scan, as a recursion over the
 * tree; and that each step of the walk keeps it.
 */
module Peaks {
  import opened Tree
  import opened Rule
  import opened OnePass

  // ----- the recursion

  /** How much of some rows, taken from the first on, fits the budget. */
  function Fitting(rows: seq<Row>, budget: nat): nat {
    if rows == [] || Own(rows[0].entry) > budget then 0
    else Own(rows[0].entry) + Fitting(rows[1..], budget - Own(rows[0].entry))
  }

  /**
   * The most that waits while `nodes` are cut, with carried rows of `carry` bytes and an open run of `run` bytes before
   * them. A directory that fits waits as a whole on top; one that does not is measured as far as it fits, and then its
   * own row is carried into its contents.
   */
  function PeakFrom(nodes: seq<Node>, budget: nat, carry: nat, run: nat): nat
    decreases nodes
  {
    Max(carry + run,
        if nodes == [] then 0
        else if Oversize(nodes[0], budget) then
          Max(carry + run + Fitting(Pre([], [nodes[0]]), budget),
              Max(PeakFrom(nodes[0].children, budget, Carried(carry, run) + Own(nodes[0].entry), 0),
                  PeakFrom(nodes[1..], budget, 0, 0)))
        else
          Max(if nodes[0].entry.Directory? then carry + run + Size(nodes[0]) else 0,
              if Closes(run, Size(nodes[0]), budget) then PeakFrom(nodes[1..], budget, 0, Size(nodes[0]))
              else PeakFrom(nodes[1..], budget, carry, run + Size(nodes[0]))))
  }

  /** What is still carried once the run is closed, if it is open. */
  function Carried(carry: nat, run: nat): nat {
    if run > 0 then 0 else carry
  }

  predicate Closes(run: nat, size: nat, budget: nat) {
    run > 0 && run + size > budget
  }

  function Peak(tree: seq<Node>, budget: nat): nat {
    PeakFrom(tree, budget, 0, 0)
  }

  // ----- the same, seen from a state of the walk

  /** The most that waits behind level `k`, whose parent and those around it are split. */
  function Outside(levels: seq<Open>, k: nat, budget: nat): nat
    requires 1 <= k <= |levels|
  {
    if k == 1 then 0 else Max(PeakFrom(levels[k - 2].rest, budget, 0, 0), Outside(levels, k - 1, budget))
  }

  /** The most that waits from this state on, and while what is open was read. */
  function Foreseen(s: State, budget: nat): nat
    requires 1 <= s.measuring <= |s.levels|
  {
    Max(PeakFrom(Kids(s.levels, s.measuring - 1), budget, Bytes(s.carry), SizeAll(s.run)),
        Outside(s.levels, s.measuring, budget))
  }

  /** What waits now. */
  function Held(s: State): nat
    requires 1 <= s.measuring <= |s.levels|
  {
    Bytes(s.carry) + SizeAll(s.run) + SizeAll(Seen(s.levels, s.measuring - 1))
  }

  /** The row that came last, if it came by itself and is not in the run yet. */
  function Tail(s: State): nat
    requires 1 <= s.measuring <= |s.levels|
  {
    var done := Top(s).done;
    if done == [] then
      if s.measuring < |s.levels| then Own(Top(s).entry) else 0
    else LeafSize(done[|done| - 1])
  }

  function LeafSize(node: Node): nat {
    if node.entry.Directory? || node.children != [] then 0 else Own(node.entry)
  }

  /** All but the row that came last was counted, or that row is in the run and nothing is left to do. */
  ghost predicate Late(s: State, most: nat)
    requires 1 <= s.measuring <= |s.levels|
  {
    Held(s) <= most + Tail(s) || (s.measuring == |s.levels| && Inner(s).done == [])
  }

  /** At most `most` was seen to wait so far, on the way to `peak`; all of that is reached if nothing came as a whole. */
  ghost predicate Peaked(most: nat, walked: bool, peak: nat, s: State, budget: nat)
    requires 1 <= s.measuring <= |s.levels|
  {
    && Max(most, Foreseen(s, budget)) <= peak
    && (walked ==> Max(most, Foreseen(s, budget)) == peak && Late(s, most))
  }

  // ----- rows that fit

  lemma {:induction false} FittingFront(a: seq<Row>, b: seq<Row>, budget: nat)
    requires Bytes(a) <= budget
    ensures Fitting(a + b, budget) >= Bytes(a)
    decreases |a|
  {
    if a != [] {
      assert (a + b)[1..] == a[1..] + b;
      FittingFront(a[1..], b, budget - Own(a[0].entry));
    }
  }

  /** The row that passes the budget does not fit, nor anything behind it. */
  lemma {:induction false} FittingStops(a: seq<Row>, x: Row, b: seq<Row>, budget: nat)
    requires Bytes(a) + Own(x.entry) > budget
    ensures Fitting(a + [x] + b, budget) <= Bytes(a)
    decreases |a|
  {
    if a == [] {
      assert [] + [x] + b == [x] + b;
    } else {
      assert (a + [x] + b)[1..] == a[1..] + [x] + b;
      if Own(a[0].entry) <= budget {
        FittingStops(a[1..], x, b, budget - Own(a[0].entry));
      }
    }
  }

  lemma {:induction false} FittingFits(rows: seq<Row>, budget: nat)
    ensures Fitting(rows, budget) <= budget
    decreases |rows|
  {
    if rows != [] && Own(rows[0].entry) <= budget {
      FittingFits(rows[1..], budget - Own(rows[0].entry));
    }
  }

  /** What was seen of a level comes first among its rows. */
  lemma {:induction false} SeenComesFirst(levels: seq<Open>, k: nat, dir: Path) returns (rest: seq<Row>)
    requires k < |levels|
    ensures Pre(dir, Kids(levels, k)) == Pre(dir, Seen(levels, k)) + rest
    decreases |levels| - k
  {
    hide Pre;
    var l := levels[k];
    if k + 1 < |levels| {
      var below := dir + [levels[k + 1].entry.name];
      var inner := SeenComesFirst(levels, k + 1, below);
      OpenRows(dir, l.done, levels[k + 1].entry, Kids(levels, k + 1), l.rest);
      OpenRows(dir, l.done, levels[k + 1].entry, Seen(levels, k + 1), []);
      PreNone(dir);
      assert l.done + [Node(levels[k + 1].entry, Seen(levels, k + 1))] + [] == Seen(levels, k);
      rest := inner + Pre(dir, l.rest);
      Regroup(Pre(dir, l.done) + [Row(dir, levels[k + 1].entry)], Pre(below, Seen(levels, k + 1)), inner, Pre(dir, l.rest));
    } else {
      assert l.done + [] == l.done;
      PrePlus(dir, l.done, l.rest);
      rest := Pre(dir, l.rest);
    }
  }

  lemma OpenRows(dir: Path, done: seq<Node>, entry: Entry, below: seq<Node>, rest: seq<Node>)
    ensures Pre(dir, done + [Node(entry, below)] + rest)
         == Pre(dir, done) + [Row(dir, entry)] + Pre(dir + [entry.name], below) + Pre(dir, rest)
  {
    hide Pre;
    PrePlus(dir, done + [Node(entry, below)], rest);
    PrePlus(dir, done, [Node(entry, below)]);
    PreFirst(dir, Node(entry, below), []);
  }

  lemma Regroup<T>(a: seq<T>, b: seq<T>, c: seq<T>, d: seq<T>)
    ensures a + (b + c) + d == (a + b) + (c + d)
    ensures (a + b) + [] == a + b
  {
  }

  /** The row that came last is the last one of an open level. */
  lemma {:induction false} TailComesLast(s: State, k: nat, dir: Path) returns (front: seq<Row>, last: Row)
    requires 1 <= s.measuring <= k < |s.levels| && Tail(s) > 0
    ensures Pre(dir, [Node(s.levels[k].entry, Seen(s.levels, k))]) == front + [last] && Own(last.entry) == Tail(s)
    decreases |s.levels| - k
  {
    hide Pre, Own;
    var l := s.levels[k];
    var below := dir + [l.entry.name];
    PreFirst(dir, Node(l.entry, Seen(s.levels, k)), []);
    if k + 1 < |s.levels| {
      front, last := TailComesLast(s, k + 1, below);
      PrePlus(below, l.done, [Node(s.levels[k + 1].entry, Seen(s.levels, k + 1))]);
      front := [Row(dir, l.entry)] + Pre(below, l.done) + front;
    } else {
      assert l.done + [] == l.done == Seen(s.levels, k);
      if l.done == [] {
        PreNone(below);
        front, last := [], Row(dir, l.entry);
        assert [Row(dir, l.entry)] + [] == [] + [Row(dir, l.entry)];
      } else {
        var leaf := l.done[|l.done| - 1];
        assert l.done == l.done[..|l.done| - 1] + [leaf];
        PrePlus(below, l.done[..|l.done| - 1], [leaf]);
        PreFirst(below, leaf, []);
        PreNone(below + [leaf.entry.name]);
        front, last := [Row(dir, l.entry)] + Pre(below, l.done[..|l.done| - 1]), Row(below, leaf.entry);
      }
    }
  }

  /** What was seen of an open directory comes first among the rows of the whole. */
  lemma OpenComesFirst(levels: seq<Open>, k: nat) returns (rest: seq<Row>)
    requires k < |levels|
    ensures Pre([], [Node(levels[k].entry, Kids(levels, k))]) == Pre([], [Node(levels[k].entry, Seen(levels, k))]) + rest
  {
    hide Pre, Kids, Seen;
    var below := [] + [levels[k].entry.name];
    rest := SeenComesFirst(levels, k, below);
    PreFirst([], Node(levels[k].entry, Kids(levels, k)), []);
    PreFirst([], Node(levels[k].entry, Seen(levels, k)), []);
    PlusAssociates([Row([], levels[k].entry)], Pre(below, Seen(levels, k)), rest);
  }

  lemma TailIsSeen(s: State)
    requires 1 <= s.measuring <= |s.levels|
    ensures Tail(s) <= SizeAll(Seen(s.levels, s.measuring - 1))
  {
    hide SizeAll, Pre, Own, Bytes;
    var m := s.measuring;
    if Tail(s) > 0 {
      if m < |s.levels| {
        var open := Node(s.levels[m].entry, Seen(s.levels, m));
        var front, last := TailComesLast(s, m, []);
        LastIsWithin(front, last, open);
        SizePlus(s.levels[m - 1].done, [open]);
        PreFirst([], open, []);
      } else {
        var done := Top(s).done;
        assert done == done[..|done| - 1] + [done[|done| - 1]] && done + [] == done;
        SizePlus(done[..|done| - 1], [done[|done| - 1]]);
        PreFirst([], done[|done| - 1], []);
      }
    }
  }

  lemma LastIsWithin(front: seq<Row>, last: Row, node: Node)
    requires Pre([], [node]) == front + [last]
    ensures Bytes(front) + Own(last.entry) == Size(node)
  {
    hide Pre;
    PreBytes([], [node]);
    PreFirst([], node, []);
    BytesPlus(front, [last]);
    assert [last][1..] == [];
  }

  // ----- what the steps keep

  lemma {:induction false} OutsideSame(left: seq<Open>, right: seq<Open>, k: nat, budget: nat)
    requires 1 <= k <= |left| && k <= |right| && forall j :: 0 <= j < k - 1 ==> left[j].rest == right[j].rest
    ensures Outside(left, k, budget) == Outside(right, k, budget)
  {
    if k > 1 {
      OutsideSame(left, right, k - 1, budget);
    }
  }

  /** A change at level `t` alone that keeps what `t` holds. */
  lemma ForeseenSame(left: State, right: State, t: nat, budget: nat)
    requires 1 <= left.measuring <= |left.levels| && left.measuring <= |right.levels|
    requires left.measuring - 1 <= t < |left.levels| && t < |right.levels|
    requires right.measuring == left.measuring && right.carry == left.carry && right.run == left.run
    requires forall j :: 0 <= j < t ==> left.levels[j] == right.levels[j]
    requires left.levels[t].entry == right.levels[t].entry && Kids(left.levels, t) == Kids(right.levels, t)
    ensures Foreseen(left, budget) == Foreseen(right, budget)
  {
    hide PeakFrom, Kids, Outside;
    KidsSame(left.levels, right.levels, left.measuring - 1, t);
    OutsideSame(left.levels, right.levels, left.measuring, budget);
  }

  lemma TakenForeseen(s: State, budget: nat)
    requires Shaped(s) && Top(s).rest != []
    ensures Foreseen(Taken(s), budget) == Foreseen(s, budget)
    ensures Held(Taken(s)) == Held(s) + Size(Top(s).rest[0]) && Tail(Taken(s)) == LeafSize(Top(s).rest[0])
  {
    hide PeakFrom, Outside, SizeAll, Bytes, LeafSize, Size, Foreseen;
    var to, t, x := Taken(s), |s.levels| - 1, Top(s).rest[0];
    KidsAtTop(s.levels);
    KidsAtTop(to.levels);
    assert Top(s).done + [x] + Top(s).rest[1..] == Top(s).done + Top(s).rest;
    ForeseenSame(s, to, t, budget);
    SeenGrows(s.levels, to.levels, s.measuring - 1, x);
  }

  lemma KidsAtTop(levels: seq<Open>)
    requires levels != []
    ensures Kids(levels, |levels| - 1) == levels[|levels| - 1].done + levels[|levels| - 1].rest
    ensures Seen(levels, |levels| - 1) == levels[|levels| - 1].done
  {
    assert levels[|levels| - 1].done + [] == levels[|levels| - 1].done;
  }

  lemma TakenPeaked(most: nat, walked: bool, peak: nat, s: State, budget: nat)
    requires Shaped(s) && Top(s).rest != [] && Peaked(most, walked, peak, s, budget)
    requires walked ==> Held(s) <= most && LeafSize(Top(s).rest[0]) == Size(Top(s).rest[0])
    ensures Peaked(most, walked, peak, Taken(s), budget)
  {
    hide Held, Tail, Foreseen, LeafSize, Size;
    TakenForeseen(s, budget);
  }

  lemma EnteredForeseen(s: State, budget: nat)
    requires Shaped(s) && Top(s).rest != []
    ensures Foreseen(Entered(s), budget) == Foreseen(s, budget)
  {
    hide Foreseen;
    var to, n, child := Entered(s), |s.levels|, Top(s).rest[0];
    KidsAtTop(s.levels);
    EnteredKids(to.levels, Top(s).done, child, Top(s).rest[1..]);
    assert Top(s).rest == [child] + Top(s).rest[1..];
    ForeseenSame(s, to, n - 1, budget);
  }

  lemma EnteredHeld(s: State)
    requires Shaped(s) && Top(s).rest != []
    ensures Held(Entered(s)) == Held(s) + Own(Top(s).rest[0].entry) && Tail(Entered(s)) == Own(Top(s).rest[0].entry)
  {
    hide Bytes, Own, SizeAll, Pre, CountAll;
    var to, child := Entered(s), Top(s).rest[0];
    KidsAtTop(s.levels);
    EnteredKids(to.levels, Top(s).done, child, Top(s).rest[1..]);
    SeenGrows(s.levels, to.levels, s.measuring - 1, Node(child.entry, []));
    NoSize();
  }

  lemma EnteredKids(levels: seq<Open>, done: seq<Node>, child: Node, rest: seq<Node>)
    requires |levels| >= 2
    requires var top := levels[|levels| - 1]; top.entry == child.entry && top.done == [] && top.rest == child.children
    requires var below := levels[|levels| - 2]; below.done == done && below.rest == rest
    ensures Kids(levels, |levels| - 2) == done + ([child] + rest)
    ensures Seen(levels, |levels| - 2) == done + [Node(child.entry, [])]
  {
    KidsAtTop(levels);
    assert [] + child.children == child.children;
  }

  lemma EnteredPeaked(most: nat, walked: bool, peak: nat, s: State, budget: nat)
    requires Shaped(s) && Top(s).rest != [] && Peaked(most, walked, peak, s, budget)
    requires walked ==> Held(s) <= most
    ensures Peaked(most, walked, peak, Entered(s), budget)
  {
    hide Held, Tail, Foreseen, Own;
    EnteredForeseen(s, budget);
    EnteredHeld(s);
  }

  lemma PoppedForeseen(s: State, budget: nat)
    requires Shaped(s) && s.measuring < |s.levels| && Top(s).rest == []
    ensures Foreseen(Popped(s), budget) == Foreseen(s, budget) && Held(Popped(s)) == Held(s)
  {
    hide PeakFrom, Outside, Bytes, SizeAll, Foreseen;
    var n := |s.levels|;
    var parent, to := s.levels[n - 2], Popped(s);
    KidsAtTop(s.levels);
    KidsAtTop(to.levels);
    assert Top(s).done + [] == Top(s).done;
    ForeseenSame(s, to, n - 2, budget);
    PoppedSeen(s);
  }

  lemma PoppedPeaked(most: nat, walked: bool, peak: nat, s: State, budget: nat)
    requires Shaped(s) && s.measuring < |s.levels| && Top(s).rest == [] && Peaked(most, walked, peak, s, budget)
    requires walked ==> Held(s) <= most
    ensures Peaked(most, walked, peak, Popped(s), budget)
  {
    hide Held, Tail, Foreseen;
    PoppedForeseen(s, budget);
  }

  /** A child that fits joins the run: what waited with it has been counted, or it is the row that came last. */
  lemma AbsorbedPeaked(most: nat, walked: bool, peak: nat, s: State, budget: nat)
    requires Shaped(s) && Inner(s).done != [] && !Oversize(Inner(s).done[0], budget) && Kinds(Inner(s).done)
    requires Peaked(most, walked, peak, s, budget)
    ensures Peaked(most, walked, peak, Absorbed(s, budget), budget)
  {
    hide Kinds, Kids, Seen, Outside, PeakFrom, Late, Held, SizeAll, Bytes, Own, Oversize, Size;
    var to, m, child := Absorbed(s, budget), s.measuring, Inner(s).done[0];
    AbsorbedKids(s, budget);
    OutsideSame(s.levels, to.levels, m, budget);
    AbsorbedRun(s, budget);
    PeakOfFitting(child, Kids(to.levels, m - 1), budget, Bytes(s.carry), SizeAll(s.run));
    if walked {
      AbsorbedLate(most, s, budget);
    }
  }

  lemma AbsorbedRun(s: State, budget: nat)
    requires 1 <= s.measuring <= |s.levels| && Inner(s).done != []
    ensures var to, size := Absorbed(s, budget), Size(Inner(s).done[0]);
            && to.measuring == s.measuring && |to.levels| == |s.levels|
            && Bytes(to.carry) == (if Closes(SizeAll(s.run), size, budget) then 0 else Bytes(s.carry))
            && SizeAll(to.run) == (if Closes(SizeAll(s.run), size, budget) then size else SizeAll(s.run) + size)
    ensures SizeAll(s.run) > 0 <==> s.run != []
  {
    var child := Inner(s).done[0];
    SizePlus(s.run, [child]);
    assert [child][1..] == [];
  }

  lemma PeakOfFitting(child: Node, after: seq<Node>, budget: nat, carry: nat, run: nat)
    requires !Oversize(child, budget)
    ensures PeakFrom([child] + after, budget, carry, run)
         == Max(carry + run,
                Max(if child.entry.Directory? then carry + run + Size(child) else 0,
                    if Closes(run, Size(child), budget) then PeakFrom(after, budget, 0, Size(child))
                    else PeakFrom(after, budget, carry, run + Size(child))))
  {
    assert ([child] + after)[1..] == after;
  }

  lemma AbsorbedLate(most: nat, s: State, budget: nat)
    requires Shaped(s) && Inner(s).done != [] && Kinds(Inner(s).done) && Late(s, most)
    ensures Bytes(s.carry) + SizeAll(s.run) <= most && Late(Absorbed(s, budget), most)
    ensures Inner(s).done[0].entry.Directory? ==> Bytes(s.carry) + SizeAll(s.run) + Size(Inner(s).done[0]) <= most
  {
    hide Kids, Seen, SizeAll, Bytes, Own, Oversize;
    var to, m, child := Absorbed(s, budget), s.measuring, Inner(s).done[0];
    AbsorbedRun(s, budget);
    AbsorbedSeen(s, budget);
    SizePlus([child], Seen(to.levels, m - 1));
    PreFirst([], child, []);
    NoSize();
    if m < |s.levels| || |Inner(s).done| > 1 {
      assert Tail(to) == Tail(s);
      TailIsSeen(to);
    }
  }

  lemma NoSize()
    ensures SizeAll([]) == 0 && Bytes([]) == 0
  {
  }

  /** A level turns out not to fit: what fitted of it has been counted. */
  lemma OpenedPeaked(most: nat, walked: bool, peak: nat, s: State, budget: nat)
    requires Shaped(s) && s.measuring < |s.levels| && Inner(s).done == []
    requires Own(s.levels[s.measuring].entry) + SizeAll(Seen(s.levels, s.measuring)) > budget
    requires Peaked(most, walked, peak, s, budget)
    ensures Peaked(most, walked, peak, Opened(s), budget)
  {
    hide Fitting, Outside, PeakFrom, Held, Tail, Late, SizeAll, Bytes, Own, Pre;
    var to, m := Opened(s), s.measuring;
    var node, rest := Node(s.levels[m].entry, Kids(s.levels, m)), s.levels[m - 1].rest;
    assert Kids(s.levels, m - 1) == [] + [node] + rest == [node] + rest;
    SeenWithinKids(s.levels, m);
    PeakOfOversize(node, rest, budget, Bytes(s.carry), SizeAll(s.run));
    OpenedCarry(s);
    OutsideNext(s.levels, m, budget);
    if walked {
      OpenedLate(most, s, budget);
    }
  }

  lemma PeakOfOversize(node: Node, after: seq<Node>, budget: nat, carry: nat, run: nat)
    requires Oversize(node, budget)
    ensures PeakFrom([node] + after, budget, carry, run)
         == Max(carry + run,
                Max(carry + run + Fitting(Pre([], [node]), budget),
                    Max(PeakFrom(node.children, budget, Carried(carry, run) + Own(node.entry), 0), PeakFrom(after, budget, 0, 0))))
  {
    assert ([node] + after)[1..] == after;
  }

  lemma OutsideNext(levels: seq<Open>, m: nat, budget: nat)
    requires 1 <= m < |levels|
    ensures Outside(levels, m + 1, budget) == Max(PeakFrom(levels[m - 1].rest, budget, 0, 0), Outside(levels, m, budget))
  {
  }

  lemma OpenedCarry(s: State)
    requires 1 <= s.measuring < |s.levels|
    ensures Opened(s).levels == s.levels && Opened(s).measuring == s.measuring + 1
    ensures Bytes(Opened(s).carry) == Carried(Bytes(s.carry), SizeAll(s.run)) + Own(s.levels[s.measuring].entry)
    ensures SizeAll(Opened(s).run) == 0
  {
    var row := OwnRow(s.levels, s.measuring);
    PreLength(Inner(s).path, s.run);
    BytesPlus(s.carry, [row]);
    assert [row][1..] == [] && [] + [row] == [row];
  }

  lemma OpenedLate(most: nat, s: State, budget: nat)
    requires Shaped(s) && s.measuring < |s.levels| && Inner(s).done == [] && Late(s, most)
    requires Own(s.levels[s.measuring].entry) + SizeAll(Seen(s.levels, s.measuring)) > budget
    ensures var node := Node(s.levels[s.measuring].entry, Kids(s.levels, s.measuring));
            Bytes(s.carry) + SizeAll(s.run) + Fitting(Pre([], [node]), budget) <= most
    ensures Late(Opened(s), most)
  {
    hide Fitting, Kids, SizeAll, Bytes, Own, Pre, Opened;
    var open := Node(s.levels[s.measuring].entry, Seen(s.levels, s.measuring));
    OpenedCarry(s);
    assert Seen(s.levels, s.measuring - 1) == [] + [open] == [open];
    PreFirst([], open, []);
    assert Held(s) == Bytes(s.carry) + SizeAll(s.run) + Size(open);
    OpenFits(s, budget);
  }

  /** Of a level that has passed the budget no more fits than was there before the row that came last. */
  lemma OpenFits(s: State, budget: nat)
    requires 1 <= s.measuring < |s.levels|
    requires Own(s.levels[s.measuring].entry) + SizeAll(Seen(s.levels, s.measuring)) > budget
    ensures Fitting(Pre([], [Node(s.levels[s.measuring].entry, Kids(s.levels, s.measuring))]), budget) + Tail(s)
         <= Own(s.levels[s.measuring].entry) + SizeAll(Seen(s.levels, s.measuring))
  {
    hide Fitting, Kids, Seen, SizeAll, Bytes, Own, Pre, Tail;
    var m := s.measuring;
    FittingFits(Pre([], [Node(s.levels[m].entry, Kids(s.levels, m))]), budget);
    if Tail(s) > 0 {
      var front, last := TailComesLast(s, m, []);
      LastIsWithin(front, last, Node(s.levels[m].entry, Seen(s.levels, m)));
      var behind := OpenComesFirst(s.levels, m);
      FittingStops(front, last, behind, budget);
    }
  }

  lemma LeftPeaked(most: nat, walked: bool, peak: nat, s: State, budget: nat)
    requires Shaped(s) && |s.levels| == s.measuring >= 2 && Top(s).rest == [] && Top(s).done == []
    requires Peaked(most, walked, peak, s, budget) && (walked ==> Held(s) <= most)
    ensures Peaked(most, walked, peak, Left(s), budget)
  {
    hide Bytes, Pre, Fitting;
    var to, m := Left(s), s.measuring;
    assert Kids(s.levels, m - 1) == [] && Seen(s.levels, m - 1) == [];
    assert Kids(to.levels, m - 2) == [] + [] + s.levels[m - 2].rest == s.levels[m - 2].rest;
    NoSize();
    OutsideSame(s.levels, to.levels, m - 1, budget);
  }

  /** Between two steps what waits is counted by the recursion. */
  lemma HeldIsForeseen(s: State, budget: nat)
    requires Shaped(s) && Inner(s).done == []
    requires s.measuring < |s.levels| ==> Own(s.levels[s.measuring].entry) + SizeAll(Seen(s.levels, s.measuring)) <= budget
    ensures Held(s) <= Foreseen(s, budget)
  {
    hide Bytes, Fitting, Outside, SizeAll, Own, PeakFrom;
    var m := s.measuring;
    NoSize();
    if m == |s.levels| {
      PeakStarts(Kids(s.levels, m - 1), budget, Bytes(s.carry), SizeAll(s.run));
    } else {
      var open, node := Node(s.levels[m].entry, Seen(s.levels, m)), Node(s.levels[m].entry, Kids(s.levels, m));
      assert Seen(s.levels, m - 1) == [] + [open] == [open];
      assert Kids(s.levels, m - 1) == [] + [node] + s.levels[m - 1].rest == [node] + s.levels[m - 1].rest;
      PreFirst([], open, []);
      SeenWithinKids(s.levels, m);
      if Oversize(node, budget) {
        SeenFits(s, m, budget);
        PeakOfOversize(node, s.levels[m - 1].rest, budget, Bytes(s.carry), SizeAll(s.run));
      } else {
        PeakOfFitting(node, s.levels[m - 1].rest, budget, Bytes(s.carry), SizeAll(s.run));
      }
    }
  }

  lemma PeakStarts(nodes: seq<Node>, budget: nat, carry: nat, run: nat)
    ensures PeakFrom(nodes, budget, carry, run) >= carry + run
  {
  }

  lemma SeenFits(s: State, m: nat, budget: nat)
    requires m < |s.levels| && Own(s.levels[m].entry) + SizeAll(Seen(s.levels, m)) <= budget
    ensures Fitting(Pre([], [Node(s.levels[m].entry, Kids(s.levels, m))]), budget)
         >= Own(s.levels[m].entry) + SizeAll(Seen(s.levels, m))
  {
    hide Kids, Seen, Pre, Fitting, Bytes, SizeAll, Own;
    var open, node := Node(s.levels[m].entry, Seen(s.levels, m)), Node(s.levels[m].entry, Kids(s.levels, m));
    var behind := OpenComesFirst(s.levels, m);
    PreFirst([], open, []);
    PreBytes([], [open]);
    FittingFront(Pre([], [open]), behind, budget);
  }

  /** What waits now is counted. */
  lemma NotedPeaked(most: nat, walked: bool, peak: nat, s: State, budget: nat)
    requires Shaped(s) && Inner(s).done == [] && Peaked(most, walked, peak, s, budget)
    requires s.measuring < |s.levels| ==> Own(s.levels[s.measuring].entry) + SizeAll(Seen(s.levels, s.measuring)) <= budget
    ensures Peaked(Max(most, Held(s)), walked, peak, s, budget) && Held(s) <= peak
  {
    hide Held, Foreseen;
    HeldIsForeseen(s, budget);
  }

  lemma EndPeaked(most: nat, walked: bool, peak: nat, s: State, budget: nat)
    requires |s.levels| == s.measuring == 1 && Top(s).rest == [] && Top(s).done == []
    requires Peaked(most, walked, peak, s, budget) && (walked ==> Held(s) <= most)
    ensures most <= peak && (walked ==> most == peak)
  {
    assert Kids(s.levels, 0) == [] && Seen(s.levels, 0) == [];
  }

  lemma StartPeaked(nodes: seq<Node>, root: Open, walked: bool, budget: nat)
    requires root.done == [] && root.rest == nodes
    ensures Peaked(0, walked, Peak(nodes, budget), State([root], 1, [], [], []), budget)
  {
    hide PeakFrom;
    assert Kids([root], 0) == [] + [] + nodes == nodes;
    NoSize();
  }
}
