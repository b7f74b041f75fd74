/**
 * The one-pass cutter without its bookkeeping: the open directories, what is finished below each,
 * and what is waiting. `Future` says which parts the rule would still cut from such a state, and
 * each step of the walk keeps what was sealed so far together with what is still to come.
 */
module OnePass {
  import opened Tree
  import opened Rule

  /** An open directory: its own row's entry, its finished children, its children to come. */
  datatype Open = Open(path: Path, entry: Entry, done: seq<Node>, rest: seq<Node>)

  /**
   * The levels below `measuring` are split, the others may still fit a part. Waiting are the
   * carried rows of split directories, the open sibling run of the innermost split level, its
   * finished children not offered to the run yet, and everything of the measuring levels.
   */
  datatype State = State(
    levels: seq<Open>,
    measuring: nat,
    carry: seq<Row>,
    run: seq<Node>,
    parts: seq<seq<Row>>)

  ghost predicate Shaped(s: State) {
    && 1 <= s.measuring <= |s.levels|
    && s.levels[0].path == []
    && (forall k :: 1 <= k < |s.levels| ==>
          && s.levels[k].path == s.levels[k - 1].path + [s.levels[k].entry.name]
          && s.levels[k].entry.Directory?)
    && (forall k :: 0 <= k < s.measuring - 1 ==> s.levels[k].done == [])
  }

  /** The own row of level `k`. */
  function OwnRow(levels: seq<Open>, k: nat): Row
    requires 1 <= k < |levels|
  {
    Row(levels[k - 1].path, levels[k].entry)
  }

  /** All the children of level `k`, as far as they do not belong to an over-budget child. */
  function Kids(levels: seq<Open>, k: nat): seq<Node>
    requires k < |levels|
    decreases |levels| - k
  {
    levels[k].done
    + (if k + 1 < |levels| then [Node(levels[k + 1].entry, Kids(levels, k + 1))] else [])
    + levels[k].rest
  }

  /** The part of the subtree of level `k` that the walk has visited. */
  function Seen(levels: seq<Open>, k: nat): seq<Node>
    requires k < |levels|
    decreases |levels| - k
  {
    levels[k].done + (if k + 1 < |levels| then [Node(levels[k + 1].entry, Seen(levels, k + 1))] else [])
  }

  /** The parts still cut when level `k - 1` is the innermost split one, from `nodes` on. */
  function Outward(levels: seq<Open>, k: nat, nodes: seq<Node>, budget: nat, carry: seq<Row>, group: seq<Row>, bytes: nat): seq<seq<Row>>
    requires 1 <= k <= |levels|
  {
    var cut := Split(levels[k - 1].path, nodes, budget, carry, group, bytes);
    if k == 1 then cut.parts
    else
      var closed := Leave(OwnRow(levels, k - 1), cut);
      closed.parts + Outward(levels, k - 1, levels[k - 2].rest, budget, closed.carry, [], 0)
  }

  function Inner(s: State): Open
    requires 1 <= s.measuring <= |s.levels|
  {
    s.levels[s.measuring - 1]
  }

  function RunRows(s: State): seq<Row>
    requires 1 <= s.measuring <= |s.levels|
  {
    Pre(Inner(s).path, s.run)
  }

  /** The parts the rule still cuts from this state on. */
  function Future(s: State, budget: nat): seq<seq<Row>>
    requires 1 <= s.measuring <= |s.levels|
  {
    Outward(s.levels, s.measuring, Kids(s.levels, s.measuring - 1), budget, s.carry, RunRows(s), SizeAll(s.run))
  }

  /** Two stacks that agree below level `t` and on the children of `t` mean the same subtrees. */
  lemma {:induction false} KidsSame(left: seq<Open>, right: seq<Open>, k: nat, t: nat)
    requires k <= t < |left| && t < |right|
    requires forall j :: k <= j < t ==> left[j] == right[j]
    requires left[t].entry == right[t].entry
    requires Kids(left, t) == Kids(right, t)
    ensures Kids(left, k) == Kids(right, k)
    decreases t - k
  {
    if k < t {
      KidsSame(left, right, k + 1, t);
    }
  }

  lemma {:induction false} OutwardSame(left: seq<Open>, right: seq<Open>, k: nat, nodes: seq<Node>, budget: nat, carry: seq<Row>, group: seq<Row>, bytes: nat)
    requires 1 <= k <= |left| && k <= |right|
    requires forall j :: 0 <= j < k - 1 ==> left[j] == right[j]
    requires left[k - 1].path == right[k - 1].path && left[k - 1].entry == right[k - 1].entry
    ensures Outward(left, k, nodes, budget, carry, group, bytes) == Outward(right, k, nodes, budget, carry, group, bytes)
  {
    if k > 1 {
      var closed := Leave(OwnRow(left, k - 1), Split(left[k - 1].path, nodes, budget, carry, group, bytes));
      OutwardSame(left, right, k - 1, left[k - 2].rest, budget, closed.carry, [], 0);
    }
  }

  /** A change at level `t` alone that keeps what `t` holds keeps the future. */
  lemma FutureSame(left: State, right: State, t: nat, budget: nat)
    requires 1 <= left.measuring <= |left.levels| && left.measuring <= |right.levels|
    requires left.measuring - 1 <= t < |left.levels| && t < |right.levels|
    requires right.measuring == left.measuring && right.carry == left.carry && right.run == left.run
    requires forall j :: 0 <= j < t ==> left.levels[j] == right.levels[j]
    requires left.levels[t].path == right.levels[t].path && left.levels[t].entry == right.levels[t].entry
    requires Kids(left.levels, t) == Kids(right.levels, t)
    ensures Future(left, budget) == Future(right, budget)
  {
    KidsSame(left.levels, right.levels, left.measuring - 1, t);
    OutwardSame(left.levels, right.levels, left.measuring, Kids(left.levels, left.measuring - 1), budget,
                left.carry, RunRows(left), SizeAll(left.run));
  }

  // ----- the steps

  function Top(s: State): Open
    requires |s.levels| >= 1
  {
    s.levels[|s.levels| - 1]
  }

  /** The next child of the top level is taken in at once. */
  function Taken(s: State): State
    requires |s.levels| >= 1 && Top(s).rest != []
  {
    s.(levels := s.levels[|s.levels| - 1 := Top(s).(done := Top(s).done + [Top(s).rest[0]], rest := Top(s).rest[1..])])
  }

  /** The next child of the top level, a directory, is entered. */
  function Entered(s: State): State
    requires |s.levels| >= 1 && Top(s).rest != []
  {
    var child := Top(s).rest[0];
    s.(levels := s.levels[|s.levels| - 1 := Top(s).(rest := Top(s).rest[1..])]
                 + [Open(Top(s).path + [child.entry.name], child.entry, [], child.children)])
  }

  /** The top level, which fits, is finished: it becomes a finished child of its parent. */
  function Popped(s: State): State
    requires |s.levels| >= 2 && Top(s).rest == []
  {
    var parent := s.levels[|s.levels| - 2];
    s.(levels := s.levels[..|s.levels| - 2] + [parent.(done := parent.done + [Node(Top(s).entry, Top(s).done)])])
  }

  /** The first finished child of the innermost split level is offered to its run. */
  function Absorbed(s: State, budget: nat): State
    requires 1 <= s.measuring <= |s.levels| && Inner(s).done != []
  {
    var child := Inner(s).done[0];
    var levels := s.levels[s.measuring - 1 := Inner(s).(done := Inner(s).done[1..])];
    if s.run != [] && SizeAll(s.run) + Size(child) > budget
    then State(levels, s.measuring, [], [child], s.parts + [s.carry + RunRows(s)])
    else s.(levels := levels, run := s.run + [child])
  }

  /** The outermost measuring level turns out not to fit: it is split. */
  function Opened(s: State): State
    requires 1 <= s.measuring < |s.levels|
  {
    var closed := Flush(s.carry, RunRows(s));
    State(s.levels, s.measuring + 1, closed.carry + [OwnRow(s.levels, s.measuring)], [], s.parts + closed.parts)
  }

  /** The top level, which is split, is finished. */
  function Left(s: State): State
    requires |s.levels| >= 2 && s.measuring == |s.levels|
  {
    var rows := s.carry + RunRows(s);
    State(s.levels[..|s.levels| - 1], s.measuring - 1, [], [], s.parts + if rows == [] then [] else [rows])
  }

  /** The root is finished. */
  function Ended(s: State): seq<seq<Row>>
    requires s.measuring == |s.levels| == 1
  {
    var rows := s.carry + RunRows(s);
    s.parts + if rows == [] then [] else [rows]
  }

  // ----- what each step keeps

  /** Carried are the own rows of the innermost split levels, outermost first. */
  ghost predicate Carries(s: State)
    requires Shaped(s)
  {
    && |s.carry| <= s.measuring - 1
    && (forall i :: 0 <= i < |s.carry| ==> s.carry[i] == OwnRow(s.levels, s.measuring - |s.carry| + i))
  }

  /** A sibling run is within budget, or a single file or symlink. */
  predicate RunFits(run: seq<Node>, budget: nat) {
    SizeAll(run) <= budget || (|run| == 1 && !run[0].entry.Directory?)
  }

  predicate AllFit(nodes: seq<Node>, budget: nat) {
    forall i :: 0 <= i < |nodes| ==> !Oversize(nodes[i], budget)
  }

  ghost predicate Sound(s: State, budget: nat) {
    && Shaped(s)
    && Carries(s)
    && RunFits(s.run, budget)
    && Kinds(s.run)
    && (forall k :: 0 <= k < |s.levels| ==> Kinds(s.levels[k].done) && Kinds(s.levels[k].rest))
    && (forall k :: s.measuring - 1 <= k < |s.levels| ==> AllFit(s.levels[k].done, budget))
  }

  lemma TakenKeeps(s: State, budget: nat)
    requires Shaped(s) && Top(s).rest != []
    ensures Future(Taken(s), budget) == Future(s, budget)
  {
    var n := |s.levels|;
    assert Kids(s.levels, n - 1) == Top(s).done + [] + Top(s).rest;
    assert Kids(Taken(s).levels, n - 1) == Top(s).done + [Top(s).rest[0]] + [] + Top(s).rest[1..];
    assert Top(s).rest == [Top(s).rest[0]] + Top(s).rest[1..];
    FutureSame(s, Taken(s), n - 1, budget);
  }

  lemma EnteredKeeps(s: State, budget: nat)
    requires Shaped(s) && Top(s).rest != [] && Top(s).rest[0].entry.Directory?
    ensures Shaped(Entered(s))
    ensures Future(Entered(s), budget) == Future(s, budget)
  {
    hide SizeAll, CountAll, Pre, Split, Outward;
    var n := |s.levels|;
    var child := Top(s).rest[0];
    var to := Entered(s);
    assert Kids(to.levels, n) == [] + [] + child.children == child.children;
    assert Kids(to.levels, n - 1) == Top(s).done + [Node(child.entry, child.children)] + Top(s).rest[1..];
    assert Kids(s.levels, n - 1) == Top(s).done + [] + Top(s).rest;
    assert Top(s).rest == [child] + Top(s).rest[1..];
    FutureSame(s, to, n - 1, budget);
  }

  lemma PoppedKeeps(s: State, budget: nat)
    requires Shaped(s) && s.measuring < |s.levels| && Top(s).rest == []
    ensures Shaped(Popped(s))
    ensures Future(Popped(s), budget) == Future(s, budget)
  {
    var n := |s.levels|;
    var parent := s.levels[n - 2];
    var to := Popped(s);
    assert Kids(s.levels, n - 1) == Top(s).done + [] + [] == Top(s).done;
    assert Kids(s.levels, n - 2) == parent.done + [Node(Top(s).entry, Top(s).done)] + parent.rest;
    assert Kids(to.levels, n - 2) == parent.done + [Node(Top(s).entry, Top(s).done)] + [] + parent.rest;
    FutureSame(s, to, n - 2, budget);
  }

  /** The offered child leaves the front of the children to cut. */
  lemma AbsorbedKids(s: State, budget: nat)
    requires Shaped(s) && Inner(s).done != []
    ensures Shaped(Absorbed(s, budget))
    ensures Kids(s.levels, s.measuring - 1) == [Inner(s).done[0]] + Kids(Absorbed(s, budget).levels, s.measuring - 1)
  {
    hide SizeAll, CountAll, Pre;
    var m := s.measuring;
    var to := Absorbed(s, budget).levels;
    if m < |s.levels| {
      KidsSame(s.levels, to, m, |s.levels| - 1);
    }
    assert Inner(s).done == [Inner(s).done[0]] + to[m - 1].done;
  }

  lemma AbsorbedKeeps(s: State, budget: nat)
    requires Shaped(s) && Inner(s).done != [] && !Oversize(Inner(s).done[0], budget)
    ensures Shaped(Absorbed(s, budget))
    ensures Absorbed(s, budget).parts + Future(Absorbed(s, budget), budget) == s.parts + Future(s, budget)
  {
    hide SizeAll, CountAll, Pre, Kids;
    var to := Absorbed(s, budget);
    var after := Kids(to.levels, s.measuring - 1);
    AbsorbedKids(s, budget);
    AbsorbedOutward(s, Inner(s).done[0], after, budget);
    OutwardSame(s.levels, to.levels, s.measuring, after, budget, to.carry, RunRows(to), SizeAll(to.run));
  }

  /** One child that fits, seen from the rule. */
  lemma AbsorbedOutward(s: State, child: Node, after: seq<Node>, budget: nat)
    requires Shaped(s) && Inner(s).done != [] && child == Inner(s).done[0] && !Oversize(child, budget)
    ensures var to := Absorbed(s, budget);
            s.parts + Outward(s.levels, s.measuring, [child] + after, budget, s.carry, RunRows(s), SizeAll(s.run))
            == to.parts + Outward(s.levels, s.measuring, after, budget, to.carry, RunRows(to), SizeAll(to.run))
  {
    hide Outward, Split, RunRows, SizeAll, Oversize, Pre;
    var to := Absorbed(s, budget);
    AbsorbedSplit(s, child, after, budget);
    var next := Split(Inner(s).path, after, budget, to.carry, RunRows(to), SizeAll(to.run));
    var parts := to.parts[|s.parts|..];
    assert to.parts == s.parts + parts;
    OutwardMore(s.levels, s.measuring, [child] + after, after, budget, s.carry, RunRows(s), SizeAll(s.run),
                to.carry, RunRows(to), SizeAll(to.run), parts);
    PlusAssociates(s.parts, parts, Outward(s.levels, s.measuring, after, budget, to.carry, RunRows(to), SizeAll(to.run)));
  }

  /** One child that fits, cut by the rule: it closes the run before it or goes into it. */
  lemma AbsorbedSplit(s: State, child: Node, after: seq<Node>, budget: nat)
    requires Shaped(s) && Inner(s).done != [] && child == Inner(s).done[0] && !Oversize(child, budget)
    ensures var to := Absorbed(s, budget);
            var next := Split(Inner(s).path, after, budget, to.carry, RunRows(to), SizeAll(to.run));
            && 1 <= to.measuring <= |to.levels| && s.parts <= to.parts
            && Split(Inner(s).path, [child] + after, budget, s.carry, RunRows(s), SizeAll(s.run))
               == Cut(to.parts[|s.parts|..] + next.parts, next.carry)
  {
    hide Pre, SizeAll, Descend;
    var dir := Inner(s).path;
    var to := Absorbed(s, budget);
    PreLength(dir, s.run);
    RunCounts(s.run);
    SizePlus(s.run, [child]);
    PrePlus(dir, s.run, [child]);
    PreFirst(dir, child, []);
    assert ([child] + after)[1..] == after;
    var next := Split(dir, after, budget, to.carry, RunRows(to), SizeAll(to.run));
    assert [] + next.parts == next.parts;
  }

  lemma RunCounts(run: seq<Node>)
    ensures run == [] <==> CountAll(run) == 0
  {
  }

  /** Parts that are cut first stay first, however far out the walk is. */
  lemma OutwardMore(levels: seq<Open>, k: nat, nodes: seq<Node>, after: seq<Node>, budget: nat, carry: seq<Row>, group: seq<Row>,
                    bytes: nat, carry': seq<Row>, group': seq<Row>, bytes': nat, parts: seq<seq<Row>>)
    requires 1 <= k <= |levels|
    requires var next := Split(levels[k - 1].path, after, budget, carry', group', bytes');
             Split(levels[k - 1].path, nodes, budget, carry, group, bytes) == Cut(parts + next.parts, next.carry)
    ensures Outward(levels, k, nodes, budget, carry, group, bytes)
         == parts + Outward(levels, k, after, budget, carry', group', bytes')
  {
    hide Split, Leave;
    if k > 1 {
      var next := Split(levels[k - 1].path, after, budget, carry', group', bytes');
      LeavePrefix(OwnRow(levels, k - 1), parts, next);
      var closed := Leave(OwnRow(levels, k - 1), next);
      PlusAssociates(parts, closed.parts, Outward(levels, k - 1, levels[k - 2].rest, budget, closed.carry, [], 0));
    }
  }

  lemma LeavePrefix(own: Row, parts: seq<seq<Row>>, cut: Cut)
    ensures Leave(own, Cut(parts + cut.parts, cut.carry)) == Cut(parts + Leave(own, cut).parts, Leave(own, cut).carry)
  {
    assert (parts + cut.parts) + [cut.carry] == parts + (cut.parts + [cut.carry]);
  }

  /** An over-budget child at the head of the children to cut, seen from the rule. */
  lemma OpenedSplit(dir: Path, child: Node, nodes: seq<Node>, budget: nat, carry: seq<Row>, run: seq<Node>)
    requires Oversize(child, budget)
    ensures var before := Flush(carry, Pre(dir, run));
            var below := Descend(dir, child, budget, before.carry);
            var after := Split(dir, nodes, budget, below.carry, [], 0);
            Split(dir, [child] + nodes, budget, carry, Pre(dir, run), SizeAll(run))
            == Cut((before.parts + below.parts) + after.parts, after.carry)
  {
    assert ([child] + nodes)[1..] == nodes;
  }

  /** What the rule cuts from the over-budget child of the outermost measuring level on. */
  function Inside(s: State, budget: nat): seq<seq<Row>>
    requires 1 <= s.measuring < |s.levels|
  {
    var child := Node(s.levels[s.measuring].entry, Kids(s.levels, s.measuring));
    var below := Descend(Inner(s).path, child, budget, Flush(s.carry, RunRows(s)).carry);
    below.parts + Outward(s.levels, s.measuring, Inner(s).rest, budget, below.carry, [], 0)
  }

  lemma OpenedBefore(s: State, budget: nat)
    requires Shaped(s) && s.measuring < |s.levels| && Inner(s).done == []
    requires Size(Node(s.levels[s.measuring].entry, Kids(s.levels, s.measuring))) > budget
    ensures Future(s, budget) == Flush(s.carry, RunRows(s)).parts + Inside(s, budget)
  {
    hide SizeAll, CountAll, Pre;
    var m := s.measuring;
    var child := Node(s.levels[m].entry, Kids(s.levels, m));
    var nodes := Inner(s).rest;
    assert Kids(s.levels, m - 1) == [child] + nodes;
    OpenedSplit(Inner(s).path, child, nodes, budget, s.carry, s.run);
    var before := Flush(s.carry, RunRows(s));
    var below := Descend(Inner(s).path, child, budget, before.carry);
    var after := Split(Inner(s).path, nodes, budget, below.carry, [], 0);
    if m > 1 {
      LeavePrefix(OwnRow(s.levels, m - 1), before.parts + below.parts, after);
      var closed := Leave(OwnRow(s.levels, m - 1), after);
      var outer := Outward(s.levels, m - 1, s.levels[m - 2].rest, budget, closed.carry, [], 0);
      assert ((before.parts + below.parts) + closed.parts) + outer == before.parts + (below.parts + (closed.parts + outer));
    } else {
      assert (before.parts + below.parts) + after.parts == before.parts + (below.parts + after.parts);
    }
  }

  lemma OpenedKeeps(s: State, budget: nat)
    requires Shaped(s) && s.measuring < |s.levels| && Inner(s).done == []
    requires Size(Node(s.levels[s.measuring].entry, Kids(s.levels, s.measuring))) > budget
    ensures Shaped(Opened(s))
    ensures Opened(s).parts + Future(Opened(s), budget) == s.parts + Future(s, budget)
  {
    OpenedBefore(s, budget);
    assert RunRows(Opened(s)) == [];
    assert Future(Opened(s), budget) == Inside(s, budget);
    var parts := Flush(s.carry, RunRows(s)).parts;
    assert (s.parts + parts) + Inside(s, budget) == s.parts + (parts + Inside(s, budget));
  }

  /** At the end of a split directory everything that waits leaves as one part. */
  lemma LeftCloses(s: State, budget: nat)
    requires Shaped(s) && Carries(s) && s.measuring >= 2
    ensures var rows := s.carry + RunRows(s);
            Leave(OwnRow(s.levels, s.measuring - 1), Split(Inner(s).path, [], budget, s.carry, RunRows(s), SizeAll(s.run)))
            == Cut(if rows == [] then [] else [rows], [])
  {
    hide SizeAll, Pre;
    assert s.carry + [] == s.carry;
  }

  lemma LeftKeeps(s: State, budget: nat)
    requires Shaped(s) && Carries(s) && |s.levels| == s.measuring >= 2
    requires Inner(s).done == [] && Inner(s).rest == []
    ensures Shaped(Left(s))
    ensures Left(s).parts + Future(Left(s), budget) == s.parts + Future(s, budget)
  {
    var m := s.measuring;
    var to := Left(s);
    assert Kids(s.levels, m - 1) == [];
    var outer := s.levels[m - 2].rest;
    assert Kids(to.levels, m - 2) == [] + [] + outer == outer;
    assert RunRows(to) == [] && SizeAll([]) == 0;
    hide Split, SizeAll, Pre, Kids;
    LeftCloses(s, budget);
    OutwardSame(s.levels, to.levels, m - 1, outer, budget, [], [], 0);
    var rows := s.carry + RunRows(s);
    PlusAssociates(s.parts, if rows == [] then [] else [rows], Future(to, budget));
  }

  lemma EndedKeeps(s: State, budget: nat)
    requires Shaped(s) && Carries(s) && |s.levels| == s.measuring == 1
    requires Inner(s).done == [] && Inner(s).rest == []
    ensures Ended(s) == s.parts + Future(s, budget)
  {
    assert Kids(s.levels, 0) == [];
    assert s.carry + RunRows(s) == RunRows(s);
    assert s.carry == [];
  }

  // ----- every step keeps the state sound

  lemma TakenSound(s: State, budget: nat)
    requires Sound(s, budget) && Top(s).rest != [] && !Oversize(Top(s).rest[0], budget)
    ensures Sound(Taken(s), budget)
  {
    hide Kinds, SizeAll;
    KindsOne(Top(s).rest);
    KindsPlus(Top(s).done, [Top(s).rest[0]]);
  }

  lemma EnteredSound(s: State, budget: nat)
    requires Sound(s, budget) && Top(s).rest != [] && Top(s).rest[0].entry.Directory?
    ensures Sound(Entered(s), budget)
  {
    hide Kinds, SizeAll, AllFit, RunFits, CountAll, Pre;
    NoKinds();
    KindsOne(Top(s).rest);
    NothingUnfit(budget);
  }

  lemma NoKinds()
    ensures Kinds([])
  {
  }

  lemma NothingUnfit(budget: nat)
    ensures AllFit([], budget)
  {
  }

  lemma PoppedSound(s: State, budget: nat)
    requires Sound(s, budget) && s.measuring < |s.levels| && Top(s).rest == []
    requires Size(Node(Top(s).entry, Top(s).done)) <= budget
    ensures Sound(Popped(s), budget)
  {
    hide Kinds, SizeAll, CountAll, Pre;
    var node := Node(Top(s).entry, Top(s).done);
    OneKind(node);
    var parent := s.levels[|s.levels| - 2];
    KindsPlus(parent.done, [node]);
    assert AllFit(parent.done + [node], budget);
    assert Kinds(parent.done + [node]);
  }

  /** A child that fits leaves a run that fits. */
  lemma AbsorbedFits(s: State, budget: nat)
    requires Shaped(s) && Inner(s).done != [] && !Oversize(Inner(s).done[0], budget) && RunFits(s.run, budget)
    ensures RunFits(Absorbed(s, budget).run, budget)
  {
    hide Pre, Seen, Kids;
    SizePlus(s.run, [Inner(s).done[0]]);
    PreFirst([], Inner(s).done[0], []);
  }

  lemma AllFitTail(nodes: seq<Node>, budget: nat)
    requires AllFit(nodes, budget) && nodes != []
    ensures !Oversize(nodes[0], budget) && AllFit(nodes[1..], budget)
  {
    hide Oversize;
  }

  lemma AbsorbedCarries(s: State, budget: nat)
    requires Shaped(s) && Carries(s) && Inner(s).done != []
    ensures Carries(Absorbed(s, budget))
  {
    hide SizeAll, Size, Pre;
  }

  lemma AbsorbedSound(s: State, budget: nat)
    requires Sound(s, budget) && Inner(s).done != []
    ensures Sound(Absorbed(s, budget), budget)
  {
    hide Kinds, SizeAll, CountAll, Pre, RunFits, Size, AllFit, Oversize, Carries;
    AllFitTail(Inner(s).done, budget);
    AbsorbedFits(s, budget);
    KindsOne(Inner(s).done);
    KindsPlus(s.run, [Inner(s).done[0]]);
    AbsorbedCarries(s, budget);
  }

  lemma OpenedSound(s: State, budget: nat)
    requires Sound(s, budget) && s.measuring < |s.levels| && Inner(s).done == []
    ensures Sound(Opened(s), budget)
  {
    hide Pre, CountAll;
  }

  lemma LeftSound(s: State, budget: nat)
    requires Sound(s, budget) && |s.levels| == s.measuring >= 2
    ensures Sound(Left(s), budget)
  {
    hide Pre, CountAll;
    assert Kinds([]) && SizeAll([]) == 0;
  }

  // ----- what is waiting

  /** The rows that are in no part yet. */
  function WaitingRows(s: State): seq<Row>
    requires 1 <= s.measuring <= |s.levels|
  {
    s.carry + Pre(Inner(s).path, s.run + Seen(s.levels, s.measuring - 1))
  }

  /** Two stacks that agree below level `t` and on what was seen of `t` have seen the same. */
  lemma {:induction false} SeenSame(left: seq<Open>, right: seq<Open>, k: nat, t: nat)
    requires k <= t < |left| && t < |right|
    requires forall j :: k <= j < t ==> left[j] == right[j]
    requires left[t].entry == right[t].entry
    requires Seen(left, t) == Seen(right, t)
    ensures Seen(left, k) == Seen(right, k)
    decreases t - k
  {
    if k < t {
      SeenSame(left, right, k + 1, t);
    }
  }

  lemma AbsorbedSeen(s: State, budget: nat)
    requires Shaped(s) && Inner(s).done != []
    ensures var to := Absorbed(s, budget);
            && Seen(s.levels, s.measuring - 1) == [Inner(s).done[0]] + Seen(to.levels, s.measuring - 1)
            && forall k :: s.measuring <= k < |s.levels| ==> Seen(to.levels, k) == Seen(s.levels, k)
  {
    var to := Absorbed(s, budget);
    forall k | s.measuring <= k < |s.levels|
      ensures Seen(to.levels, k) == Seen(s.levels, k)
    {
      SeenSame(s.levels, to.levels, k, |s.levels| - 1);
    }
    assert Inner(s).done == [Inner(s).done[0]] + to.levels[s.measuring - 1].done;
  }

  lemma PoppedSeen(s: State)
    requires Shaped(s) && s.measuring < |s.levels|
    requires Top(s).rest == []
    ensures forall k :: 0 <= k < |s.levels| - 1 ==>
              && Seen(Popped(s).levels, k) == Seen(s.levels, k)
              && Popped(s).levels[k].path == s.levels[k].path && Popped(s).levels[k].entry == s.levels[k].entry
              && Popped(s).levels[k].rest == s.levels[k].rest
  {
    var n := |s.levels|;
    var to := Popped(s);
    assert Seen(s.levels, n - 1) == Top(s).done;
    assert Seen(to.levels, n - 2) == Seen(s.levels, n - 2);
    forall k | 0 <= k < n - 1
      ensures Seen(to.levels, k) == Seen(s.levels, k)
    {
      SeenSame(s.levels, to.levels, k, n - 2);
    }
  }

  /** What a level has seen is no more than what it will hold. */
  lemma {:induction false} SeenWithinKids(levels: seq<Open>, k: nat)
    requires k < |levels|
    ensures SizeAll(Seen(levels, k)) <= SizeAll(Kids(levels, k))
    decreases |levels| - k
  {
    var seen := if k + 1 < |levels| then [Node(levels[k + 1].entry, Seen(levels, k + 1))] else [];
    var kids := if k + 1 < |levels| then [Node(levels[k + 1].entry, Kids(levels, k + 1))] else [];
    if k + 1 < |levels| {
      SeenWithinKids(levels, k + 1);
      PreFirst([], seen[0], []);
      PreFirst([], kids[0], []);
    }
    SizePlus(levels[k].done, seen);
    SizePlus(levels[k].done, kids);
    SizePlus(levels[k].done + kids, levels[k].rest);
  }

  /** A node taken in by the top level comes last in everything seen. */
  lemma {:induction false} SeenGrows(left: seq<Open>, right: seq<Open>, k: nat, x: Node)
    requires k < |left| <= |right|
    requires forall j :: 0 <= j < |left| - 1 ==> left[j] == right[j]
    requires left[|left| - 1].path == right[|left| - 1].path && left[|left| - 1].entry == right[|left| - 1].entry
    requires forall j :: 1 <= j < |left| ==> left[j].path == left[j - 1].path + [left[j].entry.name]
    requires Seen(right, |left| - 1) == Seen(left, |left| - 1) + [x]
    ensures SizeAll(Seen(right, k)) == SizeAll(Seen(left, k)) + Size(x)
    ensures CountAll(Seen(right, k)) == CountAll(Seen(left, k)) + Count(x)
    ensures Pre(left[k].path, Seen(right, k)) == Pre(left[k].path, Seen(left, k)) + Pre(left[|left| - 1].path, [x])
    decreases |left| - k
  {
    hide Kids;
    var t := |left| - 1;
    if k == t {
      SizePlus(Seen(left, t), [x]);
      CountPlus(Seen(left, t), [x]);
      PrePlus(left[t].path, Seen(left, t), [x]);
      PreFirst(left[t].path, x, []);
    } else {
      SeenGrows(left, right, k + 1, x);
      SeenOne(left, k);
      SeenOne(right, k);
      PlusAssociates(Pre(left[k].path, left[k].done) + [OwnRow(left, k + 1)],
                     Pre(left[k + 1].path, Seen(left, k + 1)), Pre(left[t].path, [x]));
    }
  }

  /** What level `k` has seen: its finished children, the row of the open one, what that has seen. */
  lemma SeenOne(levels: seq<Open>, k: nat)
    requires k + 1 < |levels| && levels[k + 1].path == levels[k].path + [levels[k + 1].entry.name]
    ensures SizeAll(Seen(levels, k)) == SizeAll(levels[k].done) + Own(levels[k + 1].entry) + SizeAll(Seen(levels, k + 1))
    ensures CountAll(Seen(levels, k)) == CountAll(levels[k].done) + 1 + CountAll(Seen(levels, k + 1))
    ensures Pre(levels[k].path, Seen(levels, k))
         == Pre(levels[k].path, levels[k].done) + [OwnRow(levels, k + 1)] + Pre(levels[k + 1].path, Seen(levels, k + 1))
  {
    var open := Node(levels[k + 1].entry, Seen(levels, k + 1));
    SizePlus(levels[k].done, [open]);
    CountPlus(levels[k].done, [open]);
    PrePlus(levels[k].path, levels[k].done, [open]);
    PreFirst(levels[k].path, open, []);
  }

  /** An inner level has seen less than the levels around it. */
  lemma {:induction false} InnerIsSmaller(s: State, k: nat, t: nat)
    requires Shaped(s) && k <= t < |s.levels|
    ensures Own(s.levels[t].entry) + SizeAll(Seen(s.levels, t)) <= Own(s.levels[k].entry) + SizeAll(Seen(s.levels, k))
    decreases t - k
  {
    hide SizeAll, CountAll, Seen, Pre;
    if k < t {
      SeenOne(s.levels, k);
      InnerIsSmaller(s, k + 1, t);
    }
  }
}
