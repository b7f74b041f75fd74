/** The states that a walk can come to, step by step, and that none of them holds back more than the recursion says. */
module Traces {
  import opened Tree
  import opened Rule
  import opened OnePass
  import opened Peaks

  /** Nothing is left to do before the next item: every measuring level is within the budget. */
  ghost predicate Settled(s: State, budget: nat) {
    && 1 <= s.measuring <= |s.levels| && Inner(s).done == []
    && (s.measuring < |s.levels| ==> Own(s.levels[s.measuring].entry) + SizeAll(Seen(s.levels, s.measuring)) <= budget)
  }

  /** The walk can go from `s` to `to` at once. */
  ghost predicate Step(s: State, to: State, budget: nat) {
    1 <= s.measuring <= |s.levels| &&
    (|| (Settled(s, budget) && Top(s).rest != [] && !Oversize(Top(s).rest[0], budget) && to == Taken(s))
     || (Settled(s, budget) && Top(s).rest != [] && Top(s).rest[0].entry.Directory? && to == Entered(s))
     || (Settled(s, budget) && Top(s).rest == [] && s.measuring < |s.levels| && to == Popped(s))
     || (Settled(s, budget) && Top(s).rest == [] && s.measuring == |s.levels| >= 2 && to == Left(s))
     || (Inner(s).done != [] && to == Absorbed(s, budget))
     || (s.measuring < |s.levels| && Inner(s).done == [] && to == Opened(s)
         && Own(s.levels[s.measuring].entry) + SizeAll(Seen(s.levels, s.measuring)) > budget))
  }

  function Start(tree: seq<Node>): State {
    State([Open([], Entry.Directory([], None, 0), [], tree)], 1, [], [], [])
  }

  /** The states of a walk of `tree`, from its start on. */
  ghost predicate Trace(trace: seq<State>, tree: seq<Node>, budget: nat) {
    && trace != [] && trace[0] == Start(tree)
    && forall i :: 0 <= i < |trace| - 1 ==> Step(trace[i], trace[i + 1], budget)
  }

  ghost predicate HoldsJust(s: State, most: nat, budget: nat) {
    Settled(s, budget) && Held(s) == most
  }

  /** Somewhere in the trace, between two steps of the walk, just `most` was held back. */
  ghost predicate Reaches(trace: seq<State>, most: nat, budget: nat) {
    exists i :: 0 <= i < |trace| && HoldsJust(trace[i], most, budget)
  }

  ghost predicate Followed(trace: seq<State>, most: nat, tree: seq<Node>, s: State, budget: nat) {
    Trace(trace, tree, budget) && trace[|trace| - 1] == s && Reaches(trace, most, budget)
  }

  lemma FollowedFurther(trace: seq<State>, most: nat, tree: seq<Node>, s: State, to: State, budget: nat)
    requires Followed(trace, most, tree, s, budget) && Step(s, to, budget)
    ensures Followed(trace + [to], most, tree, to, budget)
  {
    hide Step, HoldsJust, Start;
    var more := trace + [to];
    forall i | 0 <= i < |more| - 1
      ensures Step(more[i], more[i + 1], budget)
    {
      if i < |trace| - 1 {
        assert Step(trace[i], trace[i + 1], budget);
      }
    }
    var i :| 0 <= i < |trace| && HoldsJust(trace[i], most, budget);
    assert more[i] == trace[i];
  }

  lemma FollowedHere(trace: seq<State>, most: nat, tree: seq<Node>, s: State, budget: nat)
    requires Followed(trace, most, tree, s, budget) && Settled(s, budget)
    ensures Followed(trace, Max(most, Held(s)), tree, s, budget)
  {
    hide Trace, Held;
    assert HoldsJust(trace[|trace| - 1], Held(s), budget);
  }

  lemma FollowedFirst(tree: seq<Node>, budget: nat)
    ensures Followed([Start(tree)], 0, tree, Start(tree), budget)
  {
    var s := Start(tree);
    assert Seen(s.levels, 0) == [];
    NoSize();
    assert HoldsJust([s][0], 0, budget);
  }

  // ----- what all of them have in common

  lemma StepSound(s: State, to: State, most: nat, peak: nat, budget: nat)
    requires Step(s, to, budget) && Sound(s, budget) && Peaked(most, false, peak, s, budget)
    ensures Sound(to, budget) && Peaked(most, false, peak, to, budget)
  {
    hide Peaked, Sound, SizeAll, Seen;
    SoundParts(s, budget);
    if Top(s).rest != [] && !Oversize(Top(s).rest[0], budget) && to == Taken(s) {
      TakenSound(s, budget);
      TakenPeaked(most, false, peak, s, budget);
    } else if Top(s).rest != [] && Top(s).rest[0].entry.Directory? && to == Entered(s) {
      EnteredSound(s, budget);
      EnteredPeaked(most, false, peak, s, budget);
    } else if s.measuring < |s.levels| && Top(s).rest == [] && Settled(s, budget) && to == Popped(s) {
      TopFits(s, budget);
      PoppedSound(s, budget);
      PoppedPeaked(most, false, peak, s, budget);
    } else if s.measuring == |s.levels| >= 2 && Top(s).rest == [] && Settled(s, budget) && to == Left(s) {
      LeftSound(s, budget);
      LeftPeaked(most, false, peak, s, budget);
    } else if Inner(s).done != [] && to == Absorbed(s, budget) {
      AbsorbedSound(s, budget);
      AbsorbedPeaked(most, false, peak, s, budget);
    } else {
      OpenedSound(s, budget);
      OpenedPeaked(most, false, peak, s, budget);
    }
  }

  lemma SoundParts(s: State, budget: nat)
    requires Sound(s, budget)
    ensures Shaped(s) && 1 <= s.measuring <= |s.levels|
    ensures Inner(s).done != [] ==> !Oversize(Inner(s).done[0], budget) && Kinds(Inner(s).done)
  {
    hide Oversize, Kinds, Carries, RunFits;
  }

  /** A level on top has seen no more than the outermost measuring one. */
  lemma TopFits(s: State, budget: nat)
    requires Shaped(s) && s.measuring < |s.levels| && Settled(s, budget)
    ensures Size(Node(Top(s).entry, Top(s).done)) <= budget
  {
    InnerIsSmaller(s, s.measuring, |s.levels| - 1);
    assert Top(s).done + [] == Top(s).done;
  }

  lemma StartSound(tree: seq<Node>, budget: nat)
    requires Kinds(tree)
    ensures Sound(Start(tree), budget)
  {
    hide Kinds, SizeAll;
    NoKinds();
    NoSize();
  }

  lemma TraceFront(trace: seq<State>, tree: seq<Node>, n: nat, budget: nat)
    requires Trace(trace, tree, budget) && 0 < n <= |trace|
    ensures Trace(trace[..n], tree, budget)
  {
    hide Step, Start;
    forall i | 0 <= i < n - 1
      ensures Step(trace[..n][i], trace[..n][i + 1], budget)
    {
      assert Step(trace[i], trace[i + 1], budget);
    }
  }

  lemma {:induction false} TraceSound(trace: seq<State>, tree: seq<Node>, budget: nat)
    requires Kinds(tree) && Trace(trace, tree, budget)
    ensures Sound(trace[|trace| - 1], budget)
    ensures 1 <= trace[|trace| - 1].measuring <= |trace[|trace| - 1].levels|
    ensures Peaked(0, false, Peak(tree, budget), trace[|trace| - 1], budget)
    decreases |trace|
  {
    hide Peaked, Sound, Step, Peak;
    var n := |trace| - 1;
    if n == 0 {
      StartSound(tree, budget);
      StartPeaked(tree, Start(tree).levels[0], false, budget);
    } else {
      TraceFront(trace, tree, n, budget);
      TraceSound(trace[..n], tree, budget);
      StepSound(trace[n - 1], trace[n], 0, Peak(tree, budget), budget);
    }
    SoundParts(trace[n], budget);
  }

  /** No state that a walk of the tree comes to between two steps holds back more than its peak. */
  lemma NothingPassesThePeak(trace: seq<State>, tree: seq<Node>, i: nat, budget: nat)
    requires Kinds(tree) && Trace(trace, tree, budget) && i < |trace| && Settled(trace[i], budget)
    ensures Held(trace[i]) <= Peak(tree, budget)
  {
    hide Peaked, Sound, Step, Peak, Held, SizeAll, Seen;
    TraceFront(trace, tree, i + 1, budget);
    TraceSound(trace[..i + 1], tree, budget);
    SoundParts(trace[i], budget);
    NotedPeaked(0, false, Peak(tree, budget), trace[i], budget);
  }
}
