/**
 * Open directories that waiting jobs hold: how many there are, how many there may be, and what happens when the
 * process has no handle left. One thread, as the walk makes its scans.
 */
module Handles {
  import opened Tree

  const MAX_HELD: nat := 128

  /**
   * A scan waiting to be made: whether it holds its directory open, and whether its directory is known not to
   * open. A scan of a rest holds none of its own.
   */
  datatype Job = Job(holds: bool, refused: bool)

  datatype Opening = Opened | OutOfHandles | Refused

  function Holding(jobs: seq<Job>): nat {
    if jobs == [] then 0 else (if jobs[0].holds then 1 else 0) + Holding(jobs[1..])
  }

  function HoldingAll(levels: seq<seq<Job>>): nat {
    if levels == [] then 0 else Holding(levels[0]) + HoldingAll(levels[1..])
  }

  /** The jobs with nothing held. */
  function Closed(jobs: seq<Job>): seq<Job> {
    seq(|jobs|, i requires 0 <= i < |jobs| => jobs[i].(holds := false))
  }

  /** Job by job the same, only that nothing is held any more. */
  ghost predicate LetGoOf(before: seq<seq<Job>>, after: seq<seq<Job>>) {
    && |after| == |before|
    && forall i :: 0 <= i < |before| ==>
         && |after[i]| == |before[i]|
         && forall k :: 0 <= k < |before[i]| ==> !after[i][k].holds && after[i][k].refused == before[i][k].refused
  }

  lemma {:induction false} HoldingPlus(a: seq<Job>, b: seq<Job>)
    ensures Holding(a + b) == Holding(a) + Holding(b)
    decreases |a|
  {
    if a == [] {
      assert a + b == b;
    } else {
      assert (a + b)[1..] == a[1..] + b;
      HoldingPlus(a[1..], b);
    }
  }

  lemma {:induction false} HoldingAllPlus(a: seq<seq<Job>>, b: seq<seq<Job>>)
    ensures HoldingAll(a + b) == HoldingAll(a) + HoldingAll(b)
    decreases |a|
  {
    if a == [] {
      assert a + b == b;
    } else {
      assert (a + b)[1..] == a[1..] + b;
      HoldingAllPlus(a[1..], b);
    }
  }

  lemma HoldingOne(job: Job)
    ensures Holding([job]) == if job.holds then 1 else 0
  {
    assert [job][1..] == [];
  }

  lemma HoldingLevel(level: seq<Job>)
    ensures HoldingAll([level]) == Holding(level)
  {
    assert [level][1..] == [];
  }

  /** The jobs of the open directories, outermost first, and those the scan being made has found. */
  class Waiting {
    var count: nat
    var limit: nat
    var levels: seq<seq<Job>>
    var found: seq<Job>

    /** The count is exact, and within a limit that is never above the first one. */
    ghost predicate Valid()
      reads this
    {
      count == HoldingAll(levels) + Holding(found) && count <= limit <= MAX_HELD
    }

    constructor ()
      ensures Valid() && levels == [] && found == []
    {
      count, limit, levels, found := 0, MAX_HELD, [], [];
    }

    method TryHold() returns (ok: bool)
      modifies this`count
      ensures ok <==> old(count) < limit
      ensures count == if ok then old(count) + 1 else old(count)
    {
      ok := count < limit;
      if ok {
        count := count + 1;
      }
    }

    method LetGo()
      requires count > 0
      modifies this`count
      ensures count == old(count) - 1
    {
      count := count - 1;
    }

    /** The process has fewer handles than the limit assumed. */
    method RanOut()
      modifies this`limit
      ensures limit == if count < old(limit) then count else old(limit)
    {
      limit := if count < limit then count else limit;
    }

    /** Opens a directory ahead of its scan if one more may be held. */
    method OpenAhead(opening: Opening) returns (holds: bool, refused: bool)
      requires Valid()
      modifies this`count, this`limit
      ensures count == old(count) + (if holds then 1 else 0) && count <= limit
      ensures holds <==> opening == Opened && old(count) < old(limit)
      ensures refused <==> opening == Refused && old(count) < old(limit)
      ensures limit == if opening == OutOfHandles && old(count) < old(limit) then old(count) else old(limit)
    {
      var ok := TryHold();
      if !ok {
        return false, false;
      }
      match opening
      case Opened => return true, false;
      case Refused =>
        LetGo();
        return false, true;
      case OutOfHandles =>
        LetGo();
        RanOut();
        return false, false;
    }

    /** A scan comes to a directory: its job is found, unless its metadata cannot be read. */
    method Directory(opening: Opening, readable: bool)
      requires Valid()
      modifies this`count, this`limit, this`found
      ensures Valid()
      ensures limit == if opening == OutOfHandles && old(count) < old(limit) then old(count) else old(limit)
      ensures found == old(found) + (if !readable then []
                                     else if old(count) < old(limit) then [Job(opening == Opened, opening == Refused)]
                                     else [Job(false, false)])
    {
      var holds, refused := OpenAhead(opening);
      if !readable {
        if holds {
          LetGo();
        }
        return;
      }
      var job := Job(holds, refused);
      HoldingPlus(found, [job]);
      HoldingOne(job);
      found := found + [job];
    }

    /** The scan is done: its jobs wait in a level of their own. */
    method Enter()
      requires Valid()
      modifies this`levels, this`found
      ensures Valid() && levels == old(levels) + [old(found)] && found == []
    {
      HoldingAllPlus(levels, [found]);
      HoldingLevel(found);
      levels := levels + [found];
      found := [];
    }

    /** A directory is done: none of its jobs is left. */
    method Leave()
      requires Valid() && levels != [] && levels[|levels| - 1] == []
      modifies this`levels
      ensures Valid() && levels == old(levels)[..|old(levels)| - 1]
    {
      HoldingAllPlus(levels[..|levels| - 1], [[]]);
      HoldingLevel([]);
      assert levels == levels[..|levels| - 1] + [[]];
      levels := levels[..|levels| - 1];
    }

    /** The next job of the innermost directory is taken up: what it held is its scan's. */
    method Take() returns (job: Job)
      requires Valid() && levels != [] && levels[|levels| - 1] != []
      modifies this`levels, this`count
      ensures Valid() && job == old(levels[|levels| - 1][0])
      ensures levels == old(levels)[..|old(levels)| - 1] + [old(levels[|levels| - 1][1..])]
    {
      var outer, top := levels[..|levels| - 1], levels[|levels| - 1];
      assert levels == outer + [top];
      HoldingAllPlus(outer, [top]);
      HoldingAllPlus(outer, [top[1..]]);
      HoldingLevel(top);
      HoldingLevel(top[1..]);
      job := top[0];
      levels := outer + [top[1..]];
      if job.holds {
        LetGo();
      }
    }

    /** Closes every directory that a waiting job holds. */
    method Release() returns (released: bool)
      requires Valid() && found == []
      modifies this`levels, this`count
      ensures Valid() && count == 0 && (released <==> old(count) > 0)
      ensures limit == old(limit)
      ensures LetGoOf(old(levels), levels)
    {
      released := false;
      var i := 0;
      while i < |levels|
        invariant i <= |levels| && Valid() && found == [] && limit == old(limit)
        invariant HoldingAll(levels[..i]) == 0
        invariant released <==> count < old(count)
        invariant count <= old(count)
        invariant |levels| == |old(levels)|
        invariant forall k :: 0 <= k < |levels| ==> levels[k] == if k < i then Closed(old(levels)[k]) else old(levels)[k]
        decreases |levels| - i
      {
        var closed, any := CloseLevel(i);
        ClosedSoFar(levels, i, closed);
        released := released || any;
        levels := levels[i := closed];
        i := i + 1;
      }
      assert levels[..i] == levels;
    }

    /** Closes what the jobs of one level hold, and gives the jobs without it. */
    method CloseLevel(i: nat) returns (closed: seq<Job>, any: bool)
      requires Valid() && i < |levels|
      modifies this`count
      ensures count == old(count) - Holding(levels[i])
      ensures closed == Closed(levels[i]) && Holding(closed) == 0 && (any <==> Holding(levels[i]) > 0)
    {
      var jobs := levels[i];
      LevelHolds(levels, i);
      closed, any := [], false;
      for k := 0 to |jobs|
        invariant closed == Closed(jobs[..k]) && Holding(closed) == 0
        invariant count == old(count) - Holding(jobs[..k]) && (any <==> Holding(jobs[..k]) > 0)
        invariant Holding(jobs) <= old(count)
      {
        assert jobs[..k + 1] == jobs[..k] + [jobs[k]];
        HoldingPlus(jobs[..k], [jobs[k]]);
        HoldingOne(jobs[k]);
        assert jobs == jobs[..k + 1] + jobs[k + 1..];
        HoldingPlus(jobs[..k + 1], jobs[k + 1..]);
        if jobs[k].holds {
          LetGo();
          any := true;
        }
        var job := jobs[k].(holds := false);
        HoldingPlus(closed, [job]);
        HoldingOne(job);
        closed := closed + [job];
      }
      assert jobs[..|jobs|] == jobs;
    }

    /**
     * Opens a directory by its path; `tries` says how each attempt goes. When the process is out of handles the
     * waiting jobs give theirs up, which they can do only once.
     */
    method Open(tries: nat -> Opening) returns (result: Opening, attempts: nat)
      requires Valid() && found == []
      modifies this`levels, this`count, this`limit
      ensures Valid()
      ensures limit == if tries(0) != OutOfHandles then old(limit) else if result == OutOfHandles then 0 else old(count)
      ensures 0 < attempts <= 2 && result == tries(attempts - 1)
      ensures attempts == 2 <==> tries(0) == OutOfHandles && old(count) > 0
      ensures if tries(0) == OutOfHandles then count == 0 && LetGoOf(old(levels), levels)
              else count == old(count) && levels == old(levels)
      ensures result == OutOfHandles ==> count == 0
    {
      attempts := 0;
      while true
        invariant Valid() && found == []
        invariant attempts == 0 ==> count == old(count) && limit == old(limit)
        invariant attempts > 0 ==> limit == old(count)
        invariant attempts > 0 ==> attempts == 1 && tries(0) == OutOfHandles && count == 0 && old(count) > 0
        invariant if attempts == 0 then levels == old(levels) else LetGoOf(old(levels), levels)
        decreases count + (if attempts == 0 then 1 else 0), 2 - attempts
      {
        result := tries(attempts);
        attempts := attempts + 1;
        if result != OutOfHandles {
          return;
        }
        RanOut();
        var released := Release();
        if !released {
          return;
        }
      }
    }
  }

  lemma {:induction false} LevelHolds(levels: seq<seq<Job>>, i: nat)
    requires i < |levels|
    ensures HoldingAll(levels) == HoldingAll(levels[..i]) + Holding(levels[i]) + HoldingAll(levels[i + 1..])
  {
    assert levels == levels[..i] + ([levels[i]] + levels[i + 1..]);
    HoldingAllPlus(levels[..i], [levels[i]] + levels[i + 1..]);
    HoldingAllPlus([levels[i]], levels[i + 1..]);
    HoldingLevel(levels[i]);
  }

  lemma ClosedSoFar(levels: seq<seq<Job>>, i: nat, closed: seq<Job>)
    requires i < |levels| && HoldingAll(levels[..i]) == 0 && Holding(closed) == 0
    ensures HoldingAll(levels[i := closed]) == HoldingAll(levels) - Holding(levels[i])
    ensures HoldingAll(levels[i := closed][..i + 1]) == 0
  {
    var after := levels[i := closed];
    LevelHolds(levels, i);
    LevelHolds(after, i);
    assert after[..i] == levels[..i] && after[i + 1..] == levels[i + 1..];
    assert after[..i + 1] == levels[..i] + [closed];
    HoldingAllPlus(levels[..i], [closed]);
    HoldingLevel(closed);
  }
}
