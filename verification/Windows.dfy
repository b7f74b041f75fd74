/** Listing windows: a large directory is read by several scans. */
module Windows {
  import opened Tree
  import opened Listings

  const WINDOW_ENTRIES: nat := 1024
  const WINDOW_DIRECTORIES: nat := 64

  /** How many of the entries from `start` to `end` are listed as directories. */
  function DirectoriesIn(listing: seq<Listed>, start: nat, end: nat): nat
    requires start <= end <= |listing|
    decreases end
  {
    if start == end then 0
    else DirectoriesIn(listing, start, end - 1) + if listing[end - 1].kind == DirectoryKind then 1 else 0
  }

  /** A window of both limits, and no shorter than they allow: it ends at its 64th directory, else as late as it may. */
  predicate IsWindow(listing: seq<Listed>, start: nat, end: nat) {
    && start <= end <= Min(|listing|, start + WINDOW_ENTRIES)
    && DirectoriesIn(listing, start, end) <= WINDOW_DIRECTORIES
    && (start < end ==> DirectoriesIn(listing, start, end - 1) < WINDOW_DIRECTORIES)
    && (end < Min(|listing|, start + WINDOW_ENTRIES) ==> DirectoriesIn(listing, start, end) == WINDOW_DIRECTORIES)
  }

  /** Where the window that starts at `start` ends. */
  method WindowEnd(listing: seq<Listed>, start: nat) returns (end: nat)
    requires start <= |listing|
    ensures IsWindow(listing, start, end)
  {
    var directories := 0;
    var limit := Min(|listing|, start + WINDOW_ENTRIES);
    for place := start to limit
      invariant directories == DirectoriesIn(listing, start, place) < WINDOW_DIRECTORIES
      invariant start < place ==> DirectoriesIn(listing, start, place - 1) < WINDOW_DIRECTORIES
    {
      if listing[place].kind == DirectoryKind {
        directories := directories + 1;
        if directories == WINDOW_DIRECTORIES {
          return place + 1;
        }
      }
    }
    end := limit;
  }

  lemma {:induction false} DirectoriesGrow(listing: seq<Listed>, from: nat, to: nat, later: nat)
    requires from <= to <= later <= |listing|
    ensures DirectoriesIn(listing, from, to) <= DirectoriesIn(listing, from, later)
    decreases later
  {
    if to < later {
      DirectoriesGrow(listing, from, to, later - 1);
    }
  }

  /** The limits leave no choice of where a window ends. */
  lemma WindowsAreUnique(listing: seq<Listed>, start: nat, end: nat, other: nat)
    requires IsWindow(listing, start, end) && IsWindow(listing, start, other)
    ensures end == other
  {
    if end < other {
      DirectoriesGrow(listing, start, end, other - 1);
    } else if other < end {
      DirectoriesGrow(listing, start, other, end - 1);
    }
  }

  /** The places from `start` to `end` that are listed as directories. */
  function DirectoryPlaces(listing: seq<Listed>, start: nat, end: nat): set<int>
    requires end <= |listing|
  {
    set place | start <= place < end && listing[place].kind == DirectoryKind
  }

  lemma OneMore(listing: seq<Listed>, start: nat, end: nat)
    requires start < end <= |listing|
    ensures |DirectoryPlaces(listing, start, end)|
         == |DirectoryPlaces(listing, start, end - 1)| + if listing[end - 1].kind == DirectoryKind then 1 else 0
  {
    var own := if listing[end - 1].kind == DirectoryKind then {end - 1} else {};
    assert DirectoryPlaces(listing, start, end) == DirectoryPlaces(listing, start, end - 1) + own;
  }

  lemma {:induction false} DirectoriesAreCounted(listing: seq<Listed>, start: nat, end: nat)
    requires start <= end <= |listing|
    ensures DirectoriesIn(listing, start, end) == |DirectoryPlaces(listing, start, end)|
    decreases end
  {
    if start < end {
      DirectoriesAreCounted(listing, start, end - 1);
      OneMore(listing, start, end);
    }
  }

  /** Where window `i` ends: at the next one's start, and the last one at `stop`. */
  function EndOf(starts: seq<nat>, stop: nat, i: nat): nat
    requires i < |starts|
  {
    if i + 1 < |starts| then starts[i + 1] else stop
  }

  /** The windows that start there follow one another from the first start to `stop`. */
  predicate Tiled(listing: seq<Listed>, starts: seq<nat>, stop: nat) {
    starts != [] && forall i :: 0 <= i < |starts| ==> IsWindow(listing, starts[i], EndOf(starts, stop, i))
  }

  lemma TiledMore(listing: seq<Listed>, starts: seq<nat>, stop: nat, end: nat)
    requires Tiled(listing, starts, stop) && IsWindow(listing, stop, end)
    ensures Tiled(listing, starts + [stop], end)
  {
    hide IsWindow;
    var more := starts + [stop];
    forall i | 0 <= i < |more|
      ensures IsWindow(listing, more[i], EndOf(more, end, i))
    {
      if i < |starts| {
        assert IsWindow(listing, starts[i], EndOf(starts, stop, i));
      }
    }
  }

  /** Where the later windows of a listing start. */
  method Rest(listing: seq<Listed>) returns (rest: seq<nat>)
    ensures Tiled(listing, [0] + rest, |listing|) && forall i :: 0 <= i < |rest| ==> rest[i] < |listing|
  {
    hide IsWindow;
    rest := [];
    var start := WindowEnd(listing, 0);
    assert EndOf([0], start, 0) == start;
    WindowInside(listing, 0, start);
    while start < |listing|
      invariant start <= |listing| && Tiled(listing, [0] + rest, start)
      invariant forall i :: 0 <= i < |rest| ==> rest[i] < |listing|
      decreases |listing| - start
    {
      var end := WindowEnd(listing, start);
      TiledMore(listing, [0] + rest, start, end);
      assert [0] + rest + [start] == [0] + (rest + [start]);
      WindowInside(listing, start, end);
      rest := rest + [start];
      start := end;
    }
  }

  /** A window is empty only at the end of the listing. */
  lemma WindowInside(listing: seq<Listed>, start: nat, end: nat)
    requires IsWindow(listing, start, end)
    ensures start <= end <= |listing| && (start < |listing| ==> start < end)
  {
  }
}
