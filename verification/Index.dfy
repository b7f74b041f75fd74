/** The index of a manifest: where each part starts, and what a search over those paths finds. */
module Index {
  import opened Tree
  import opened Order
  import opened Part
  import opened Recovery
  import opened Rule
  import opened RuleFacts

  /** Parts in walk order, none of them empty. */
  ghost predicate PartsIncrease(parts: seq<seq<Row>>) {
    && (forall k :: 0 <= k < |parts| ==> parts[k] != [] && Increasing(parts[k]) && PlainRows(parts[k]))
    && (forall a, b, i, j :: 0 <= a < b < |parts| && 0 <= i < |parts[a]| && 0 <= j < |parts[b]| ==>
          ComparePaths(PathOf(parts[a][i]), PathOf(parts[b][j])) == Less)
  }

  /** What the index stores of each part: the path of its first row. */
  function Firsts(parts: seq<seq<Row>>): seq<seq<Byte>>
    requires forall k :: 0 <= k < |parts| ==> parts[k] != []
  {
    seq(|parts|, k requires 0 <= k < |parts| => Slashed(PathOf(parts[k][0])))
  }

  lemma InConcat(parts: seq<seq<Row>>, k: nat, i: nat)
    requires k < |parts| && i < |parts[k]|
    ensures parts[k][i] in Concat(parts)
    decreases |parts|
  {
    if k == 0 {
      assert Concat(parts)[i] == parts[0][i];
    } else {
      InConcat(parts[1..], k - 1, i);
    }
  }

  /** A walk in strict order is in strict order across its parts. */
  lemma {:induction false} CutsIncrease(parts: seq<seq<Row>>)
    requires Increasing(Concat(parts)) && PlainRows(Concat(parts))
    requires forall k :: 0 <= k < |parts| ==> parts[k] != []
    ensures PartsIncrease(parts)
    decreases |parts|
  {
    hide ComparePaths, PathOf, PlainPath;
    if parts != [] {
      var first, rest := parts[0], Concat(parts[1..]);
      var all := Concat(parts);
      assert all == first + rest;
      assert forall i :: 0 <= i < |first| ==> first[i] == all[i];
      assert forall j :: 0 <= j < |rest| ==> rest[j] == all[|first| + j];
      CutsIncrease(parts[1..]);
      forall b, i, j | 0 < b < |parts| && 0 <= i < |first| && 0 <= j < |parts[b]|
        ensures ComparePaths(PathOf(first[i]), PathOf(parts[b][j])) == Less
      {
        InConcat(parts[1..], b - 1, j);
        var at :| 0 <= at < |rest| && rest[at] == parts[b][j];
      }
      CutsMore(parts);
    }
  }

  lemma CutsMore(parts: seq<seq<Row>>)
    requires parts != [] && PartsIncrease(parts[1..])
    requires parts[0] != [] && Increasing(parts[0]) && PlainRows(parts[0])
    requires forall b, i, j :: 0 < b < |parts| && 0 <= i < |parts[0]| && 0 <= j < |parts[b]| ==>
               ComparePaths(PathOf(parts[0][i]), PathOf(parts[b][j])) == Less
    ensures PartsIncrease(parts)
  {
    hide ComparePaths, PathOf, Increasing, PlainRows;
    var rest := parts[1..];
    assert forall k :: 0 < k < |parts| ==> parts[k] == rest[k - 1];
  }

  // ----- the parts of a directory

  /** Part `k` holds the directory's row or anything below it. */
  ghost predicate Touches(parts: seq<seq<Row>>, k: nat, dir: Path)
    requires k < |parts|
  {
    exists j :: 0 <= j < |parts[k]| && dir <= PathOf(parts[k][j])
  }

  /** `path` is `dir` or lies below it, told from the text. */
  predicate TextUnder(dir: seq<Byte>, path: seq<Byte>) {
    path == dir || dir + [SLASH] <= path
  }

  /** What a search over the first paths alone decides. */
  predicate Finds(firsts: seq<seq<Byte>>, k: nat, dir: seq<Byte>)
    requires k < |firsts|
  {
    && (k + 1 < |firsts| ==> WalkOrder(firsts[k + 1], dir) == Greater)
    && (WalkOrder(firsts[k], dir) != Greater || TextUnder(dir, firsts[k]))
  }

  lemma {:induction false} SlashedPlus(dir: Path, more: Path)
    requires dir != [] && more != []
    ensures Slashed(dir + more) == Slashed(dir) + [SLASH] + Slashed(more)
    decreases |more|
  {
    var init, last := more[..|more| - 1], more[|more| - 1];
    assert (dir + more)[..|dir + more| - 1] == dir + init;
    if init == [] {
      assert dir + init == dir;
    } else {
      SlashedPlus(dir, init);
    }
  }

  lemma {:induction false} NamesBeforeSlash(x: Name, y: Name, u: seq<Byte>, v: seq<Byte>)
    requires PlainName(x) && (forall i :: 0 <= i < |y| ==> y[i] != SLASH)
    requires x + [SLASH] + u == y + v && (v == [] || v[0] == SLASH)
    ensures x == y && v == [SLASH] + u
  {
    var text := y + v;
    assert text == x + ([SLASH] + u);
    assert text[|x|] == SLASH;
    assert forall i :: 0 <= i < |y| ==> text[i] == y[i];
    assert |x| >= |y|;
    assert |y| < |text| ==> text[|y|] == SLASH;
    assert forall i :: 0 <= i < |x| ==> text[i] == x[i];
    assert |x| == |y|;
    assert x == text[..|x|] && v == text[|y|..];
  }

  /** Prefixes of paths are prefixes of their text that end at a slash. */
  lemma {:induction false} TextUnderIsUnder(dir: Path, path: Path)
    requires PlainPath(dir) && PlainPath(path) && dir != []
    ensures TextUnder(Slashed(dir), Slashed(path)) <==> dir <= path
    decreases |dir|
  {
    if dir <= path && dir != path {
      assert path == dir + path[|dir|..];
      SlashedPlus(dir, path[|dir|..]);
    }
    if Slashed(dir) == Slashed(path) {
      SlashedOnce(dir, path);
    } else if Slashed(dir) + [SLASH] <= Slashed(path) {
      TextStarts(dir, path);
    }
  }

  /** The text behind the first component. */
  function After(path: Path): seq<Byte>
    requires path != []
  {
    if |path| == 1 then [] else [SLASH] + Slashed(path[1..])
  }

  lemma FirstAndAfter(path: Path)
    requires path != []
    ensures Slashed(path) == path[0] + After(path)
  {
    if |path| > 1 {
      SlashedFirst(path);
    }
  }

  lemma {:induction false} TextStarts(dir: Path, path: Path)
    requires PlainPath(dir) && PlainPath(path) && dir != [] && Slashed(dir) + [SLASH] <= Slashed(path)
    ensures dir <= path
    decreases |dir|
  {
    if path != [] {
      var rest := Slashed(path)[|Slashed(dir)| + 1..];
      var u := if |dir| == 1 then rest else Slashed(dir[1..]) + [SLASH] + rest;
      FirstOfText(dir, path, rest, u);
      NamesBeforeSlash(dir[0], path[0], u, After(path));
      if |dir| > 1 {
        assert |path| > 1 && After(path)[1..] == u;
        assert Slashed(dir[1..]) + [SLASH] <= u;
        hide Slashed;
        TextStarts(dir[1..], path[1..]);
      }
    }
  }

  /** The first component of a directory and the rest of the text, against the path's own first component. */
  lemma FirstOfText(dir: Path, path: Path, rest: seq<Byte>, u: seq<Byte>)
    requires dir != [] && path != [] && Slashed(path) == Slashed(dir) + [SLASH] + rest
    requires u == if |dir| == 1 then rest else Slashed(dir[1..]) + [SLASH] + rest
    ensures dir[0] + [SLASH] + u == path[0] + After(path) && (After(path) == [] || After(path)[0] == SLASH)
  {
    hide Slashed;
    FirstAndAfter(dir);
    FirstAndAfter(path);
    if |dir| > 1 {
      Regrouped(dir[0], [SLASH], Slashed(dir[1..]), [SLASH], rest);
    } else {
      assert dir[0] + [] == dir[0];
    }
  }

  lemma Regrouped(a: seq<Byte>, b: seq<Byte>, c: seq<Byte>, d: seq<Byte>, e: seq<Byte>)
    ensures a + (b + c) + d + e == a + b + (c + d + e)
  {
    PlusAssociates(a, b, c);
    PlusAssociates(a + b, c, d);
    PlusAssociates(a + b, c + d, e);
  }

  /** Between a directory and what is below it lies only what is below it. */
  lemma {:induction false} Between(dir: Path, middle: Path, end: Path)
    requires dir <= end && ComparePaths(dir, middle) != Greater && ComparePaths(middle, end) != Greater
    ensures dir <= middle
    decreases |dir|
  {
    if dir != [] {
      if middle[0] == dir[0] {
        Between(dir[1..], middle[1..], end[1..]);
      } else {
        CompareFlips(dir[0], middle[0]);
        CompareEqual(dir[0], middle[0]);
      }
    }
  }

  lemma {:induction false} PrefixComesFirst(dir: Path, path: Path)
    requires dir <= path
    ensures ComparePaths(dir, path) != Greater
    decreases |dir|
  {
    if dir != [] {
      PrefixComesFirst(dir[1..], path[1..]);
    }
  }

  /** The parts of a directory are one run of parts. */
  lemma TouchedPartsAreContiguous(parts: seq<seq<Row>>, dir: Path, a: nat, b: nat, c: nat)
    requires PartsIncrease(parts) && a < b < c < |parts|
    requires Touches(parts, a, dir) && Touches(parts, c, dir)
    ensures forall j :: 0 <= j < |parts[b]| ==> dir <= PathOf(parts[b][j])
  {
    hide ComparePaths, PathOf;
    var i :| 0 <= i < |parts[a]| && dir <= PathOf(parts[a][i]);
    var k :| 0 <= k < |parts[c]| && dir <= PathOf(parts[c][k]);
    forall j | 0 <= j < |parts[b]|
      ensures dir <= PathOf(parts[b][j])
    {
      PrefixComesFirst(dir, PathOf(parts[a][i]));
      NotAfter(dir, PathOf(parts[a][i]), PathOf(parts[b][j]));
      Between(dir, PathOf(parts[b][j]), PathOf(parts[c][k]));
    }
  }

  lemma NotAfter(a: Path, b: Path, c: Path)
    requires ComparePaths(a, b) != Greater && ComparePaths(b, c) == Less
    ensures ComparePaths(a, c) == Less
  {
    PathsEqual(a, b);
    if a != b {
      PathsTransitive(a, b, c);
    }
  }

  /** A part the search finds holds the directory or something below it. */
  lemma FoundIsTouched(parts: seq<seq<Row>>, m: nat, i: nat, k: nat)
    requires PartsIncrease(parts) && m < |parts| && i < |parts[m]| && k < |parts|
    requires var dir := PathOf(parts[m][i]);
             && (k + 1 < |parts| ==> ComparePaths(PathOf(parts[k + 1][0]), dir) == Greater)
             && (ComparePaths(PathOf(parts[k][0]), dir) != Greater || dir <= PathOf(parts[k][0]))
    ensures Touches(parts, k, PathOf(parts[m][i]))
  {
    hide ComparePaths, PathOf;
    var dir := PathOf(parts[m][i]);
    if m < k {
      PathsFlip(dir, PathOf(parts[k][0]));
      assert dir <= PathOf(parts[k][0]);
    } else if m > k {
      var next := PathOf(parts[k + 1][0]);
      PathsFlip(dir, next);
      if m == k + 1 && i == 0 {
        PathsEqual(dir, next);
      } else {
        PathsFlip(next, dir);
      }
      assert false;
    }
  }

  lemma TouchedIsFound(parts: seq<seq<Row>>, dir: Path, k: nat)
    requires PartsIncrease(parts) && k < |parts| && Touches(parts, k, dir)
    ensures k + 1 < |parts| ==> ComparePaths(PathOf(parts[k + 1][0]), dir) == Greater
    ensures ComparePaths(PathOf(parts[k][0]), dir) != Greater || dir <= PathOf(parts[k][0])
  {
    hide ComparePaths, PathOf;
    var j :| 0 <= j < |parts[k]| && dir <= PathOf(parts[k][j]);
    var row, first := PathOf(parts[k][j]), PathOf(parts[k][0]);
    PrefixComesFirst(dir, row);
    if k + 1 < |parts| {
      NotAfter(dir, row, PathOf(parts[k + 1][0]));
      PathsFlip(dir, PathOf(parts[k + 1][0]));
    }
    if ComparePaths(first, dir) == Greater {
      PathsFlip(dir, first);
      PathsEqual(first, row);
      Between(dir, first, row);
    }
  }

  /**
   * For every directory of the walk the first paths alone tell which parts hold its row or anything below it.
   */
  lemma SearchIsExact(parts: seq<seq<Row>>, m: nat, i: nat, k: nat)
    requires PartsIncrease(parts) && m < |parts| && i < |parts[m]| && k < |parts|
    ensures var dir := PathOf(parts[m][i]);
            Finds(Firsts(parts), k, Slashed(dir)) <==> Touches(parts, k, dir)
  {
    hide ComparePaths, WalkOrder, Slashed, TextUnder;
    var dir := PathOf(parts[m][i]);
    assert PlainPath(dir) && PlainPath(PathOf(parts[k][0]));
    WalkOrderIsByComponent(PathOf(parts[k][0]), dir);
    TextUnderIsUnder(dir, PathOf(parts[k][0]));
    if k + 1 < |parts| {
      assert PlainPath(PathOf(parts[k + 1][0]));
      WalkOrderIsByComponent(PathOf(parts[k + 1][0]), dir);
    }
    if Finds(Firsts(parts), k, Slashed(dir)) {
      FoundIsTouched(parts, m, i, k);
    }
    if Touches(parts, k, dir) {
      TouchedIsFound(parts, dir, k);
    }
  }

  lemma NoPartIsEmpty(tree: seq<Node>, parts: seq<seq<Row>>, pieces: seq<Piece>, budget: nat)
    requires PiecesOk(tree, parts, pieces, budget)
    ensures forall k :: 0 <= k < |parts| ==> parts[k] != []
  {
    hide Chain, Under;
  }

  /** The parts of any walk of a sorted tree: their first paths strictly increase, and a search over them is exact. */
  lemma PartsOfAWalk(nodes: seq<Node>, budget: nat)
    requires SortedTree(nodes)
    ensures var parts := Parts(nodes, budget);
            && PartsIncrease(parts)
            && forall a, b :: 0 <= a < b < |parts| ==> WalkOrder(Firsts(parts)[a], Firsts(parts)[b]) == Less
  {
    hide ComparePaths, WalkOrder, Slashed, Parts, PieceOk;
    var parts := Parts(nodes, budget);
    PartsAreTheWalk(nodes, budget);
    var pieces := PartsAreRuns(nodes, budget);
    PreIncreases([], nodes);
    PrePlain([], nodes);
    NoPartIsEmpty(nodes, parts, pieces, budget);
    CutsIncrease(parts);
    forall a, b | 0 <= a < b < |parts|
      ensures WalkOrder(Firsts(parts)[a], Firsts(parts)[b]) == Less
    {
      assert PlainPath(PathOf(parts[a][0])) && PlainPath(PathOf(parts[b][0]));
      WalkOrderIsByComponent(PathOf(parts[a][0]), PathOf(parts[b][0]));
    }
  }

  /** What the index stores of a built part is the path of its first row. */
  lemma IndexEntry(c: Content, parts: seq<seq<Row>>, k: nat)
    requires PartsIncrease(parts) && k < |parts| && Holds(c, parts[k])
    ensures FirstPathOf(c) == Some(Firsts(parts)[k])
  {
    FirstIsTheFirstRow(c, parts[k]);
  }
}
