/** The walk's order, recovered from the three tables of a part. */
module Recovery {
  import opened Tree
  import opened Order
  import opened Part
  import opened Sorting

  predicate InOrder(found: seq<Found>) {
    forall i, j :: 0 <= i < j < |found| ==> WalkOrder(found[i].path, found[j].path) != Greater
  }

  predicate StrictlyInOrder(found: seq<Found>) {
    forall i, j :: 0 <= i < j < |found| ==> WalkOrder(found[i].path, found[j].path) == Less
  }

  // ----- sorting

  lemma OrderFacts(a: seq<Byte>, b: seq<Byte>, c: seq<Byte>)
    ensures WalkOrder(a, b) == Less <==> WalkOrder(b, a) == Greater
    ensures WalkOrder(a, a) == Equal
    ensures WalkOrder(a, b) != Greater && WalkOrder(b, c) != Greater ==> WalkOrder(a, c) != Greater
    ensures WalkOrder(a, b) == Less && WalkOrder(b, c) != Greater ==> WalkOrder(a, c) == Less
  {
    CompareFlips(Keys(a), Keys(b));
    CompareEqual(Keys(a), Keys(a));
    CompareEqual(Keys(a), Keys(b));
    if WalkOrder(a, b) == Less && WalkOrder(b, c) != Greater {
      CompareTransitive(Keys(a), Keys(b), Keys(c));
    }
  }

  lemma SortedSorts(all: seq<Found>)
    ensures InOrder(Sorted(all)) && multiset(Sorted(all)) == multiset(all)
  {
    forall a: Found, b: Found
      ensures NotAfter(a, b) || NotAfter(b, a)
    {
      OrderFacts(b.path, a.path, []);
    }
    forall a: Found, b: Found, c: Found | NotAfter(a, b) && NotAfter(b, c)
      ensures NotAfter(a, c)
    {
      OrderFacts(a.path, b.path, c.path);
    }
    SortSorts(all, NotAfter);
    assert forall i, j :: 0 <= i < j < |Sorted(all)| ==> NotAfter(Sorted(all)[i], Sorted(all)[j]);
  }

  lemma FirstAgrees(left: seq<Found>, right: seq<Found>)
    requires InOrder(left) && StrictlyInOrder(right) && multiset(left) == multiset(right) && left != [] && right != []
    ensures left[0] == right[0]
  {
    hide WalkOrder;
    assert left[0] in multiset(right) && right[0] in multiset(left);
    var j :| 0 <= j < |right| && right[j] == left[0];
    var i :| 0 <= i < |left| && left[i] == right[0];
    OrderFacts(right[0].path, left[0].path, []);
  }

  /** Two orders of the same entries agree if one has no two paths alike. */
  lemma {:induction false} SortedOnce(left: seq<Found>, right: seq<Found>)
    requires InOrder(left) && StrictlyInOrder(right) && multiset(left) == multiset(right)
    ensures left == right
    decreases |left|
  {
    hide WalkOrder;
    assert |multiset(left)| == |left| && |multiset(right)| == |right|;
    if left != [] {
      FirstAgrees(left, right);
      assert left == [left[0]] + left[1..] && right == [right[0]] + right[1..];
      assert multiset(left[1..]) == multiset(left) - multiset([left[0]]);
      assert multiset(right[1..]) == multiset(right) - multiset([right[0]]);
      SortedOnce(left[1..], right[1..]);
    }
  }

  // ----- the tables together hold every row

  function OneTableAfterAnother(rows: seq<Row>): seq<Found> {
    Shown(OfKind(rows, ADirectory)) + Shown(OfKind(rows, AFile)) + Shown(OfKind(rows, ASymlink))
  }

  lemma ShownPlus(a: seq<Row>, b: seq<Row>)
    ensures Shown(a + b) == Shown(a) + Shown(b)
  {
  }

  lemma {:induction false} TablesHoldAll(rows: seq<Row>)
    ensures multiset(OneTableAfterAnother(rows)) == multiset(Shown(rows))
    decreases |rows|
  {
    if rows != [] {
      var row, rest := rows[0], rows[1..];
      TablesHoldAll(rest);
      assert rows == [row] + rest;
      ShownPlus([row], rest);
      ShownPlus([row], OfKind(rest, KindOf(row.entry)));
      assert OfKind(rows, KindOf(row.entry)) == [row] + OfKind(rest, KindOf(row.entry));
      assert forall kind | kind != KindOf(row.entry) :: OfKind(rows, kind) == OfKind(rest, kind);
      hide OfKind, Shown;
      assert multiset(OneTableAfterAnother(rows)) == multiset(Shown([row])) + multiset(OneTableAfterAnother(rest));
    }
  }

  lemma ShownInOrder(rows: seq<Row>)
    requires Increasing(rows) && PlainRows(rows)
    ensures StrictlyInOrder(Shown(rows))
  {
    forall i, j | 0 <= i < j < |rows|
      ensures WalkOrder(Shown(rows)[i].path, Shown(rows)[j].path) == Less
    {
      WalkOrderIsByComponent(PathOf(rows[i]), PathOf(rows[j]));
    }
  }

  /** Sorting what the tables hold gives the rows in the order of the walk. */
  lemma EntriesAreTheRows(c: Content, rows: seq<Row>)
    requires Holds(c, rows) && Increasing(rows) && PlainRows(rows)
    ensures Sorted(Collected(c)) == Shown(rows)
  {
    SortedSorts(Collected(c));
    TablesHoldAll(rows);
    ShownInOrder(rows);
    SortedOnce(Sorted(Collected(c)), Shown(rows));
  }

  // ----- the first row

  lemma {:induction false} FirstOfKind(rows: seq<Row>, kind: Kind)
    ensures OfKind(rows, kind) != [] ==> exists i :: 0 <= i < |rows| && rows[i] == OfKind(rows, kind)[0]
    ensures rows != [] && KindOf(rows[0].entry) == kind ==> OfKind(rows, kind) != [] && OfKind(rows, kind)[0] == rows[0]
    decreases |rows|
  {
    if rows != [] {
      FirstOfKind(rows[1..], kind);
      if OfKind(rows[1..], kind) != [] && KindOf(rows[0].entry) != kind {
        var i :| 0 <= i < |rows[1..]| && rows[1..][i] == OfKind(rows[1..], kind)[0];
        assert rows[i + 1] == OfKind(rows, kind)[0];
      }
    }
  }

  lemma FirstIsNotAfter(rows: seq<Row>, kind: Kind)
    requires StrictlyInOrder(Shown(rows))
    ensures OfKind(rows, kind) != [] ==>
              && rows != []
              && var first := FirstOf(Shown(OfKind(rows, kind)));
                 first == FirstOf(Shown(rows)) || WalkOrder(Shown(rows)[0].path, first.value) == Less
    ensures rows != [] && KindOf(rows[0].entry) == kind ==> FirstOf(Shown(OfKind(rows, kind))) == FirstOf(Shown(rows))
    ensures OfKind(rows, kind) == [] ==> FirstOf(Shown(OfKind(rows, kind))) == None
  {
    hide OfKind, WalkOrder;
    FirstOfKind(rows, kind);
    if OfKind(rows, kind) != [] {
      var i :| 0 <= i < |rows| && rows[i] == OfKind(rows, kind)[0];
      assert Shown(rows)[i] == Shown(OfKind(rows, kind))[0];
    }
  }

  /** Among the first rows of the three tables, the earliest is the first row of the walk. */
  lemma FirstIsTheFirstRow(c: Content, rows: seq<Row>)
    requires Holds(c, rows) && Increasing(rows) && PlainRows(rows)
    ensures FirstPathOf(c) == FirstOf(Shown(rows))
  {
    ShownInOrder(rows);
    FirstIsNotAfter(rows, ADirectory);
    FirstIsNotAfter(rows, AFile);
    FirstIsNotAfter(rows, ASymlink);
    if rows == [] {
      assert OfKind(rows, ADirectory) == [] && OfKind(rows, AFile) == [] && OfKind(rows, ASymlink) == [];
    } else {
      assert KindOf(rows[0].entry) in {ADirectory, AFile, ASymlink};
      FlipFirst(rows);
    }
  }

  lemma FlipFirst(rows: seq<Row>)
    requires rows != []
    ensures forall other: seq<Byte> :: WalkOrder(Shown(rows)[0].path, other) == Less ==> WalkOrder(other, Shown(rows)[0].path) == Greater
    ensures WalkOrder(Shown(rows)[0].path, Shown(rows)[0].path) == Equal
  {
    forall other: seq<Byte> | WalkOrder(Shown(rows)[0].path, other) == Less
      ensures WalkOrder(other, Shown(rows)[0].path) == Greater
    {
      OrderFacts(Shown(rows)[0].path, other, other);
    }
    OrderFacts(Shown(rows)[0].path, [], []);
  }
}
