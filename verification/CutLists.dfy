/** Rows by where they are: ranges of scans and whole subtrees, never copied before a part is built. */
module CutLists {
  import opened Tree
  import opened Delivery

  /** Neighbouring rows of the walk: items of one scan, or all of a subtree. */
  datatype RowSource =
    | Range(rows: Rows, from: nat, to: nat, depth: nat, count: nat)
    | Subtree(scans: seq<Scanned>, depth: nat, count: nat)

  /** A part before it is built: where its first row lies, and its rows. */
  datatype CutList = CutList(stem: Path, sources: seq<RowSource>)

  /** A row as a source knows it: how many directories are above it, and its entry. */
  datatype Line = Line(depth: nat, entry: Entry)

  function ItemLines(items: seq<Item>, depth: nat): seq<Line> {
    if items == [] then []
    else (if items[0].Recorded? then [Line(depth, items[0].entry)] else []) + ItemLines(items[1..], depth)
  }

  function Lines(depth: nat, nodes: seq<Node>): seq<Line>
    decreases nodes
  {
    if nodes == [] then []
    else [Line(depth, nodes[0].entry)] + Lines(depth + 1, nodes[0].children) + Lines(depth, nodes[1..])
  }

  function Strip(rows: seq<Row>): seq<Line> {
    seq(|rows|, i requires 0 <= i < |rows| => Line(|rows[i].dir|, rows[i].entry))
  }

  /** A range of items with as many rows as it says, perhaps none. */
  predicate RangeOk(range: RowSource) {
    && range.Range?
    && range.from <= range.to <= |range.rows.items|
    && range.count == |RangeLines(range)|
  }

  function RangeLines(range: RowSource): seq<Line>
    requires range.Range? && range.from <= range.to <= |range.rows.items|
  {
    ItemLines(range.rows.items[range.from..range.to], range.depth)
  }

  predicate SourceOk(source: RowSource) {
    && source.count > 0
    && match source
       case Range(_, _, _, _, _) => RangeOk(source)
       case Subtree(scans, depth, count) => Folds(scans) && count == CountAll(Folded(scans))
  }

  function SourceLines(source: RowSource): seq<Line>
    requires SourceOk(source)
  {
    match source
    case Range(_, _, _, _, _) => RangeLines(source)
    case Subtree(scans, depth, _) => Lines(depth, Folded(scans))
  }

  predicate SourcesOk(sources: seq<RowSource>) {
    forall i :: 0 <= i < |sources| ==> SourceOk(sources[i])
  }

  function Flat(sources: seq<RowSource>): seq<Line>
    requires SourcesOk(sources)
  {
    if sources == [] then [] else SourceLines(sources[0]) + Flat(sources[1..])
  }

  /** Row `at` starts a source or lies inside a range: a part may end before it. */
  predicate Cuttable(sources: seq<RowSource>, at: nat) {
    at == 0 ||
    (sources != [] &&
     if sources[0].count <= at then Cuttable(sources[1..], at - sources[0].count) else sources[0].Range?)
  }

  // ----- rows and their directories

  /** Each row lies in a directory of the chain that is open when it comes. */
  ghost predicate Linked(dirs: Path, rows: seq<Row>)
    decreases |rows|
  {
    rows == [] || (rows[0].dir <= dirs && Linked(Below(dirs, rows[0]), rows[1..]))
  }

  /** The chain of open directories after a row: a directory row replaces what was at its depth. */
  function Below(dirs: Path, row: Row): Path {
    if row.entry.Directory? then PathOf(row) else dirs
  }

  function EndOf(dirs: Path, rows: seq<Row>): Path
    decreases |rows|
  {
    if rows == [] then dirs else EndOf(Below(dirs, rows[0]), rows[1..])
  }

  /** `cut` stands for `rows`: the stem and the depths place each row in its directory. */
  ghost predicate Means(cut: CutList, rows: seq<Row>) {
    && rows != []
    && cut.stem == rows[0].dir
    && Linked(cut.stem, rows)
    && SourcesOk(cut.sources)
    && Flat(cut.sources) == Strip(rows)
  }

  /** The stem and the depths leave no choice. */
  lemma {:induction false} LinkedOnce(dirs: Path, left: seq<Row>, right: seq<Row>)
    requires Linked(dirs, left) && Linked(dirs, right) && Strip(left) == Strip(right)
    ensures left == right
    decreases |left|
  {
    assert |Strip(left)| == |left| && |Strip(right)| == |right|;
    if left != [] {
      assert Strip(left)[0] == Strip(right)[0];
      assert left[0] == right[0];
      assert Strip(left[1..]) == Strip(left)[1..] && Strip(right[1..]) == Strip(right)[1..];
      LinkedOnce(Below(dirs, left[0]), left[1..], right[1..]);
      assert left == [left[0]] + left[1..] && right == [right[0]] + right[1..];
    }
  }

  lemma {:induction false} LinkedPlus(dirs: Path, a: seq<Row>, b: seq<Row>)
    ensures Linked(dirs, a + b) <==> Linked(dirs, a) && Linked(EndOf(dirs, a), b)
    ensures EndOf(dirs, a + b) == EndOf(EndOf(dirs, a), b)
    decreases |a|
  {
    if a == [] {
      assert a + b == b;
    } else {
      assert (a + b)[1..] == a[1..] + b;
      LinkedPlus(Below(dirs, a[0]), a[1..], b);
    }
  }

  /** A forest of well-kinded nodes, below a directory that is open. */
  lemma {:induction false} LinkedPre(dirs: Path, dir: Path, nodes: seq<Node>)
    requires dir <= dirs && Kinds(nodes)
    ensures Linked(dirs, Pre(dir, nodes)) && dir <= EndOf(dirs, Pre(dir, nodes))
    decreases nodes
  {
    if nodes != [] {
      var own := Row(dir, nodes[0].entry);
      var below, after := Pre(dir + [nodes[0].entry.name], nodes[0].children), Pre(dir, nodes[1..]);
      if own.entry.Directory? {
        LinkedPre(PathOf(own), PathOf(own), nodes[0].children);
      } else {
        assert below == [];
      }
      assert [own][1..] == [];
      assert EndOf(dirs, [own]) == EndOf(Below(dirs, own), []) == Below(dirs, own);
      assert Linked(dirs, [own]);
      LinkedPlus(dirs, [own], below);
      var end := EndOf(dirs, [own] + below);
      assert dir <= end;
      LinkedPre(end, dir, nodes[1..]);
      LinkedPlus(dirs, [own] + below, after);
    }
  }

  lemma StripPlus(a: seq<Row>, b: seq<Row>)
    ensures Strip(a + b) == Strip(a) + Strip(b)
  {
  }

  lemma {:induction false} StripPre(dir: Path, nodes: seq<Node>)
    ensures Strip(Pre(dir, nodes)) == Lines(|dir|, nodes)
    decreases nodes
  {
    if nodes != [] {
      var own := Row(dir, nodes[0].entry);
      var below := Pre(dir + [nodes[0].entry.name], nodes[0].children);
      StripPre(dir + [nodes[0].entry.name], nodes[0].children);
      StripPre(dir, nodes[1..]);
      StripPlus([own], below);
      StripPlus([own] + below, Pre(dir, nodes[1..]));
      assert Strip([own]) == [Line(|dir|, own.entry)];
    }
  }

  lemma {:induction false} LinesLength(depth: nat, nodes: seq<Node>)
    ensures |Lines(depth, nodes)| == CountAll(nodes)
    decreases nodes
  {
    if nodes != [] {
      LinesLength(depth + 1, nodes[0].children);
      LinesLength(depth, nodes[1..]);
    }
  }

  // ----- sources

  lemma SourceLength(source: RowSource)
    requires SourceOk(source)
    ensures |SourceLines(source)| == source.count
  {
    if source.Subtree? {
      LinesLength(source.depth, Folded(source.scans));
    }
  }

  lemma {:induction false} FlatPlus(a: seq<RowSource>, b: seq<RowSource>)
    requires SourcesOk(a) && SourcesOk(b)
    ensures SourcesOk(a + b) && Flat(a + b) == Flat(a) + Flat(b)
    decreases |a|
  {
    if a == [] {
      assert a + b == b;
    } else {
      assert (a + b)[1..] == a[1..] + b;
      FlatPlus(a[1..], b);
      PlusAssociates(SourceLines(a[0]), Flat(a[1..]), Flat(b));
    }
  }

  lemma FlatOne(source: RowSource)
    requires SourceOk(source)
    ensures Flat([source]) == SourceLines(source)
  {
    assert [source][1..] == [];
  }

  lemma {:induction false} ItemLinesPlus(a: seq<Item>, b: seq<Item>, depth: nat)
    ensures ItemLines(a + b, depth) == ItemLines(a, depth) + ItemLines(b, depth)
    decreases |a|
  {
    if a == [] {
      assert a + b == b;
    } else {
      assert (a + b)[1..] == a[1..] + b;
      var first := if a[0].Recorded? then [Line(depth, a[0].entry)] else [];
      ItemLinesPlus(a[1..], b, depth);
      PlusAssociates(first, ItemLines(a[1..], depth), ItemLines(b, depth));
    }
  }

  lemma {:induction false} ItemsDepth(items: seq<Item>, depth: nat)
    ensures forall line <- ItemLines(items, depth) :: line.depth == depth
    decreases |items|
  {
    if items != [] {
      ItemsDepth(items[1..], depth);
    }
  }

  /** A cut that was possible stays possible as rows are added behind it. */
  lemma {:induction false} CuttableGrows(sources: seq<RowSource>, more: seq<RowSource>, at: nat)
    requires Cuttable(sources, at)
    ensures Cuttable(sources + more, at)
    decreases |sources|
  {
    if at != 0 {
      assert (sources + more)[1..] == sources[1..] + more;
      if sources[0].count <= at {
        CuttableGrows(sources[1..], more, at - sources[0].count);
      }
    }
  }

  /** The end of what is waiting is always a place to cut. */
  lemma {:induction false} CuttableEnd(sources: seq<RowSource>)
    requires SourcesOk(sources)
    ensures Cuttable(sources, |Flat(sources)|)
    decreases |sources|
  {
    if sources != [] {
      SourceLength(sources[0]);
      CuttableEnd(sources[1..]);
    }
  }

  /** A longer last range changes nothing before it. */
  lemma {:induction false} CuttableExtends(init: seq<RowSource>, last: RowSource, longer: RowSource, at: nat)
    requires last.Range? && longer.Range? && last.count <= longer.count
    requires Cuttable(init + [last], at)
    ensures Cuttable(init + [longer], at)
    decreases |init|
  {
    if at != 0 && init != [] {
      assert (init + [last])[1..] == init[1..] + [last];
      assert (init + [longer])[1..] == init[1..] + [longer];
      if init[0].count <= at {
        CuttableExtends(init[1..], last, longer, at - init[0].count);
      }
    } else if at != 0 {
      assert (init + [last])[0] == last && (init + [longer])[0] == longer;
      assert (init + [last])[1..] == [];
    }
  }

  /** Places to cut that lie behind the first `count` rows of `before` are places to cut `after`. */
  ghost predicate KeepsCuts(before: seq<RowSource>, after: seq<RowSource>, count: nat) {
    forall at: nat :: count <= at && Cuttable(before, at) ==> Cuttable(after, at - count)
  }

  lemma KeepsCutsTwice(a: seq<RowSource>, b: seq<RowSource>, c: seq<RowSource>, first: nat, second: nat)
    requires KeepsCuts(a, b, first) && KeepsCuts(b, c, second)
    ensures KeepsCuts(a, c, first + second)
  {
    forall at: nat | first + second <= at && Cuttable(a, at)
      ensures Cuttable(c, at - (first + second))
    {
      assert Cuttable(b, at - first);
    }
  }

  lemma PopKeepsCuts(sources: seq<RowSource>)
    requires sources != [] && sources[0].count > 0
    ensures KeepsCuts(sources, sources[1..], sources[0].count)
  {
  }

  lemma SplitKeepsCuts(sources: seq<RowSource>, head: RowSource, tail: RowSource)
    requires sources != [] && tail.Range? && head.count + tail.count == sources[0].count
    ensures KeepsCuts(sources, [tail] + sources[1..], head.count)
  {
    assert ([tail] + sources[1..])[1..] == sources[1..];
  }

  // ----- the two operations on sources

  /** Splits the first `count` rows off `range`. */
  method SplitOffFront(range: RowSource, count: nat) returns (front: RowSource, back: RowSource)
    requires RangeOk(range) && count <= range.count
    ensures RangeOk(front) && RangeOk(back)
    ensures front.count == count && back.count == range.count - count
    ensures RangeLines(range) == RangeLines(front) + RangeLines(back)
  {
    hide Folds, Folded, CountAll, Lines, ItemLines;
    ghost var items := range.rows.items;
    var seen, at := 0, range.from;
    LinesBefore(items, range.from, range.from, range.depth);
    while seen < count
      invariant range.from <= at <= range.to && seen <= count
      invariant seen == |ItemLines(items[range.from..at], range.depth)|
      decreases range.to - at
    {
      LinesSplit(items, range.from, at, range.to, range.depth);
      LinesBefore(items, range.from, at, range.depth);
      seen := seen + (if range.rows.items[at].Recorded? then 1 else 0);
      at := at + 1;
    }
    LinesSplit(items, range.from, at, range.to, range.depth);
    front := Range(range.rows, range.from, at, range.depth, count);
    back := Range(range.rows, at, range.to, range.depth, range.count - count);
  }

  lemma RangeIsSource(range: RowSource)
    requires RangeOk(range) && range.count > 0
    ensures SourceOk(range) && SourceLines(range) == RangeLines(range)
  {
  }

  lemma LinesSplit(items: seq<Item>, from: nat, at: nat, to: nat, depth: nat)
    requires from <= at <= to <= |items|
    ensures ItemLines(items[from..to], depth) == ItemLines(items[from..at], depth) + ItemLines(items[at..to], depth)
    ensures at == to ==> ItemLines(items[at..to], depth) == []
  {
    assert items[from..to] == items[from..at] + items[at..to];
    ItemLinesPlus(items[from..at], items[at..to], depth);
  }

  /** How many lines there are before an item, and with it. */
  lemma LinesBefore(items: seq<Item>, from: nat, at: nat, depth: nat)
    requires from <= at <= |items|
    ensures at == from ==> ItemLines(items[from..at], depth) == []
    ensures at < |items| ==>
              |ItemLines(items[from..at + 1], depth)|
              == |ItemLines(items[from..at], depth)| + if items[at].Recorded? then 1 else 0
  {
    if at < |items| {
      var item := items[at];
      assert items[from..at + 1] == items[from..at] + [item];
      ItemLinesPlus(items[from..at], [item], depth);
      assert [item][1..] == [];
      assert ItemLines([item], depth) == if item.Recorded? then [Line(depth, item.entry)] else [];
    }
  }

  /** One more item of the same scan behind the last range. */
  lemma Lengthens(init: seq<RowSource>, last: RowSource, longer: RowSource)
    requires SourcesOk(init) && SourceOk(last) && last.Range?
    requires last.to < |last.rows.items| && last.rows.items[last.to].Recorded?
    requires longer == last.(to := last.to + 1, count := last.count + 1)
    ensures SourcesOk(init + [last]) && SourcesOk(init + [longer])
    ensures Flat(init + [longer]) == Flat(init + [last]) + [Line(last.depth, last.rows.items[last.to].entry)]
  {
    hide SourceOk, SourceLines, Flat;
    LongerRange(last, longer);
    FlatPlus(init, [last]);
    FlatPlus(init, [longer]);
    FlatOne(last);
    FlatOne(longer);
    PlusAssociates(Flat(init), SourceLines(last), [Line(last.depth, last.rows.items[last.to].entry)]);
  }

  lemma LongerRange(last: RowSource, longer: RowSource)
    requires SourceOk(last) && last.Range?
    requires last.to < |last.rows.items| && last.rows.items[last.to].Recorded?
    requires longer == last.(to := last.to + 1, count := last.count + 1)
    ensures SourceOk(longer)
    ensures SourceLines(longer) == SourceLines(last) + [Line(last.depth, last.rows.items[last.to].entry)]
  {
    hide ItemLines;
    var items := last.rows.items;
    var item := items[last.to];
    assert items[last.from..last.to + 1] == items[last.from..last.to] + [item];
    ItemLinesPlus(items[last.from..last.to], [item], last.depth);
    ItemLine(item, last.depth);
  }

  lemma ItemLine(item: Item, depth: nat)
    requires item.Recorded?
    ensures ItemLines([item], depth) == [Line(depth, item.entry)]
  {
    assert [item][1..] == [];
  }

  /** A range of the same rows that goes up to the item. */
  predicate EndsBefore(last: RowSource, rows: Rows, index: nat, depth: nat) {
    last.Range? && last.to == index && last.depth == depth && last.rows == rows
  }

  /** Adds item `index` of `rows`, found at `depth`, behind `waiting`: to its last range if that goes on here. */
  method Extend(waiting: seq<RowSource>, rows: Rows, index: nat, depth: nat) returns (longer: seq<RowSource>)
    requires SourcesOk(waiting) && index < |rows.items| && rows.items[index].Recorded?
    ensures SourcesOk(longer)
    ensures Flat(longer) == Flat(waiting) + [Line(depth, rows.items[index].entry)]
    ensures |longer| == |waiting| + if waiting != [] && EndsBefore(waiting[|waiting| - 1], rows, index, depth) then 0 else 1
    ensures KeepsCuts(waiting, longer, 0)
  {
    hide Folds, Folded, CountAll, Lines, ItemLines, Flat;
    if waiting != [] {
      var last := waiting[|waiting| - 1];
      if last.Range? && last.to == index && last.depth == depth && last.rows == rows {
        var more := last.(to := index + 1, count := last.count + 1);
        longer := waiting[|waiting| - 1 := more];
        ghost var init := waiting[..|waiting| - 1];
        assert waiting == init + [last] && longer == init + [more];
        Lengthens(init, last, more);
        forall at: nat | Cuttable(waiting, at)
          ensures Cuttable(longer, at)
        {
          CuttableExtends(init, last, more, at);
        }
        return;
      }
    }
    var range := Range(rows, index, index + 1, depth, 1);
    longer := waiting + [range];
    assert rows.items[index..index + 1] == [rows.items[index]];
    ItemLine(rows.items[index], depth);
    FlatOne(range);
    FlatPlus(waiting, [range]);
    forall at: nat | Cuttable(waiting, at)
      ensures Cuttable(longer, at)
    {
      CuttableGrows(waiting, [range], at);
    }
  }
}
