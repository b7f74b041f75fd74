/** The scans of one directory: its windows one after another, and the count of what was skipped. */
module Scanning {
  import opened Tree
  import opened Delivery
  import opened Tape
  import opened Listings
  import opened Windows
  import opened Scan

  // ----- the windows of one directory

  /** The items of the windows that start there: under `fail`, nothing after a window with a failure. */
  function Joined(d: Disk, ahead: nat -> bool, starts: seq<nat>, stop: nat): seq<Item>
    requires stop <= |d.entries| && Tiled(d.entries, starts, stop)
  {
    var items := NotedRange(d, ahead, starts[0], EndOf(starts, stop, 0));
    if |starts| == 1 || (d.fail && HasFailure(items)) then items
    else items + Joined(d, ahead, Later(d.entries, starts, stop), stop)
  }

  function Later(listing: seq<Listed>, starts: seq<nat>, stop: nat): (later: seq<nat>)
    requires Tiled(listing, starts, stop) && |starts| > 1
    ensures Tiled(listing, later, stop) && |later| < |starts|
  {
    assert forall i :: 0 <= i < |starts| - 1 ==> EndOf(starts[1..], stop, i) == EndOf(starts, stop, i + 1);
    starts[1..]
  }

  /** Reading on where the last read ended is reading in one go. */
  lemma {:induction false} NotedPlus(d: Disk, ahead: nat -> bool, start: nat, middle: nat, end: nat)
    requires start <= middle <= end <= |d.entries|
    ensures NotedRange(d, ahead, start, end)
         == NotedRange(d, ahead, start, middle)
            + if d.fail && HasFailure(NotedRange(d, ahead, start, middle)) then [] else NotedRange(d, ahead, middle, end)
    decreases middle - start
  {
    hide Noted;
    if start < middle {
      var first := Noted(d, ahead(start), start);
      NotedPlus(d, ahead, start + 1, middle, end);
      FailureInFront(first, NotedRange(d, ahead, start + 1, middle));
      PlusAssociates(first, NotedRange(d, ahead, start + 1, middle),
                     if d.fail && HasFailure(NotedRange(d, ahead, start + 1, middle)) then [] else NotedRange(d, ahead, middle, end));
      assert first + [] == first;
    } else {
      assert [] + NotedRange(d, ahead, middle, end) == NotedRange(d, ahead, middle, end);
    }
  }

  lemma FailureInFront(a: seq<Item>, b: seq<Item>)
    ensures HasFailure(a + b) <==> HasFailure(a) || HasFailure(b)
  {
    if HasFailure(a) {
      var i :| 0 <= i < |a| && a[i].Failed?;
      assert (a + b)[i].Failed?;
    }
    if HasFailure(b) {
      var i :| 0 <= i < |b| && b[i].Failed?;
      assert (a + b)[|a| + i].Failed?;
    }
  }

  /** However a directory is cut into windows, its scans note what one scan of the whole listing would. */
  lemma {:induction false} ScansAreOneScan(d: Disk, ahead: nat -> bool, starts: seq<nat>)
    requires Tiled(d.entries, starts, |d.entries|)
    ensures starts[0] <= |d.entries| && Joined(d, ahead, starts, |d.entries|) == NotedRange(d, ahead, starts[0], |d.entries|)
    decreases |starts|
  {
    hide NotedRange;
    hide IsWindow;
    var stop := |d.entries|;
    assert IsWindow(d.entries, starts[0], EndOf(starts, stop, 0));
    WindowInside(d.entries, starts[0], EndOf(starts, stop, 0));
    if |starts| > 1 {
      ScansAreOneScan(d, ahead, Later(d.entries, starts, stop));
      NotedPlus(d, ahead, starts[0], starts[1], stop);
      assert NotedRange(d, ahead, starts[0], starts[1]) + [] == NotedRange(d, ahead, starts[0], starts[1]);
    }
  }

  // ----- what was skipped

  /** One count for each reason. */
  datatype Skips = Skips(special: nat, nonUtf8: nat, unreadable: nat, failed: nat)

  function With(s: Skips, reason: SkipReason): Skips {
    match reason
    case Special => s.(special := s.special + 1)
    case NonUtf8 => s.(nonUtf8 := s.nonUtf8 + 1)
    case NotOpened => s.(unreadable := s.unreadable + 1)
    case ReadFailed => s.(failed := s.failed + 1)
  }

  /** The counts after each item that is skipped, or under `Skip` failed, was counted once. */
  function Counted(s: Skips, items: seq<Item>, fail: bool): Skips
    decreases |items|
  {
    if items == [] then s else CountedOne(Counted(s, items[..|items| - 1], fail), items[|items| - 1], fail)
  }

  function CountedOne(s: Skips, item: Item, fail: bool): Skips {
    match item
    case Recorded(_) => s
    case Skipped(_, reason) => With(s, reason)
    case Failed(_) => if fail then s else With(s, ReadFailed)
  }

  lemma CountedMore(s: Skips, items: seq<Item>, from: nat, i: nat, fail: bool)
    requires from <= i <= |items|
    ensures i < |items| ==> Counted(s, items[from..i + 1], fail) == CountedOne(Counted(s, items[from..i], fail), items[i], fail)
    ensures i == from ==> Counted(s, items[from..i], fail) == s
    ensures i == |items| ==> items[from..i] == items[from..]
  {
    if i < |items| {
      var more := items[from..i + 1];
      assert more[..|more| - 1] == items[from..i] && more[|more| - 1] == items[i];
    }
  }

  /** Rows alone change no count. */
  lemma {:induction false} RowsCountNothing(s: Skips, items: seq<Item>, fail: bool)
    requires forall i :: 0 <= i < |items| ==> items[i].Recorded?
    ensures Counted(s, items, fail) == s
    decreases |items|
  {
    if items != [] {
      RowsCountNothing(s, items[..|items| - 1], fail);
    }
  }

  /** An item was left out for this reason; a failed one counts as such only if the scan goes on behind it. */
  predicate IsLeftOut(item: Item, reason: SkipReason, fail: bool) {
    if item.Failed? then !fail && reason == ReadFailed else item.Skipped? && item.reason == reason
  }

  function LeftOut(items: seq<Item>, reason: SkipReason, fail: bool): set<int> {
    set i | 0 <= i < |items| && IsLeftOut(items[i], reason, fail)
  }

  lemma LeftOutMore(items: seq<Item>, last: Item, reason: SkipReason, fail: bool)
    ensures |LeftOut(items + [last], reason, fail)| == |LeftOut(items, reason, fail)| + if IsLeftOut(last, reason, fail) then 1 else 0
  {
    hide IsLeftOut;
    var more, own := LeftOut(items + [last], reason, fail), if IsLeftOut(last, reason, fail) then {|items|} else {};
    assert more == LeftOut(items, reason, fail) + own;
  }

  /** Each count goes up by the number of items that were left out for its reason. */
  lemma {:induction false} CountsAreNumbers(s: Skips, items: seq<Item>, fail: bool)
    ensures var counts := Counted(s, items, fail);
            && counts.special == s.special + |LeftOut(items, Special, fail)|
            && counts.nonUtf8 == s.nonUtf8 + |LeftOut(items, NonUtf8, fail)|
            && counts.unreadable == s.unreadable + |LeftOut(items, NotOpened, fail)|
            && counts.failed == s.failed + |LeftOut(items, ReadFailed, fail)|
    decreases |items|
  {
    if items != [] {
      var front, last := items[..|items| - 1], items[|items| - 1];
      assert front + [last] == items;
      CountsAreNumbers(s, front, fail);
      LeftOutMore(front, last, Special, fail);
      LeftOutMore(front, last, NonUtf8, fail);
      LeftOutMore(front, last, NotOpened, fail);
      LeftOutMore(front, last, ReadFailed, fail);
    }
  }

  // ----- a scan

  /** How opening and listing a directory went; `failures` are the entries that could not be listed. */
  datatype Answer = NotReadable | Opened(failures: seq<Option<Name>>)

  /** A scan to be made: of a directory, or of the rest of one that was listed before. */
  datatype Work = Anew(answer: Answer) | From(start: nat)

  function FailedItems(names: seq<Option<Name>>): seq<Item> {
    seq(|names|, i requires 0 <= i < |names| => Item.Failed(names[i]))
  }

  /** A window from `start` on, and where the next one starts if there is one. */
  predicate Reaches(listing: seq<Listed>, start: nat, end: nat, next: Option<nat>) {
    start <= end <= |listing| && IsWindow(listing, start, end) && next == if end < |listing| then Some(end) else None
  }

  /** What a scan is to note, which scans of the rest are to follow, and where the next one starts. */
  ghost predicate Notes(d: Disk, ahead: nat -> bool, work: Work, items: seq<Item>, rest: seq<nat>, next: Option<nat>) {
    match work
    case From(start) =>
      rest == [] && exists end :: Reaches(d.entries, start, end, next) && items == NotedRange(d, ahead, start, end)
    case Anew(NotReadable) => items == [] && rest == [] && next == None
    case Anew(Opened(failures)) =>
      if d.fail && failures != [] then items == [Item.Failed(failures[0])] && rest == [] && next == None
      else
        && Tiled(d.entries, [0] + rest, |d.entries|) && (forall i :: 0 <= i < |rest| ==> rest[i] < |d.entries|)
        && exists end :: Reaches(d.entries, 0, end, next) && items == FailedItems(failures) + NotedRange(d, ahead, 0, end)
  }

  /** The start of the next window that a scan notes is that of the next of the scans that were announced, if there is one. */
  lemma NextIsAnnounced(d: Disk, ahead: nat -> bool, rest: seq<nat>, i: nat, items: seq<Item>, next: Option<nat>)
    requires Tiled(d.entries, [0] + rest, |d.entries|) && (forall j :: 0 <= j < |rest| ==> rest[j] < |d.entries|) && i <= |rest|
    requires if i > 0 then Notes(d, ahead, From(rest[i - 1]), items, [], next)
             else exists failures :: (d.fail ==> failures == []) && Notes(d, ahead, Anew(Opened(failures)), items, rest, next)
    ensures next == if i < |rest| then Some(rest[i]) else None
  {
    hide IsWindow, NotedRange, FailedItems;
    var starts, listing := [0] + rest, d.entries;
    var end :| Reaches(listing, starts[i], end, next);
    WindowsAreUnique(listing, starts[i], end, EndOf(starts, |listing|, i));
    if i < |rest| {
      assert IsWindow(listing, starts[i + 1], EndOf(starts, |listing|, i + 1));
    }
  }

  function NamesNeed(names: seq<Option<Name>>): nat {
    if names == [] then 0 else (if names[0].Some? then |names[0].value| else 0) + NamesNeed(names[1..])
  }

  /** No more text than this is added by a scan. */
  function WorkNeeds(d: Disk, work: Work): nat
    requires work.From? ==> work.start <= |d.entries|
  {
    match work
    case From(start) => RangeNeeds(d, start, |d.entries|)
    case Anew(NotReadable) => 0
    case Anew(Opened(failures)) => NamesNeed(failures) + |d.names| + RangeNeeds(d, 0, |d.entries|)
  }

  lemma {:induction false} FewerNeeds(d: Disk, start: nat, end: nat)
    requires start <= end <= |d.entries|
    ensures RangeNeeds(d, start, end) <= RangeNeeds(d, start, |d.entries|)
    decreases end - start
  {
    hide Needs;
    if start < end {
      FewerNeeds(d, start + 1, end);
    }
  }

  class Scanner {
    var skips: Skips

    constructor ()
      ensures skips == Skips(0, 0, 0, 0)
    {
      skips := Skips(0, 0, 0, 0);
    }

    /**
     * Makes a scan and counts what it skipped, once for each; `progress` says whether a receiver wants to hear of
     * every row, and `root` whether the directory is the root of the walk. `lost` is set if something was left out
     * because the text would have passed 4 GiB.
     */
    method ScanInto(d: Disk, work: Work, root: bool, progress: bool, ahead: nat -> bool, reading: Reading)
      returns (rest: seq<nat>, plain: bool, ghost added: seq<Item>, ghost next: Option<nat>, ghost lost: bool)
      requires reading.Valid() && Complete(d) && (work.From? ==> work.start <= |d.entries|)
      modifies this, reading
      ensures reading.Valid() && reading.Items() == old(reading.Items()) + added
      ensures !lost ==> Notes(d, ahead, work, added, rest, next)
      ensures lost ==> old(|reading.text|) + WorkNeeds(d, work) > U32_MAX
      ensures reading.next == if next.Some? then next else old(reading.next)
      ensures reading.unreadable == (old(reading.unreadable) || work == Anew(NotReadable))
      ensures var once := if !old(reading.unreadable) && work == Anew(NotReadable) && !d.fail && !root then With(old(skips), NotOpened) else old(skips);
              skips == Counted(once, added, d.fail)
      ensures plain <==> rest == [] && !reading.unreadable && reading.next.None? && forall i :: 0 <= i < |added| ==> added[i].Recorded?
    {
      ghost var before := reading.Items();
      assert |before| == |reading.notes|;
      hide Notes, WorkNeeds, Complete, Counted, Meanings, NotingsOk;
      var from, count := |reading.notes|, reading.count;
      var unreadable := reading.unreadable;
      rest, added, next, lost := Fill(d, work, ahead, reading);
      AddedCount(reading, before, added, from, count);
      var clean := reading.count - count == |reading.notes| - from;
      if !clean || progress || (!unreadable && reading.unreadable) {
        Report(d.fail, root, reading, from, !unreadable);
      } else {
        RowsCountNothing(skips, added, d.fail);
      }
      plain := rest == [] && !reading.unreadable && reading.next.None? && clean;
    }

    /** Counts what a scan skipped; `first` is false if the scan found the reading unreadable already. */
    method Report(fail: bool, root: bool, reading: Reading, from: nat, first: bool)
      requires from <= |reading.Items()|
      modifies this
      ensures var once := if first && reading.unreadable && !fail && !root then With(old(skips), NotOpened) else old(skips);
              skips == Counted(once, reading.Items()[from..], fail)
    {
      hide Counted;
      if first && reading.unreadable && !fail && !root {
        skips := With(skips, NotOpened);
      }
      ghost var once := skips;
      ghost var items := reading.Items();
      CountedMore(once, items, from, from, fail);
      for i := from to |reading.notes|
        invariant items == reading.Items() && |items| == |reading.notes|
        invariant skips == Counted(once, items[from..i], fail)
      {
        CountedMore(once, items, from, i, fail);
        assert items[i] == Meaning(reading.text, reading.notes[i]);
        if reading.notes[i].SkipNote? {
          skips := With(skips, reading.notes[i].reason);
        } else if reading.notes[i].FailNote? && !fail {
          skips := With(skips, ReadFailed);
        }
      }
      CountedMore(once, items, from, |items|, fail);
    }
  }

  /** How many of the items a scan added are rows. */
  lemma AddedCount(reading: Reading, before: seq<Item>, added: seq<Item>, from: nat, count: nat)
    requires reading.Valid() && reading.Items() == before + added && |before| == from && count == RowCount(before)
    ensures |reading.notes| == from + |added| && reading.Items()[from..] == added
    ensures reading.count >= count
    ensures reading.count - count == |added| <==> forall i :: 0 <= i < |added| ==> added[i].Recorded?
  {
    SumsPlus(before, added);
    RowsAreItems(added);
    assert |reading.Items()| == |reading.notes|;
  }

  lemma FailedMore(failures: seq<Option<Name>>, i: nat)
    requires i < |failures|
    ensures FailedItems(failures[..i + 1]) == FailedItems(failures[..i]) + [Item.Failed(failures[i])]
  {
  }

  lemma NamesStep(failures: seq<Option<Name>>, i: nat)
    requires i < |failures|
    ensures NamesNeed(failures[i..]) == (if failures[i].Some? then |failures[i].value| else 0) + NamesNeed(failures[i + 1..])
  {
    assert failures[i..][1..] == failures[i + 1..];
  }

  /** The first failures of a listing were noted, unless the text is too long for their names. */
  ghost predicate FailuresRead(failures: seq<Option<Name>>, i: nat, before: seq<Item>, was: seq<Byte>, items: seq<Item>, text: seq<Byte>, lost: bool) {
    && i <= |failures| && was <= text && before <= items
    && |text| + NamesNeed(failures[i..]) <= |was| + NamesNeed(failures)
    && if lost then |was| + NamesNeed(failures) > U32_MAX else items == before + FailedItems(failures[..i])
  }

  lemma NoFailures(failures: seq<Option<Name>>, before: seq<Item>, was: seq<Byte>)
    ensures FailuresRead(failures, 0, before, was, before, was, false)
  {
    assert failures[0..] == failures && before + FailedItems(failures[..0]) == before;
  }

  lemma AllFailures(failures: seq<Option<Name>>, before: seq<Item>, was: seq<Byte>, items: seq<Item>, text: seq<Byte>, lost: bool)
    requires FailuresRead(failures, |failures|, before, was, items, text, lost)
    ensures was <= text && before <= items && |text| <= |was| + NamesNeed(failures)
    ensures if lost then |was| + NamesNeed(failures) > U32_MAX else items == before + FailedItems(failures)
  {
    assert failures[..|failures|] == failures;
  }

  /** Notes an entry that could not be listed, without its name if the text has no room for it. */
  method FailListed(failures: seq<Option<Name>>, i: nat, reading: Reading, ghost before: seq<Item>, ghost was: seq<Byte>, ghost lost: bool)
    returns (ghost later: bool)
    requires reading.Valid() && i < |failures|
    requires FailuresRead(failures, i, before, was, reading.Items(), reading.text, lost)
    modifies reading`text, reading`notes, reading`errors
    ensures reading.Valid()
    ensures FailuresRead(failures, i + 1, before, was, reading.Items(), reading.text, later)
  {
    hide Meanings, NotingsOk, AddsUp, TextOf, FailedItems, NamesNeed;
    FailedMore(failures, i);
    NamesStep(failures, i);
    ghost var items, text := reading.Items(), reading.text;
    var span: Option<Span> := None;
    if failures[i].Some? {
      span := reading.AddText(failures[i].value);
    }
    reading.Note(FailNote(span));
    later := lost || (failures[i].Some? && span.None?);
    if !later {
      PlusAssociates(before, FailedItems(failures[..i]), [Item.Failed(failures[i])]);
    }
  }

  /** Copies all names of a listing that is read in one window to the text, if they are text and there is room. */
  method CopyNames(d: Disk, whole: bool, reading: Reading) returns (copied: Option<nat>)
    requires reading.Valid()
    modifies reading`text
    ensures reading.Valid() && reading.Items() == old(reading.Items()) && old(reading.text) <= reading.text
    ensures |reading.text| <= old(|reading.text|) + |d.names|
    ensures copied.Some? <==> whole && d.text && old(|reading.text|) + |d.names| <= U32_MAX
    ensures copied.Some? ==> Copied(d, reading.text, copied.value)
    ensures copied.None? ==> reading.text == old(reading.text)
  {
    copied := None;
    if whole && d.text {
      var span := reading.AddText(d.names);
      if span.Some? {
        copied := Some(span.value.start);
      }
    }
  }

  /** Opens and lists the directory if that is still to be done, and reads one window of it. */
  method Fill(d: Disk, work: Work, ahead: nat -> bool, reading: Reading)
    returns (rest: seq<nat>, ghost added: seq<Item>, ghost next: Option<nat>, ghost lost: bool)
    requires reading.Valid() && Complete(d) && (work.From? ==> work.start <= |d.entries|)
    modifies reading
    ensures reading.Valid() && reading.Items() == old(reading.Items()) + added
    ensures !lost ==> Notes(d, ahead, work, added, rest, next)
    ensures lost ==> old(|reading.text|) + WorkNeeds(d, work) > U32_MAX
    ensures reading.next == if next.Some? then next else old(reading.next)
    ensures reading.unreadable == (old(reading.unreadable) || work == Anew(NotReadable))
  {
    rest, added, next, lost := [], [], None, false;
    match work
    case From(start) =>
      added, next, lost := FillRest(d, start, ahead, reading);
    case Anew(NotReadable) =>
      reading.unreadable := true;
      assert reading.Items() == old(reading.Items()) + [];
    case Anew(Opened(failures)) =>
      rest, added, next, lost := FillAnew(d, failures, ahead, reading);
  }

  method FillRest(d: Disk, start: nat, ahead: nat -> bool, reading: Reading)
    returns (ghost added: seq<Item>, ghost next: Option<nat>, ghost lost: bool)
    requires reading.Valid() && Complete(d) && start <= |d.entries|
    modifies reading
    ensures reading.Valid() && reading.Items() == old(reading.Items()) + added
    ensures !lost ==> Notes(d, ahead, From(start), added, [], next)
    ensures lost ==> old(|reading.text|) + WorkNeeds(d, From(start)) > U32_MAX
    ensures reading.next == if next.Some? then next else old(reading.next)
    ensures reading.unreadable == old(reading.unreadable)
  {
    hide IsWindow, Complete, Meanings, NotingsOk, AddsUp, NotedRange, RangeNeeds;
    ghost var before := reading.Items();
    var end;
    end, lost := reading.Entries(d, start, None, ahead);
    FewerNeeds(d, start, end);
    added := if lost then reading.Items()[|before|..] else NotedRange(d, ahead, start, end);
    next := if end < |d.entries| then Some(end) else None;
    assert Reaches(d.entries, start, end, next);
  }

  method FillAnew(d: Disk, failures: seq<Option<Name>>, ahead: nat -> bool, reading: Reading)
    returns (rest: seq<nat>, ghost added: seq<Item>, ghost next: Option<nat>, ghost lost: bool)
    requires reading.Valid() && Complete(d)
    modifies reading
    ensures reading.Valid() && reading.Items() == old(reading.Items()) + added
    ensures !lost ==> Notes(d, ahead, Anew(Opened(failures)), added, rest, next)
    ensures lost ==> old(|reading.text|) + WorkNeeds(d, Anew(Opened(failures))) > U32_MAX
    ensures reading.next == if next.Some? then next else old(reading.next)
    ensures reading.unreadable == old(reading.unreadable)
  {
    hide IsWindow, Complete, Meanings, NotingsOk, AddsUp, NotedRange, RangeNeeds, FailuresRead, Tiled, Copied;
    rest, added, next, lost := [], [], None, false;
    ghost var before, was := reading.Items(), reading.text;
    NoFailures(failures, before, was);
    for i := 0 to |failures|
      invariant reading.Valid() && FailuresRead(failures, i, before, was, reading.Items(), reading.text, lost)
      invariant reading.unreadable == old(reading.unreadable) && reading.next == old(reading.next)
      invariant d.fail ==> i == 0
    {
      lost := FailListed(failures, i, reading, before, was, lost);
      if d.fail {
        FirstFailure(failures, before, was, reading.Items(), reading.text, lost);
        added := reading.Items()[|before|..];
        return;
      }
    }
    AllFailures(failures, before, was, reading.Items(), reading.text, lost);
    var first := WindowEnd(d.entries, 0);
    if first != |d.entries| {
      rest := Rest(d.entries);
    } else {
      OneWindow(d.entries);
    }
    var copied := CopyNames(d, first == |d.entries|, reading);
    ghost var items, text := reading.Items(), reading.text;
    var end;
    ghost var more;
    end, more := reading.Entries(d, 0, copied, ahead);
    FewerNeeds(d, 0, end);
    next := if end < |d.entries| then Some(end) else None;
    assert Reaches(d.entries, 0, end, next);
    Filled(d, ahead, failures, end, before, was, items, text, reading.Items(), reading.text, lost, more);
    added := reading.Items()[|before|..];
    lost := lost || more;
  }

  /** Only the first failure, under `fail`. */
  lemma FirstFailure(failures: seq<Option<Name>>, before: seq<Item>, was: seq<Byte>, items: seq<Item>, text: seq<Byte>, lost: bool)
    requires failures != [] && FailuresRead(failures, 1, before, was, items, text, lost)
    ensures items == before + items[|before|..]
    ensures if lost then |was| + NamesNeed(failures) > U32_MAX else items[|before|..] == [Item.Failed(failures[0])]
  {
    assert FailedItems(failures[..1]) == [Item.Failed(failures[0])];
  }

  /** The failures of the listing, then its first window. */
  lemma Filled(d: Disk, ahead: nat -> bool, failures: seq<Option<Name>>, end: nat, before: seq<Item>, was: seq<Byte>,
               items: seq<Item>, text: seq<Byte>, later: seq<Item>, more: seq<Byte>, lost: bool, also: bool)
    requires end <= |d.entries| && |text| <= |was| + NamesNeed(failures) + |d.names|
    requires before <= items && items <= later
    requires if lost then |was| + NamesNeed(failures) > U32_MAX else items == before + FailedItems(failures)
    requires if also then |text| + RangeNeeds(d, 0, end) > U32_MAX else later == items + NotedRange(d, ahead, 0, end)
    requires RangeNeeds(d, 0, end) <= RangeNeeds(d, 0, |d.entries|)
    ensures later == before + later[|before|..]
    ensures if lost || also then |was| + WorkNeeds(d, Anew(Opened(failures))) > U32_MAX
            else later[|before|..] == FailedItems(failures) + NotedRange(d, ahead, 0, end)
  {
    hide RangeNeeds, NotedRange, FailedItems, NamesNeed;
  }

  lemma OneWindow(listing: seq<Listed>)
    requires IsWindow(listing, 0, |listing|)
    ensures Tiled(listing, [0] + [], |listing|)
  {
    assert [0] + [] == [0];
  }
}
