/**
 * Reading one directory entry by entry. The file system is an oracle from the place of an entry to what is read
 * of it.
 */
module Scan {
  import opened Tree
  import opened Delivery
  import opened Tape
  import opened Utf8
  import opened Listings
  import opened Windows

  // ----- what there is to read

  datatype Stat = Stat(kind: Kind, size: nat, mtime: Option<Timestamp>, mode: nat)

  /**
   * A listed directory, and what the file system and the caller's filter answer for each place of its listing:
   * `stats` for a lookup of the listed entry, `named` for one by name in the directory it is in, `own` for what an
   * open directory says of itself. `text` is set if all the names together are text; `lossy` makes text of a name
   * that is none.
   */
  datatype Disk = Disk(
    entries: seq<Listed>,
    names: seq<Byte>,
    text: bool,
    stats: nat -> Option<Stat>,
    named: nat -> Option<Stat>,
    own: nat -> Option<Stat>,
    targets: nat -> Option<seq<Byte>>,
    lossy: Name -> Name,
    keeps: Option<nat -> bool>,
    full: bool,
    statsItself: bool,
    fail: bool)

  /** The listing is as it is left when it was read and sorted. */
  ghost predicate Complete(d: Disk) {
    && (exists added :: Laid(d.entries, d.names, added))
    && (d.text <==> IsText(d.names))
  }

  function NameIn(d: Disk, place: nat): Name
    requires place < |d.entries|
  {
    NameOf(d.entries[place], d.names)
  }

  /** The name as text: cut out of the text of all names if there is one, and else by itself. */
  function NameText(d: Disk, place: nat): Option<Name>
    requires place < |d.entries|
  {
    var e := d.entries[place];
    if d.text then
      if Boundary(d.names, e.start) && Boundary(d.names, e.start + e.len) then Some(NameIn(d, place)) else None
    else if IsText(NameIn(d, place)) then Some(NameIn(d, place))
    else None
  }

  /** One check of the whole buffer tells of each name whether it is text. */
  lemma NameTextIsExact(d: Disk, place: nat)
    requires Complete(d) && place < |d.entries|
    ensures NameText(d, place) == if IsText(NameIn(d, place)) then Some(NameIn(d, place)) else None
    ensures d.text ==> IsText(NameIn(d, place))
    ensures Inside(d.entries[place], d.names)
  {
    hide IsText;
    var added :| Laid(d.entries, d.names, added);
    BufferIsText(d.entries, d.names, added);
    if d.text {
      NamesCanBeCut(d.entries, d.names, added, d.entries[place]);
    }
    EntryInside(d.entries, d.names, added, d.entries[place]);
  }

  lemma EntryInside(entries: seq<Listed>, names: seq<Byte>, added: seq<Name>, e: Listed)
    requires Laid(entries, names, added) && e in entries
    ensures Inside(e, names)
  {
    assert Placed(e, added);
    var k: nat :| IsBlock(e, added, k);
    PlacedName(e, added, k);
  }

  // ----- what a scan is to note of an entry

  function Unread(kind: Kind): Stat {
    Stat(kind, 0, None, 0)
  }

  /** Whether the filter keeps the entry; without a filter it does. */
  predicate Kept(d: Disk, place: nat) {
    d.keeps.None? || d.keeps.value(place)
  }

  /** The metadata of an entry that is kept; `ahead` says whether it is a directory that could be opened ahead. */
  function Metadata(d: Disk, place: nat, kind: Kind, ahead: bool): Option<Stat>
    requires place < |d.entries|
  {
    if d.entries[place].kind == UnknownKind then d.stats(place)
    else if !d.full then Some(Unread(kind))
    else if kind == DirectoryKind && d.statsItself then if ahead then d.own(place) else d.named(place)
    else d.stats(place)
  }

  /** What is noted of a link, once its own metadata is known. */
  function Linked(d: Disk, place: nat, mtime: Option<Timestamp>, directory: Option<bool>): Item
    requires place < |d.entries|
  {
    var name, target := NameIn(d, place), d.targets(place);
    if target.None? then Item.Failed(Some(name))
    else if !IsText(target.value) then Skipped(name, NonUtf8)
    else Recorded(Entry.Symlink(name, target.value, mtime, directory))
  }

  /** What is recorded of an entry of this kind, once its metadata is known. */
  function Recording(d: Disk, place: nat, kind: Kind, stat: Stat): Item
    requires place < |d.entries|
  {
    var name := NameIn(d, place);
    match kind
    case SymlinkKind(directory) => Linked(d, place, stat.mtime, directory)
    case DirectoryKind => Recorded(Entry.Directory(name, stat.mtime, stat.mode))
    case _ => Recorded(Entry.File(name, stat.size, stat.mtime, stat.mode))
  }

  /** What a scan notes of the entry at `place`: nothing if the filter refuses it. */
  function Noted(d: Disk, ahead: bool, place: nat): seq<Item>
    requires place < |d.entries|
  {
    var name, listed := NameIn(d, place), d.entries[place].kind;
    if !IsText(name) then [Skipped(d.lossy(name), NonUtf8)]
    else if listed == NonUtf8Kind then [Skipped(name, NonUtf8)]
    else if listed == UnknownKind && d.stats(place).None? then [Item.Failed(Some(name))]
    else
      var kind := if listed == UnknownKind then d.stats(place).value.kind else listed;
      if kind == SpecialKind || kind == UnknownKind || kind == NonUtf8Kind then [Skipped(name, Special)]
      else if !Kept(d, place) then []
      else
        var stat := Metadata(d, place, kind, ahead);
        [if stat.None? then Item.Failed(Some(name)) else Recording(d, place, kind, stat.value)]
  }

  // What that comes to, kind by kind.

  lemma FileNoted(d: Disk, ahead: bool, place: nat)
    requires place < |d.entries| && d.entries[place].kind == FileKind && IsText(NameIn(d, place))
    ensures var name, stat := NameIn(d, place), d.stats(place);
            Noted(d, ahead, place)
            == if d.keeps.Some? && !d.keeps.value(place) then []
               else if !d.full then [Recorded(Entry.File(name, 0, None, 0))]
               else if stat.None? then [Item.Failed(Some(name))]
               else [Recorded(Entry.File(name, stat.value.size, stat.value.mtime, stat.value.mode))]
  {
    hide IsText;
  }

  /** A directory's metadata is its own answer where directories give one: from the open directory, or else by name. */
  lemma DirectoryNoted(d: Disk, ahead: bool, place: nat)
    requires place < |d.entries| && d.entries[place].kind == DirectoryKind && IsText(NameIn(d, place))
    ensures var name := NameIn(d, place);
            var stat := if !d.statsItself then d.stats(place) else if ahead then d.own(place) else d.named(place);
            Noted(d, ahead, place)
            == if d.keeps.Some? && !d.keeps.value(place) then []
               else if !d.full then [Recorded(Entry.Directory(name, None, 0))]
               else if stat.None? then [Item.Failed(Some(name))]
               else [Recorded(Entry.Directory(name, stat.value.mtime, stat.value.mode))]
  {
    hide IsText;
  }

  /** A symlink is recorded with where it leads; a target that is no text is skipped. */
  lemma SymlinkNoted(d: Disk, ahead: bool, place: nat)
    requires place < |d.entries| && d.entries[place].kind.SymlinkKind? && IsText(NameIn(d, place))
    ensures var name, stat, target := NameIn(d, place), d.stats(place), d.targets(place);
            Noted(d, ahead, place)
            == if d.keeps.Some? && !d.keeps.value(place) then []
               else if d.full && stat.None? then [Item.Failed(Some(name))]
               else if target.None? then [Item.Failed(Some(name))]
               else if !IsText(target.value) then [Skipped(name, NonUtf8)]
               else [Recorded(Entry.Symlink(name, target.value, if d.full then stat.value.mtime else None,
                                            d.entries[place].kind.directory))]
  {
    hide IsText;
  }

  /** A listing without kinds costs a lookup, which is then the metadata, whether or not all of it was wanted. */
  lemma UnknownNoted(d: Disk, ahead: bool, place: nat)
    requires place < |d.entries| && d.entries[place].kind == UnknownKind && IsText(NameIn(d, place))
    ensures var name, target := NameIn(d, place), d.targets(place);
            Noted(d, ahead, place)
            == match d.stats(place)
               case None => [Item.Failed(Some(name))]
               case Some(Stat(kind, size, mtime, mode)) =>
                 if kind == SpecialKind || kind == UnknownKind || kind == NonUtf8Kind then [Skipped(name, Special)]
                 else if d.keeps.Some? && !d.keeps.value(place) then []
                 else if kind == FileKind then [Recorded(Entry.File(name, size, mtime, mode))]
                 else if kind == DirectoryKind then [Recorded(Entry.Directory(name, mtime, mode))]
                 else if target.None? then [Item.Failed(Some(name))]
                 else if !IsText(target.value) then [Skipped(name, NonUtf8)]
                 else [Recorded(Entry.Symlink(name, target.value, mtime, kind.directory))]
  {
    hide IsText;
  }

  /** What is no file, directory or symlink is skipped, and so is a name that is no text, whatever it names. */
  lemma OthersNoted(d: Disk, ahead: bool, place: nat)
    requires place < |d.entries|
    ensures !IsText(NameIn(d, place)) ==> Noted(d, ahead, place) == [Skipped(d.lossy(NameIn(d, place)), NonUtf8)]
    ensures IsText(NameIn(d, place)) ==>
              && (d.entries[place].kind == NonUtf8Kind ==> Noted(d, ahead, place) == [Skipped(NameIn(d, place), NonUtf8)])
              && (d.entries[place].kind == SpecialKind ==> Noted(d, ahead, place) == [Skipped(NameIn(d, place), Special)])
  {
    hide IsText;
  }

  /** A directory says of itself what a lookup of its name in its parent says. */
  predicate SaysTheSame(d: Disk, place: nat) {
    d.own(place) == d.named(place)
  }

  /** Where the two ways of reading a directory agree, it does not matter which of them was possible. */
  lemma AheadDoesNotMatter(d: Disk, place: nat)
    requires place < |d.entries| && SaysTheSame(d, place)
    ensures Noted(d, true, place) == Noted(d, false, place)
  {
    hide IsText;
  }

  predicate HasFailure(items: seq<Item>) {
    exists i :: 0 <= i < |items| && items[i].Failed?
  }

  /** What a scan notes of the entries from `start` to `end`: under `fail`, up to the first failure. */
  function NotedRange(d: Disk, ahead: nat -> bool, start: nat, end: nat): seq<Item>
    requires start <= end <= |d.entries|
    decreases end - start
  {
    if start == end then []
    else if d.fail && HasFailure(Noted(d, ahead(start), start)) then Noted(d, ahead(start), start)
    else Noted(d, ahead(start), start) + NotedRange(d, ahead, start + 1, end)
  }

  lemma {:induction false} SchedulesNoteTheSame(d: Disk, ahead: nat -> bool, other: nat -> bool, start: nat, end: nat)
    requires start <= end <= |d.entries| && forall place :: start <= place < end ==> SaysTheSame(d, place)
    ensures NotedRange(d, ahead, start, end) == NotedRange(d, other, start, end)
    decreases end - start
  {
    hide Noted, SaysTheSame, HasFailure;
    if start < end {
      AheadDoesNotMatter(d, start);
      SchedulesNoteTheSame(d, ahead, other, start + 1, end);
    }
  }

  /** No more text than this is added for an entry. */
  function Needs(d: Disk, place: nat): nat
    requires place < |d.entries|
  {
    |NameIn(d, place)| + |d.lossy(NameIn(d, place))| + if d.targets(place).Some? then |d.targets(place).value| else 0
  }

  function RangeNeeds(d: Disk, start: nat, end: nat): nat
    requires start <= end <= |d.entries|
    decreases end - start
  {
    if start == end then 0 else Needs(d, start) + RangeNeeds(d, start + 1, end)
  }

  // ----- what a reading adds up

  function RowCount(items: seq<Item>): nat {
    if items == [] then 0 else (if items[0].Recorded? then 1 else 0) + RowCount(items[1..])
  }

  function Estimates(items: seq<Item>): nat {
    if items == [] then 0 else (if items[0].Recorded? then Own(items[0].entry) else 0) + Estimates(items[1..])
  }

  function Failures(items: seq<Item>): nat {
    if items == [] then 0 else (if items[0].Failed? then 1 else 0) + Failures(items[1..])
  }

  /** The names of the directories among the items, in order. */
  function DirectoryNames(items: seq<Item>): seq<Name> {
    if items == [] then []
    else (if IsDirectory(items[0]) then [items[0].entry.name] else []) + DirectoryNames(items[1..])
  }

  lemma {:induction false} SumsPlus(a: seq<Item>, b: seq<Item>)
    ensures RowCount(a + b) == RowCount(a) + RowCount(b)
    ensures Estimates(a + b) == Estimates(a) + Estimates(b)
    ensures Failures(a + b) == Failures(a) + Failures(b)
    ensures DirectoryNames(a + b) == DirectoryNames(a) + DirectoryNames(b)
    decreases |a|
  {
    if a == [] {
      assert a + b == b;
    } else {
      assert (a + b)[1..] == a[1..] + b;
      SumsPlus(a[1..], b);
      PlusAssociates(if IsDirectory(a[0]) then [a[0].entry.name] else [], DirectoryNames(a[1..]), DirectoryNames(b));
    }
  }

  lemma SumsOne(item: Item)
    ensures RowCount([item]) == if item.Recorded? then 1 else 0
    ensures Estimates([item]) == if item.Recorded? then Own(item.entry) else 0
    ensures Failures([item]) == if item.Failed? then 1 else 0
    ensures DirectoryNames([item]) == if IsDirectory(item) then [item.entry.name] else []
    ensures HasFailure([item]) <==> item.Failed?
  {
    assert [item][1..] == [];
    assert [item][0] == item;
  }

  lemma {:induction false} RowsAreItems(items: seq<Item>)
    ensures RowCount(items) <= |items|
    ensures RowCount(items) == |items| <==> forall i :: 0 <= i < |items| ==> items[i].Recorded?
    decreases |items|
  {
    if items != [] {
      RowsAreItems(items[1..]);
      assert forall i :: 0 < i < |items| ==> items[i] == items[1..][i - 1];
    }
  }

  lemma {:induction false} FailuresShow(items: seq<Item>)
    ensures Failures(items) > 0 <==> HasFailure(items)
    decreases |items|
  {
    if items != [] {
      FailuresShow(items[1..]);
      assert forall i :: 0 < i < |items| ==> items[i] == items[1..][i - 1];
      if HasFailure(items[1..]) {
        var i :| 0 <= i < |items[1..]| && items[1..][i].Failed?;
        assert items[i + 1].Failed?;
      }
    }
  }

  // ----- items by where their names are in the text

  datatype Span = Span(start: nat, len: nat)

  /** An item as a scan keeps it. */
  datatype Noting =
    | FileNote(name: Span, size: nat, mtime: Option<Timestamp>, mode: nat)
    | SymlinkNote(name: Span, target: Span, mtime: Option<Timestamp>, directory: Option<bool>)
    | DirectoryNote(name: Span, mtime: Option<Timestamp>, mode: nat)
    | SkipNote(name: Span, reason: SkipReason)
    | FailNote(of: Option<Span>)

  predicate SpanOk(text: seq<Byte>, span: Span) {
    span.start + span.len <= |text|
  }

  function TextOf(text: seq<Byte>, span: Span): seq<Byte> {
    if SpanOk(text, span) then text[span.start..span.start + span.len] else []
  }

  predicate NotingOk(text: seq<Byte>, n: Noting) {
    match n
    case SymlinkNote(name, target, _, _) => SpanOk(text, name) && SpanOk(text, target)
    case FailNote(of) => of.Some? ==> SpanOk(text, of.value)
    case _ => SpanOk(text, n.name)
  }

  function Meaning(text: seq<Byte>, n: Noting): Item {
    match n
    case FileNote(name, size, mtime, mode) => Recorded(Entry.File(TextOf(text, name), size, mtime, mode))
    case SymlinkNote(name, target, mtime, directory) =>
      Recorded(Entry.Symlink(TextOf(text, name), TextOf(text, target), mtime, directory))
    case DirectoryNote(name, mtime, mode) => Recorded(Entry.Directory(TextOf(text, name), mtime, mode))
    case SkipNote(name, reason) => Skipped(TextOf(text, name), reason)
    case FailNote(of) => Item.Failed(if of.Some? then Some(TextOf(text, of.value)) else None)
  }

  predicate NotingsOk(text: seq<Byte>, notes: seq<Noting>) {
    forall i :: 0 <= i < |notes| ==> NotingOk(text, notes[i])
  }

  function Meanings(text: seq<Byte>, notes: seq<Noting>): seq<Item> {
    seq(|notes|, i requires 0 <= i < |notes| => Meaning(text, notes[i]))
  }

  lemma SpanStays(text: seq<Byte>, more: seq<Byte>, span: Span)
    requires SpanOk(text, span)
    ensures SpanOk(text + more, span) && TextOf(text + more, span) == TextOf(text, span)
  {
  }

  lemma NotingStays(text: seq<Byte>, more: seq<Byte>, n: Noting)
    requires NotingOk(text, n)
    ensures NotingOk(text + more, n) && Meaning(text + more, n) == Meaning(text, n)
  {
    hide TextOf, SpanOk;
    match n
    case SymlinkNote(name, target, _, _) =>
      SpanStays(text, more, name);
      SpanStays(text, more, target);
    case FailNote(of) =>
      if of.Some? {
        SpanStays(text, more, of.value);
      }
    case _ => SpanStays(text, more, n.name);
  }

  /** What was noted keeps its meaning when text is added behind. */
  lemma MeaningsStay(text: seq<Byte>, more: seq<Byte>, notes: seq<Noting>)
    requires NotingsOk(text, notes)
    ensures NotingsOk(text + more, notes) && Meanings(text + more, notes) == Meanings(text, notes)
  {
    hide NotingOk, Meaning;
    forall i | 0 <= i < |notes|
      ensures NotingOk(text + more, notes[i]) && Meaning(text + more, notes[i]) == Meaning(text, notes[i])
    {
      NotingStays(text, more, notes[i]);
    }
  }

  /** All names of the listing lie in the text from `at` on. */
  predicate Copied(d: Disk, text: seq<Byte>, at: nat) {
    at + |d.names| <= |text| && text[at..at + |d.names|] == d.names
  }

  /** The place of a name in the listing's buffer, moved by where the buffer was copied to, gives the name. */
  lemma CopiedName(d: Disk, text: seq<Byte>, at: nat, place: nat)
    requires place < |d.entries| && Copied(d, text, at) && Inside(d.entries[place], d.names)
    ensures var span := Span(at + d.entries[place].start, d.entries[place].len);
            SpanOk(text, span) && TextOf(text, span) == NameIn(d, place)
  {
    var e := d.entries[place];
    SliceOfSlice(text, at, at + |d.names|, e.start, e.start + e.len);
  }

  lemma SliceOfSlice(text: seq<Byte>, from: nat, to: nat, start: nat, end: nat)
    requires from <= to <= |text| && start <= end <= to - from
    ensures text[from..to][start..end] == text[from + start..from + end]
  {
    var outer := text[from..to];
    var left, right := outer[start..end], text[from + start..from + end];
    forall i | 0 <= i < |left|
      ensures left[i] == right[i]
    {
      assert left[i] == outer[start + i];
    }
  }

  lemma CopyStays(d: Disk, text: seq<Byte>, more: seq<Byte>, at: nat)
    requires Copied(d, text, at)
    ensures Copied(d, text + more, at)
  {
    assert (text + more)[at..at + |d.names|] == text[at..at + |d.names|];
  }

  predicate AddsUp(items: seq<Item>, bytes: nat, count: nat, errors: nat, jobs: seq<Name>) {
    count == RowCount(items) && bytes == Estimates(items) && errors == Failures(items) && jobs == DirectoryNames(items)
  }

  lemma AddsUpMore(items: seq<Item>, item: Item, bytes: nat, count: nat, errors: nat, jobs: seq<Name>)
    requires AddsUp(items, bytes, count, errors, jobs)
    ensures AddsUp(items + [item],
                   bytes + (if item.Recorded? then Own(item.entry) else 0),
                   count + (if item.Recorded? then 1 else 0),
                   errors + (if item.Failed? then 1 else 0),
                   jobs + (if IsDirectory(item) then [item.entry.name] else []))
  {
    SumsPlus(items, [item]);
    SumsOne(item);
  }

  lemma NotesPlus(text: seq<Byte>, notes: seq<Noting>, n: Noting)
    requires NotingsOk(text, notes) && NotingOk(text, n)
    ensures NotingsOk(text, notes + [n]) && Meanings(text, notes + [n]) == Meanings(text, notes) + [Meaning(text, n)]
  {
  }

  /** The estimate of a row by the lengths of its spans. */
  lemma RowParts(text: seq<Byte>, n: Noting)
    requires NotingOk(text, n)
    ensures Meaning(text, n).Failed? <==> n.FailNote?
    ensures Meaning(text, n).Recorded? <==> n.FileNote? || n.SymlinkNote? || n.DirectoryNote?
    ensures n.FileNote? ==> Own(Meaning(text, n).entry) == FILE_ROW + n.name.len && !IsDirectory(Meaning(text, n))
    ensures n.SymlinkNote? ==>
              Own(Meaning(text, n).entry) == SYMLINK_ROW + (n.name.len + n.target.len) && !IsDirectory(Meaning(text, n))
    ensures n.DirectoryNote? ==>
              && Own(Meaning(text, n).entry) == DIRECTORY_ROW + n.name.len
              && IsDirectory(Meaning(text, n)) && Meaning(text, n).entry.name == TextOf(text, n.name)
  {
  }

  /** A listed file whose name was copied with all others, where there is no filter. */
  lemma FileLies(d: Disk, text: seq<Byte>, at: nat, place: nat, ahead: bool)
    requires Complete(d) && place < |d.entries| && d.entries[place].kind == FileKind
    requires d.text && d.keeps.None? && Copied(d, text, at)
    ensures var span := Span(at + d.entries[place].start, d.entries[place].len);
            SpanOk(text, span) && TextOf(text, span) == NameIn(d, place)
    ensures var name, stat := NameIn(d, place), if d.full then d.stats(place) else Some(Unread(FileKind));
            Noted(d, ahead, place) == [if stat.None? then Item.Failed(Some(name))
                                       else Recorded(Entry.File(name, stat.value.size, stat.value.mtime, stat.value.mode))]
  {
    hide Complete, IsText, TextOf, Noted, Copied, Inside;
    NameTextIsExact(d, place);
    CopiedName(d, text, at, place);
    FileNoted(d, ahead, place);
  }

  // ----- a scan while it is being made

  class Reading {
    var text: seq<Byte>
    var notes: seq<Noting>
    var bytes: nat
    var count: nat
    var errors: nat
    // The jobs of the directories found, each by the name of its directory.
    var jobs: seq<Name>
    var unreadable: bool
    var next: Option<nat>

    /** What was noted, with the names read from the text. */
    ghost function Items(): seq<Item>
      reads this
    {
      Meanings(text, notes)
    }

    /** The counts are those of the items, and the jobs are those of the directories among them, in order. */
    ghost predicate Valid()
      reads this
    {
      && NotingsOk(text, notes) && |text| <= U32_MAX
      && AddsUp(Items(), bytes, count, errors, jobs)
    }

    constructor ()
      ensures Valid() && Items() == [] && text == [] && !unreadable && next == None
    {
      text, notes, bytes, count, errors, jobs, unreadable, next := [], [], 0, 0, 0, [], false, None;
    }

    /** Adds to the text, unless it would pass 4 GiB: then the text stays as it was. */
    method AddText(more: seq<Byte>) returns (span: Option<Span>)
      requires Valid()
      modifies this`text
      ensures Valid() && Items() == old(Items())
      ensures span == if |old(text)| + |more| <= U32_MAX then Some(Span(|old(text)|, |more|)) else None
      ensures text == if span.Some? then old(text) + more else old(text)
      ensures span.Some? ==> SpanOk(text, span.value) && TextOf(text, span.value) == more
    {
      hide NotingsOk, Meanings, AddsUp;
      MeaningsStay(text, more, notes);
      var start := |text|;
      if start + |more| > U32_MAX {
        return None;
      }
      text := text + more;
      assert text[start..start + |more|] == more;
      span := Some(Span(start, |more|));
    }

    /** Notes an item that is no row. */
    method Note(n: Noting)
      requires Valid() && NotingOk(text, n) && !Meaning(text, n).Recorded?
      modifies this`notes, this`errors
      ensures Valid() && Items() == old(Items()) + [Meaning(text, n)]
      ensures errors == old(errors) + if n.FailNote? then 1 else 0
    {
      NotesPlus(text, notes, n);
      AddsUpMore(Items(), Meaning(text, n), bytes, count, errors, jobs);
      RowParts(text, n);
      hide NotingsOk, Meanings, AddsUp, Meaning;
      notes := notes + [n];
      errors := errors + if n.FailNote? then 1 else 0;
    }

    /** Notes a row. */
    method Row(n: Noting)
      requires Valid() && NotingOk(text, n) && Meaning(text, n).Recorded?
      modifies this`notes, this`bytes, this`count, this`jobs
      ensures Valid() && Items() == old(Items()) + [Meaning(text, n)]
    {
      NotesPlus(text, notes, n);
      AddsUpMore(Items(), Meaning(text, n), bytes, count, errors, jobs);
      RowParts(text, n);
      hide NotingsOk, Meanings, AddsUp, Meaning, TextOf;
      notes := notes + [n];
      count := count + 1;
      if n.DirectoryNote? {
        bytes := bytes + (DIRECTORY_ROW + n.name.len);
        jobs := jobs + [TextOf(text, n.name)];
      } else if n.SymlinkNote? {
        bytes := bytes + (SYMLINK_ROW + (n.name.len + n.target.len));
      } else {
        bytes := bytes + (FILE_ROW + n.name.len);
      }
    }

    /** Reads a listed regular file when there is no filter to ask and all names are in the text, from `at` on. */
    method ReadFile(d: Disk, place: nat, at: nat, ghost ahead: bool)
      requires Valid() && Complete(d) && place < |d.entries| && d.entries[place].kind == FileKind
      requires d.text && d.keeps.None? && Copied(d, text, at)
      modifies this`notes, this`bytes, this`count, this`errors, this`jobs
      ensures Valid() && Items() == old(Items()) + Noted(d, ahead, place)
    {
      hide Complete, IsText, TextOf, Noted, NotingsOk, Meanings, AddsUp, Copied, NameIn;
      FileLies(d, text, at, place, ahead);
      var e := d.entries[place];
      var name := Span(at + e.start, e.len);
      var stat := if d.full then d.stats(place) else Some(Unread(FileKind));
      if stat.Some? {
        Row(FileNote(name, stat.value.size, stat.value.mtime, stat.value.mode));
      } else {
        Note(FailNote(Some(name)));
      }
    }

    /** Adds a name to the text and notes that the entry is skipped, unless the text would pass 4 GiB. */
    method Skip(name: Name, reason: SkipReason) returns (ok: bool)
      requires Valid()
      modifies this`text, this`notes, this`errors
      ensures Valid() && old(text) <= text
      ensures ok ==> Items() == old(Items()) + [Skipped(name, reason)] && |text| == |old(text)| + |name|
      ensures !ok ==> Items() == old(Items()) && text == old(text) && |text| + |name| > U32_MAX
    {
      var span := AddText(name);
      ok := span.Some?;
      if ok {
        Note(SkipNote(span.value, reason));
      }
    }

    /** Adds a name to the text and notes that reading the entry failed. */
    method Fail(name: Name) returns (ok: bool)
      requires Valid()
      modifies this`text, this`notes, this`errors
      ensures Valid() && old(text) <= text
      ensures ok ==> Items() == old(Items()) + [Item.Failed(Some(name))] && |text| == |old(text)| + |name|
      ensures !ok ==> Items() == old(Items()) && text == old(text) && |text| + |name| > U32_MAX
    {
      var span := AddText(name);
      ok := span.Some?;
      if ok {
        Note(FailNote(Some(span.value)));
      }
    }

    /**
     * Finds out what an entry is and asks the filter: its name, its kind, and its metadata if that was read already.
     * Gives nothing if the entry is dealt with; then `ok` is false if its name would take the text past 4 GiB.
     */
    method Offered(d: Disk, place: nat, ghost ahead: bool) returns (kept: Option<(Name, Kind, Option<Stat>)>, ok: bool)
      requires Valid() && Complete(d) && place < |d.entries|
      modifies this`text, this`notes, this`errors
      ensures Valid() && old(text) <= text && |text| <= |old(text)| + Needs(d, place)
      ensures kept.None? && ok ==> Items() == old(Items()) + Noted(d, ahead, place)
      ensures !ok ==> kept.None? && Items() == old(Items()) && |old(text)| + Needs(d, place) > U32_MAX
      ensures kept.Some? ==> ok && Items() == old(Items()) && text == old(text)
      ensures kept.Some? ==>
                var (name, kind, stat) := kept.value;
                && name == NameIn(d, place)
                && (kind.FileKind? || kind.DirectoryKind? || kind.SymlinkKind?)
                && (if d.entries[place].kind == UnknownKind then stat == d.stats(place) && stat.Some? else stat.None?)
                && var known := Metadata(d, place, kind, ahead);
                   Noted(d, ahead, place) == [if known.None? then Item.Failed(Some(name)) else Recording(d, place, kind, known.value)]
    {
      hide IsText, Complete, Meanings, NotingsOk, AddsUp;
      NameTextIsExact(d, place);
      var listed := d.entries[place].kind;
      var shown := NameText(d, place);
      if shown.None? || listed == NonUtf8Kind {
        ok := Skip(if shown.Some? then shown.value else d.lossy(NameIn(d, place)), NonUtf8);
        return None, ok;
      }
      var name := shown.value;
      var stat: Option<Stat> := None;
      var kind := listed;
      if kind == UnknownKind {
        var found := d.stats(place);
        if found.None? {
          ok := Fail(name);
          return None, ok;
        }
        kind := found.value.kind;
        stat := found;
      }
      if kind == SpecialKind || kind == UnknownKind || kind == NonUtf8Kind {
        ok := Skip(name, Special);
        return None, ok;
      }
      if d.keeps.Some? {
        var keeps := d.keeps.value;
        if !keeps(place) {
          assert Items() == old(Items()) + [];
          return None, true;
        }
      }
      return Some((name, kind, stat)), true;
    }

    /**
     * Reads any entry. `copied` is where all names are in the text, if they are; `ahead` says whether a directory
     * could be opened ahead of its own scan. The result is false if the text would pass 4 GiB.
     */
    method ReadEntry(d: Disk, place: nat, copied: Option<nat>, ahead: bool) returns (ok: bool)
      requires Valid() && Complete(d) && place < |d.entries|
      requires copied.Some? ==> Copied(d, text, copied.value)
      modifies this`text, this`notes, this`bytes, this`count, this`errors, this`jobs
      ensures Valid() && old(text) <= text && |text| <= |old(text)| + Needs(d, place)
      ensures ok ==> Items() == old(Items()) + Noted(d, ahead, place)
      ensures !ok ==> Items() == old(Items()) && |old(text)| + Needs(d, place) > U32_MAX
    {
      hide IsText, Complete, Meanings, NotingsOk, AddsUp, Noted, TextOf, Metadata, Copied, NameText, Linked, Recording;
      var kept;
      kept, ok := Offered(d, place, ahead);
      if kept.None? {
        return;
      }
      var (name, kind, known) := kept.value;
      var span := NameSpan(d, place, copied);
      if span.None? {
        return false;
      }
      var stat := ReadStat(d, place, kind, known, kind == DirectoryKind && ahead);
      ok := ReadKept(d, place, span.value, kind, stat);
    }

    /** Where the entry's name is in the text: in the copy of all names if there is one, else behind what is there. */
    method NameSpan(d: Disk, place: nat, copied: Option<nat>) returns (span: Option<Span>)
      requires Valid() && Complete(d) && place < |d.entries|
      requires copied.Some? ==> Copied(d, text, copied.value)
      modifies this`text
      ensures Valid() && old(text) <= text && Items() == old(Items())
      ensures span.Some? ==> SpanOk(text, span.value) && TextOf(text, span.value) == NameIn(d, place)
      ensures |text| <= |old(text)| + |NameIn(d, place)|
      ensures span.None? ==> text == old(text) && |text| + |NameIn(d, place)| > U32_MAX
    {
      NameTextIsExact(d, place);
      if copied.Some? {
        CopiedName(d, text, copied.value, place);
        var e := d.entries[place];
        span := Some(Span(copied.value + e.start, e.len));
      } else {
        hide IsText, Complete, Meanings, NotingsOk, AddsUp, TextOf;
        span := AddText(NameIn(d, place));
      }
    }

    /** Notes an entry that is kept, by its kind and its metadata. */
    method ReadKept(d: Disk, place: nat, name: Span, kind: Kind, stat: Option<Stat>) returns (ok: bool)
      requires Valid() && place < |d.entries| && SpanOk(text, name) && TextOf(text, name) == NameIn(d, place)
      requires kind.FileKind? || kind.DirectoryKind? || kind.SymlinkKind?
      modifies this`text, this`notes, this`bytes, this`count, this`errors, this`jobs
      ensures Valid() && old(text) <= text
      ensures |text| <= |old(text)| + if d.targets(place).Some? then |d.targets(place).value| else 0
      ensures ok ==>
                var item := if stat.None? then Item.Failed(Some(NameIn(d, place))) else Recording(d, place, kind, stat.value);
                Items() == old(Items()) + [item]
      ensures !ok ==> Items() == old(Items()) && text == old(text)
      ensures !ok ==> d.targets(place).Some? && |text| + |d.targets(place).value| > U32_MAX
    {
      hide IsText, Meanings, NotingsOk, AddsUp, TextOf, Linked;
      ok := true;
      if stat.None? {
        Note(FailNote(Some(name)));
      } else if kind.SymlinkKind? {
        ok := ReadSymlink(d, place, name, stat.value.mtime, kind.directory);
      } else if kind == DirectoryKind {
        Row(DirectoryNote(name, stat.value.mtime, stat.value.mode));
      } else {
        Row(FileNote(name, stat.value.size, stat.value.mtime, stat.value.mode));
      }
    }

    /** Reads where a link leads and notes it. */
    method ReadSymlink(d: Disk, place: nat, name: Span, mtime: Option<Timestamp>, directory: Option<bool>) returns (ok: bool)
      requires Valid() && place < |d.entries| && SpanOk(text, name) && TextOf(text, name) == NameIn(d, place)
      modifies this`text, this`notes, this`bytes, this`count, this`errors, this`jobs
      ensures Valid() && old(text) <= text
      ensures |text| <= |old(text)| + if d.targets(place).Some? then |d.targets(place).value| else 0
      ensures ok ==> Items() == old(Items()) + [Linked(d, place, mtime, directory)]
      ensures !ok ==> Items() == old(Items()) && text == old(text)
      ensures !ok ==> d.targets(place).Some? && |text| + |d.targets(place).value| > U32_MAX
    {
      hide IsText, Meanings, NotingsOk, AddsUp;
      var target := d.targets(place);
      ok := true;
      if target.None? {
        Note(FailNote(Some(name)));
      } else if !IsText(target.value) {
        Note(SkipNote(name, NonUtf8));
      } else {
        var span := AddText(target.value);
        if span.None? {
          return false;
        }
        SpanStays(old(text), target.value, name);
        Row(SymlinkNote(name, span.value, mtime, directory));
      }
    }

    /** Reads the entry at `place`, a file the short way if all names are in the text and there is no filter. */
    method ReadOne(d: Disk, place: nat, copied: Option<nat>, ahead: bool) returns (ok: bool)
      requires Valid() && Complete(d) && place < |d.entries|
      requires copied.Some? ==> d.text && Copied(d, text, copied.value)
      modifies this`text, this`notes, this`bytes, this`count, this`errors, this`jobs
      ensures Valid() && old(text) <= text && |text| <= |old(text)| + Needs(d, place)
      ensures copied.Some? ==> Copied(d, text, copied.value)
      ensures ok ==> Items() == old(Items()) + Noted(d, ahead, place)
      ensures ok ==> (errors > old(errors) <==> HasFailure(Noted(d, ahead, place)))
      ensures !ok ==> Items() == old(Items()) && errors == old(errors) && |old(text)| + Needs(d, place) > U32_MAX
    {
      hide Noted, HasFailure, Complete, Meanings, NotingsOk, Copied, IsText, Failures;
      ErrorsShow(Items(), Noted(d, ahead, place));
      ok := true;
      if copied.Some? && d.keeps.None? && d.entries[place].kind == FileKind {
        ReadFile(d, place, copied.value, ahead);
      } else {
        ok := ReadEntry(d, place, copied, ahead);
        CopiedStill(d, old(text), text, copied);
      }
    }

    /**
     * Reads the entry at `place`, and notes a failure without a name if its text has no room. Under `OnError::Fail` a
     * failure is the last thing that is read.
     */
    method Advance(d: Disk, ghost start: nat, place: nat, ghost end: nat, copied: Option<nat>, ahead: nat -> bool,
                   ghost before: seq<Item>, ghost was: seq<Byte>, ghost lost: bool) returns (stop: bool, ghost later: bool)
      requires Valid() && Complete(d) && start <= place < end <= |d.entries| && (copied.Some? ==> d.text)
      requires Soon(d, ahead, start, place, end, before, was, Items(), text, copied, lost)
      modifies this`text, this`notes, this`bytes, this`count, this`errors, this`jobs
      ensures Valid()
      ensures stop ==> RangeRead(d, ahead, start, end, before, was, Items(), text, later)
      ensures !stop ==> Soon(d, ahead, start, place + 1, end, before, was, Items(), text, copied, later)
      ensures later && !lost ==> Items() == old(Items()) + [Item.Failed(None)]
    {
      hide Noted, HasFailure, Complete, Meanings, NotingsOk, Copied, IsText, AddsUp, Needs, Soon, RangeRead;
      ghost var items, now := Items(), text;
      StillCopied(d, ahead, start, place, end, before, was, items, now, copied, lost);
      var failed := errors;
      var ok := ReadOne(d, place, copied, ahead(place));
      if !ok {
        Note(FailNote(None));
      }
      later := lost || !ok;
      stop := d.fail && errors > failed;
      if stop {
        Stopped(d, ahead, start, place, end, before, was, items, now, copied, lost, Items(), text, ok);
      } else {
        Onward(d, ahead, start, place, end, before, was, items, now, copied, lost, Items(), text, ok);
      }
    }

    /** Where the window that starts at `start` ends, which is where the next one starts if there is more. */
    method Window(d: Disk, start: nat) returns (end: nat)
      requires Valid() && start <= |d.entries|
      modifies this`next
      ensures Valid() && Items() == old(Items())
      ensures IsWindow(d.entries, start, end) && start <= end <= |d.entries|
      ensures next == if end < |d.entries| then Some(end) else old(next)
    {
      end := WindowEnd(d.entries, start);
      WindowInside(d.entries, start, end);
      if end < |d.entries| {
        next := Some(end);
      }
    }

    /**
     * Reads the window that starts at `start`; `copied` is where all names are in the text, if they are. `lost` is set
     * if something was left out because the text would have passed 4 GiB.
     */
    method Entries(d: Disk, start: nat, copied: Option<nat>, ahead: nat -> bool) returns (end: nat, ghost lost: bool)
      requires Valid() && Complete(d) && start <= |d.entries|
      requires copied.Some? ==> d.text && Copied(d, text, copied.value)
      modifies this
      ensures Valid() && IsWindow(d.entries, start, end) && start <= end <= |d.entries|
      ensures RangeRead(d, ahead, start, end, old(Items()), old(text), Items(), text, lost)
      ensures next == if end < |d.entries| then Some(end) else old(next)
      ensures unreadable == old(unreadable)
    {
      hide IsWindow, Noted, NotedRange, HasFailure, Complete, Meanings, NotingsOk, AddsUp, Copied, RangeNeeds, Needs, IsText,
           Soon, RangeRead, ReadOn;
      end := Window(d, start);
      lost := false;
      ghost var before, was := Items(), text;
      Begun(d, ahead, start, end, before, was, copied);
      var place := start;
      while place < end
        invariant start <= place <= end && Valid() && unreadable == old(unreadable)
        invariant next == if end < |d.entries| then Some(end) else old(next)
        invariant Soon(d, ahead, start, place, end, before, was, Items(), text, copied, lost)
      {
        var stop;
        stop, lost := Advance(d, start, place, end, copied, ahead, before, was, lost);
        if stop {
          return;
        }
        place := place + 1;
      }
      AllRead(d, ahead, start, end, before, was, Items(), text, copied, lost);
    }
  }

  /**
   * From `start` to `place` everything was noted, and what is to come after `items` is as if nothing had been left out,
   * unless the text is too long for the whole range.
   */
  ghost predicate Soon(d: Disk, ahead: nat -> bool, start: nat, place: nat, end: nat, before: seq<Item>, was: seq<Byte>,
                       items: seq<Item>, text: seq<Byte>, copied: Option<nat>, lost: bool)
    requires start <= place <= end <= |d.entries|
  {
    && was <= text && before <= items && (copied.Some? ==> Copied(d, text, copied.value))
    && |text| + RangeNeeds(d, place, end) <= |was| + RangeNeeds(d, start, end)
    && if lost then |was| + RangeNeeds(d, start, end) > U32_MAX
       else before + NotedRange(d, ahead, start, end) == items + NotedRange(d, ahead, place, end)
  }

  /** Everything from `start` to `end` was noted behind `before`, unless the text is too long for it. */
  ghost predicate RangeRead(d: Disk, ahead: nat -> bool, start: nat, end: nat, before: seq<Item>, was: seq<Byte>,
                            items: seq<Item>, text: seq<Byte>, lost: bool)
    requires start <= end <= |d.entries|
  {
    && was <= text && before <= items && |text| <= |was| + RangeNeeds(d, start, end)
    && if lost then |was| + RangeNeeds(d, start, end) > U32_MAX else items == before + NotedRange(d, ahead, start, end)
  }

  lemma Begun(d: Disk, ahead: nat -> bool, start: nat, end: nat, before: seq<Item>, was: seq<Byte>, copied: Option<nat>)
    requires start <= end <= |d.entries| && (copied.Some? ==> Copied(d, was, copied.value))
    ensures Soon(d, ahead, start, start, end, before, was, before, was, copied, false)
  {
  }

  lemma StillCopied(d: Disk, ahead: nat -> bool, start: nat, place: nat, end: nat, before: seq<Item>, was: seq<Byte>,
                    items: seq<Item>, text: seq<Byte>, copied: Option<nat>, lost: bool)
    requires start <= place <= end <= |d.entries|
    requires Soon(d, ahead, start, place, end, before, was, items, text, copied, lost)
    ensures copied.Some? ==> Copied(d, text, copied.value)
  {
  }

  /** One more entry was read. */
  ghost predicate ReadOn(d: Disk, ahead: nat -> bool, place: nat, items: seq<Item>, text: seq<Byte>, copied: Option<nat>,
                         later: seq<Item>, more: seq<Byte>, ok: bool)
    requires place < |d.entries|
  {
    && text <= more && items <= later && |more| <= |text| + Needs(d, place) && (copied.Some? ==> Copied(d, more, copied.value))
    && (ok ==> later == items + Noted(d, ahead(place), place))
    && (!ok ==> |text| + Needs(d, place) > U32_MAX)
  }

  lemma Onward(d: Disk, ahead: nat -> bool, start: nat, place: nat, end: nat, before: seq<Item>, was: seq<Byte>,
               items: seq<Item>, text: seq<Byte>, copied: Option<nat>, lost: bool, later: seq<Item>, more: seq<Byte>, ok: bool)
    requires start <= place < end <= |d.entries|
    requires Soon(d, ahead, start, place, end, before, was, items, text, copied, lost)
    requires ReadOn(d, ahead, place, items, text, copied, later, more, ok)
    ensures !(ok && d.fail && HasFailure(Noted(d, ahead(place), place))) ==>
              Soon(d, ahead, start, place + 1, end, before, was, later, more, copied, lost || !ok)
  {
    hide NotedRange, RangeNeeds;
    hide Noted, HasFailure, Copied, Needs;
    NeedsStep(d, place, end);
    RangeStep(d, ahead, place, end, items);
  }

  /** Under `fail` nothing comes after a failure. */
  lemma Stopped(d: Disk, ahead: nat -> bool, start: nat, place: nat, end: nat, before: seq<Item>, was: seq<Byte>,
                items: seq<Item>, text: seq<Byte>, copied: Option<nat>, lost: bool, later: seq<Item>, more: seq<Byte>, ok: bool)
    requires start <= place < end <= |d.entries|
    requires Soon(d, ahead, start, place, end, before, was, items, text, copied, lost)
    requires ReadOn(d, ahead, place, items, text, copied, later, more, ok)
    requires ok ==> d.fail && HasFailure(Noted(d, ahead(place), place))
    ensures RangeRead(d, ahead, start, end, before, was, later, more, lost || !ok)
  {
    hide NotedRange, RangeNeeds;
    hide Noted, HasFailure, Copied, Needs;
    NeedsStep(d, place, end);
    RangeStep(d, ahead, place, end, items);
  }

  lemma AllRead(d: Disk, ahead: nat -> bool, start: nat, end: nat, before: seq<Item>, was: seq<Byte>,
                items: seq<Item>, text: seq<Byte>, copied: Option<nat>, lost: bool)
    requires start <= end <= |d.entries| && Soon(d, ahead, start, end, end, before, was, items, text, copied, lost)
    ensures RangeRead(d, ahead, start, end, before, was, items, text, lost)
  {
    RangeDone(d, ahead, end, items);
  }

  lemma CopiedStill(d: Disk, before: seq<Byte>, text: seq<Byte>, copied: Option<nat>)
    requires before <= text && (copied.Some? ==> Copied(d, before, copied.value))
    ensures copied.Some? ==> Copied(d, text, copied.value)
  {
    assert text == before + text[|before|..];
    if copied.Some? {
      CopyStays(d, before, text[|before|..], copied.value);
    }
  }

  lemma ErrorsShow(before: seq<Item>, more: seq<Item>)
    ensures Failures(before + more) > Failures(before) <==> HasFailure(more)
  {
    SumsPlus(before, more);
    FailuresShow(more);
  }

  lemma NeedsStep(d: Disk, place: nat, end: nat)
    requires place < end <= |d.entries|
    ensures RangeNeeds(d, place, end) == Needs(d, place) + RangeNeeds(d, place + 1, end)
  {
  }

  lemma RangeStep(d: Disk, ahead: nat -> bool, place: nat, end: nat, before: seq<Item>)
    requires place < end <= |d.entries|
    ensures before + NotedRange(d, ahead, place, end)
         == if d.fail && HasFailure(Noted(d, ahead(place), place)) then before + Noted(d, ahead(place), place)
            else before + Noted(d, ahead(place), place) + NotedRange(d, ahead, place + 1, end)
  {
    hide Noted;
    PlusAssociates(before, Noted(d, ahead(place), place), NotedRange(d, ahead, place + 1, end));
  }

  lemma RangeDone(d: Disk, ahead: nat -> bool, end: nat, items: seq<Item>)
    requires end <= |d.entries|
    ensures items + NotedRange(d, ahead, end, end) == items
  {
  }

  /** The metadata of an entry that is kept, from wherever it is to be had. `holds` is set for a directory opened ahead. */
  method ReadStat(d: Disk, place: nat, kind: Kind, known: Option<Stat>, holds: bool) returns (stat: Option<Stat>)
    requires place < |d.entries| && (holds ==> kind == DirectoryKind)
    requires if d.entries[place].kind == UnknownKind then known == d.stats(place) && known.Some? else known.None?
    ensures stat == Metadata(d, place, kind, holds)
    ensures kind != DirectoryKind ==> forall ahead :: stat == Metadata(d, place, kind, ahead)
  {
    if known.Some? {
      stat := known;
    } else if !d.full {
      stat := Some(Unread(kind));
    } else if holds && d.statsItself {
      stat := d.own(place);
    } else if d.statsItself && kind == DirectoryKind {
      stat := d.named(place);
    } else {
      stat := d.stats(place);
    }
  }
}
