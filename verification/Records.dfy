/**
 * A directory listing as Windows writes it: FILE_FULL_DIR_INFORMATION records, linked by how far it is from each to
 * the one after it.
 */
module Records {
  import opened Tree
  import opened LittleEndian

  const NEXT_ENTRY_OFFSET: nat := 0
  const LAST_WRITE_TIME: nat := 24
  const END_OF_FILE: nat := 40
  const FILE_ATTRIBUTES: nat := 56
  const FILE_NAME_LENGTH: nat := 60
  const EA_SIZE: nat := 64
  const HEADER: nat := 68

  const LIMIT64: int := 0x1_0000_0000_0000_0000
  const HALF64: int := 0x8000_0000_0000_0000

  datatype Metadata = Metadata(attributes: nat, reparseTag: nat, size: nat, lastWrite: int)

  datatype Entry = Entry(name: seq<Byte>, metadata: Metadata)

  /** UTF-16 `.` and `..`. */
  predicate Dots(name: seq<Byte>) {
    name == [46, 0] || name == [46, 0, 46, 0]
  }

  predicate ReparsePoint(attributes: nat) {
    attributes / 0x400 % 2 == 1
  }

  function Signed(n: nat): int {
    if n < HALF64 then n else n as int - LIMIT64
  }

  function Unsigned(n: int): nat
    requires -HALF64 <= n < HALF64
  {
    if n >= 0 then n else n + LIMIT64
  }

  predicate Fixed(data: seq<Byte>, at: nat) {
    at + HEADER <= |data|
  }

  function U32At(data: seq<Byte>, at: nat): nat
    requires at + 4 <= |data|
  {
    LeU32(data[at..at + 4])
  }

  function U64At(data: seq<Byte>, at: nat): nat
    requires at + 8 <= |data|
  {
    LeU64(data[at..at + 8])
  }

  /** A record, fixed part and name, lies in the data at `at`. */
  predicate WholeAt(data: seq<Byte>, at: nat) {
    Fixed(data, at) && at + HEADER + U32At(data, at + FILE_NAME_LENGTH) <= |data|
  }

  function EndAt(data: seq<Byte>, at: nat): nat
    requires WholeAt(data, at)
  {
    at + HEADER + U32At(data, at + FILE_NAME_LENGTH)
  }

  function EntryAt(data: seq<Byte>, at: nat): Entry
    requires WholeAt(data, at)
  {
    var attributes := U32At(data, at + FILE_ATTRIBUTES);
    Entry(data[at + HEADER..EndAt(data, at)],
          Metadata(attributes,
                   if ReparsePoint(attributes) then U32At(data, at + EA_SIZE) else 0,
                   U64At(data, at + END_OF_FILE),
                   Signed(U64At(data, at + LAST_WRITE_TIME))))
  }

  function Shown(e: Entry): seq<Entry> {
    if Dots(e.name) then [] else [e]
  }

  /** The entries of the chain from `at` on, until it ends or leaves the data. */
  function EntriesFrom(data: seq<Byte>, at: nat): seq<Entry>
    decreases |data| - at
  {
    if !WholeAt(data, at) then []
    else
      var next := U32At(data, at + NEXT_ENTRY_OFFSET);
      Shown(EntryAt(data, at)) + if next == 0 then [] else EntriesFrom(data, at + next)
  }

  /** `each` went on after every one of these. */
  ghost predicate Accepted(each: seq<Entry> -> bool, seen: seq<Entry>) {
    forall k :: 0 < k <= |seen| ==> each(seen[..k])
  }

  lemma AcceptedMore(each: seq<Entry> -> bool, seen: seq<Entry>, e: Entry)
    requires Accepted(each, seen) && each(seen + [e])
    ensures Accepted(each, seen + [e])
  {
    forall k | 0 < k <= |seen| + 1
      ensures each((seen + [e])[..k])
    {
      assert (seen + [e])[..k] == if k <= |seen| then seen[..k] else seen + [e];
    }
  }

  /** The entries behind the record at `at`. */
  function Later(data: seq<Byte>, at: nat): seq<Entry>
    requires WholeAt(data, at)
  {
    if U32At(data, at + NEXT_ENTRY_OFFSET) == 0 then [] else EntriesFrom(data, at + U32At(data, at + NEXT_ENTRY_OFFSET))
  }

  lemma Unfolded(data: seq<Byte>, at: nat)
    requires WholeAt(data, at)
    ensures EntriesFrom(data, at) == Shown(EntryAt(data, at)) + Later(data, at)
  {
    hide EntryAt, Shown, LeU32;
  }

  lemma LastRecord(data: seq<Byte>, at: nat)
    requires WholeAt(data, at) && U32At(data, at + NEXT_ENTRY_OFFSET) == 0
    ensures EntriesFrom(data, at) == Shown(EntryAt(data, at)) && Later(data, at) == []
  {
    hide EntriesFrom, EntryAt, Shown;
    hide LeU32;
    Unfolded(data, at);
    assert Shown(EntryAt(data, at)) + [] == Shown(EntryAt(data, at));
  }

  /** What the record at `at` adds to the entries before it. */
  lemma OneRecord(data: seq<Byte>, at: nat, seen: seq<Entry>)
    requires EntriesFrom(data, 0) == seen + EntriesFrom(data, at) && WholeAt(data, at)
    ensures EntriesFrom(data, 0) == (seen + Shown(EntryAt(data, at))) + Later(data, at)
  {
    hide EntriesFrom, EntryAt, Shown, Later, U32At, EndAt;
    Unfolded(data, at);
    PlusAssociates(seen, Shown(EntryAt(data, at)), Later(data, at));
  }

  lemma WhatFollows(data: seq<Byte>, at: nat)
    requires WholeAt(data, at)
    ensures var next := U32At(data, at + NEXT_ENTRY_OFFSET);
            Later(data, at) == if next == 0 then [] else EntriesFrom(data, at + next)
  {
  }

  lemma NameAt(data: seq<Byte>, at: nat)
    requires WholeAt(data, at)
    ensures EntryAt(data, at).name == data[at + HEADER..EndAt(data, at)]
  {
  }

  lemma NoRecord(data: seq<Byte>, at: nat)
    requires !WholeAt(data, at)
    ensures EntriesFrom(data, at) == []
  {
  }

  /** Gives `each` the entries until the chain ends or leaves the data, or `each` wants no more. */
  method ReadRecords(data: seq<Byte>, each: seq<Entry> -> bool) returns (seen: seq<Entry>, finished: bool)
    ensures finished ==> seen == EntriesFrom(data, 0) && Accepted(each, seen)
    ensures !finished ==> seen != [] && seen <= EntriesFrom(data, 0) && !each(seen)
  {
    hide EntryAt, EntriesFrom, U32At, Accepted, Later;
    var at: nat := 0;
    seen, finished := [], true;
    assert Accepted(each, seen) by { NoneAccepted(each); }
    assert EntriesFrom(data, 0) == [] + EntriesFrom(data, 0);
    while Fixed(data, at)
      invariant finished && EntriesFrom(data, 0) == seen + EntriesFrom(data, at) && Accepted(each, seen)
      decreases |data| - at
    {
      var length := U32At(data, at + FILE_NAME_LENGTH);
      if at + HEADER + length > |data| {
        break;
      }
      OneRecord(data, at, seen);
      NameAt(data, at);
      var name := data[at + HEADER..at + HEADER + length];
      if Dots(name) {
        assert seen + [] == seen;
      } else {
        var entry := EntryAt(data, at);
        if !each(seen + [entry]) {
          return seen + [entry], false;
        }
        AcceptedMore(each, seen, entry);
        seen := seen + [entry];
      }
      var next := U32At(data, at + NEXT_ENTRY_OFFSET);
      WhatFollows(data, at);
      if next == 0 {
        assert seen + [] == seen;
        return;
      }
      at := at + next;
    }
    NoRecord(data, at);
    assert seen + [] == seen;
  }

  lemma NoneAccepted(each: seq<Entry> -> bool)
    ensures Accepted(each, [])
  {
  }

  // ----- where the fields lie

  /** The bytes of a little-endian number in two's complement, as the field at `at` holds it. */
  lemma SignedDigits(data: seq<Byte>, at: nat)
    requires at + 8 <= |data|
    ensures var low := U64At(data, at);
            && low == LeU64(data[at..at + 8])
            && Signed(low) == if data[at + 7] >= 0x80 then low - 0x1_0000_0000_0000_0000 else low
  {
    LeU64Digits(data[at..at + 8]);
  }

  /** A record by the offsets of FILE_FULL_DIR_INFORMATION, all of them counted from its start. */
  lemma RecordByOffsets(data: seq<Byte>, at: nat)
    ensures WholeAt(data, at) <==> at + 68 <= |data| && at + 68 + LeU32(data[at + 60..at + 64]) <= |data|
    ensures WholeAt(data, at) ==>
              var e, attributes := EntryAt(data, at), LeU32(data[at + 56..at + 60]);
              && e.name == data[at + 68..at + 68 + LeU32(data[at + 60..at + 64])]
              && e.metadata.attributes == attributes
              && e.metadata.reparseTag == (if attributes % 0x800 >= 0x400 then LeU32(data[at + 64..at + 68]) else 0)
              && e.metadata.size == LeU64(data[at + 40..at + 48])
              && e.metadata.lastWrite == LeU64(data[at + 24..at + 32]) - if data[at + 31] >= 0x80 then 0x1_0000_0000_0000_0000 else 0
  {
    hide LeU32, LeU64;
    if WholeAt(data, at) {
      SignedDigits(data, at + 24);
    }
  }

  /** The chain one record at a time: the directory itself and the one above it are left out, and an offset of 0 ends it. */
  lemma ChainByOffsets(data: seq<Byte>, at: nat)
    requires WholeAt(data, at)
    ensures var name, next := EntryAt(data, at).name, LeU32(data[at..at + 4]);
            EntriesFrom(data, at)
              == (if name == ['.' as Byte, 0] || name == ['.' as Byte, 0, '.' as Byte, 0] then [] else [EntryAt(data, at)])
                 + if next == 0 then [] else EntriesFrom(data, at + next)
  {
    hide EntryAt, LeU32;
    Unfolded(data, at);
    WhatFollows(data, at);
  }

  // ----- truncation

  /** A record that is whole in the first bytes is the same record in all of them. */
  lemma SameRecord(data: seq<Byte>, cut: nat, at: nat)
    requires cut <= |data| && WholeAt(data[..cut], at)
    ensures WholeAt(data, at) && EndAt(data, at) == EndAt(data[..cut], at)
    ensures EntryAt(data, at) == EntryAt(data[..cut], at)
    ensures U32At(data, at) == U32At(data[..cut], at)
  {
    hide LeU32, LeU64;
    var short := data[..cut];
    assert forall from, to :: 0 <= from <= to <= cut ==> short[from..to] == data[from..to];
  }

  lemma WholeInside(data: seq<Byte>, at: nat)
    requires WholeAt(data, at)
    ensures at + HEADER <= |data|
  {
  }

  /** Parsing a truncated chain gives the first entries of the whole one. */
  lemma {:induction false} TruncationGivesAPrefix(data: seq<Byte>, cut: nat, at: nat)
    requires cut <= |data|
    ensures EntriesFrom(data[..cut], at) <= EntriesFrom(data, at)
    decreases |data| - at
  {
    hide EntryAt, LeU32, LeU64, EntriesFrom, Fixed, WholeAt, U32At;
    if WholeAt(data[..cut], at) {
      SameRecord(data, cut, at);
      WholeInside(data, at);
      var next := U32At(data, at + NEXT_ENTRY_OFFSET);
      if next != 0 {
        TruncationGivesAPrefix(data, cut, at + next);
      }
      OneMoreInFront(data, data[..cut], at, next);
    } else {
      NoRecord(data[..cut], at);
    }
  }

  lemma OneMoreInFront(data: seq<Byte>, short: seq<Byte>, at: nat, next: nat)
    requires WholeAt(data, at) && WholeAt(short, at) && EntryAt(short, at) == EntryAt(data, at)
    requires U32At(data, at) == U32At(short, at) == next
    requires next != 0 ==> EntriesFrom(short, at + next) <= EntriesFrom(data, at + next)
    ensures EntriesFrom(short, at) <= EntriesFrom(data, at)
  {
    hide EntryAt, WholeAt, U32At, Shown, EntriesFrom;
    if next == 0 {
      LastRecord(data, at);
      LastRecord(short, at);
    } else {
      UnfoldedOn(data, at, next);
      UnfoldedOn(short, at, next);
    }
  }

  // ----- a chain as it is built

  /** From `at` the chain leads to `last`, its last record, which ends the data; no two records overlap. */
  ghost predicate Leads(data: seq<Byte>, at: nat, last: nat)
    decreases last - at
  {
    && at <= last && WholeAt(data, at)
    && var next := U32At(data, at + NEXT_ENTRY_OFFSET);
       if at == last then next == 0 && EndAt(data, at) == |data|
       else next != 0 && EndAt(data, at) <= at + next && Leads(data, at + next, last)
  }

  lemma SlicesAgree(data: seq<Byte>, to: seq<Byte>, from: nat, end: nat)
    requires from <= end <= |data| && end <= |to|
    requires forall i :: from <= i < end ==> to[i] == data[i]
    ensures forall a, b :: from <= a <= b <= end ==> to[a..b] == data[a..b]
  {
  }

  /** A record is what its bytes behind the offset of the next one say. */
  lemma RecordStays(data: seq<Byte>, to: seq<Byte>, at: nat)
    requires WholeAt(data, at) && EndAt(data, at) <= |to|
    requires forall i :: at + 4 <= i < EndAt(data, at) ==> to[i] == data[i]
    ensures WholeAt(to, at) && EndAt(to, at) == EndAt(data, at) && EntryAt(to, at) == EntryAt(data, at)
  {
    hide LeU32, LeU64;
    SlicesAgree(data, to, at + 4, EndAt(data, at));
  }

  /** `to` is `data` with the last record's offset set to `start`, and more behind it. */
  ghost predicate Extended(data: seq<Byte>, to: seq<Byte>, last: nat, start: nat) {
    && last + HEADER <= |data| <= start <= |to|
    && (forall i :: 0 <= i < |data| && !(last <= i < last + 4) ==> to[i] == data[i])
    && U32At(to, last) == start - last
  }

  /** Every record of the chain stays, and only the last one's offset is changed. */
  lemma ChainStays(data: seq<Byte>, to: seq<Byte>, at: nat, last: nat, start: nat)
    requires Leads(data, at, last) && Extended(data, to, last, start)
    ensures WholeAt(data, at) && WholeAt(to, at) && EntryAt(to, at) == EntryAt(data, at)
    ensures EndAt(to, at) == EndAt(data, at) <= start && at < start
    ensures at != last ==> U32At(to, at) == U32At(data, at) != 0
    ensures at == last ==> U32At(data, at) == 0 && U32At(to, at) == start - last
  {
    hide EntryAt, U32At;
    LeadsInside(data, at, last);
    RecordStays(data, to, at);
    if at != last {
      SlicesAgree(data, to, at, at + 4);
      assert to[at..at + 4] == data[at..at + 4];
      SameOffset(data, to, at);
    }
  }

  lemma SameOffset(data: seq<Byte>, to: seq<Byte>, at: nat)
    requires at + 4 <= |data| && at + 4 <= |to| && to[at..at + 4] == data[at..at + 4]
    ensures U32At(to, at) == U32At(data, at)
  {
  }

  /** The last record now leads to the new one. */
  lemma LastExtends(data: seq<Byte>, to: seq<Byte>, last: nat, start: nat)
    requires WholeAt(data, last) && WholeAt(to, last) && EntryAt(to, last) == EntryAt(data, last)
    requires U32At(data, last) == 0 && last < start && U32At(to, last) == start - last
    requires WholeAt(to, start) && U32At(to, start) == 0
    ensures EntriesFrom(to, last) == EntriesFrom(data, last) + Shown(EntryAt(to, start))
  {
    hide EntryAt, WholeAt, LeU32, EntriesFrom, Shown;
    LastRecord(data, last);
    UnfoldedOn(to, last, start - last);
    LastRecord(to, start);
  }

  /** Following the new offset, the chain goes on behind its old end. */
  lemma {:induction false} ChainExtends(data: seq<Byte>, to: seq<Byte>, at: nat, last: nat, start: nat)
    requires Leads(data, at, last) && Extended(data, to, last, start)
    requires WholeAt(to, start) && U32At(to, start) == 0
    ensures EntriesFrom(to, at) == EntriesFrom(data, at) + Shown(EntryAt(to, start))
    decreases last - at
  {
    hide LeU32, LeU64, EntryAt, Extended, Shown;
    hide U32At;
    ChainStays(data, to, at, last, start);
    var next := U32At(data, at);
    assert at != last ==> Leads(data, at + next, last) && next > 0;
    assert at <= last;
    hide EntryAt, WholeAt, EntriesFrom, U32At, Extended, EndAt, Shown, Leads;
    if at == last {
      LastExtends(data, to, last, start);
    } else {
      ChainExtends(data, to, at + next, last, start);
      StepExtends(data, to, at, next, start);
    }
  }

  lemma {:induction false} LeadsFurther(data: seq<Byte>, to: seq<Byte>, at: nat, last: nat, start: nat)
    requires Leads(data, at, last) && Extended(data, to, last, start)
    requires WholeAt(to, start) && U32At(to, start) == 0 && EndAt(to, start) == |to|
    ensures Leads(to, at, start)
    decreases last - at
  {
    hide LeU32, LeU64, EntryAt, Extended, Shown;
    hide U32At;
    ChainStays(data, to, at, last, start);
    var next := U32At(data, at);
    assert at != last ==> Leads(data, at + next, last) && EndAt(data, at) <= at + next;
    assert at <= last;
    hide EntryAt, WholeAt, U32At, Extended, Leads;
    if at != last {
      LeadsFurther(data, to, at + next, last, start);
      OneMore(to, at, start);
    } else {
      AlreadyThere(to, start);
      OneMore(to, at, start);
    }
  }

  lemma AlreadyThere(data: seq<Byte>, last: nat)
    requires WholeAt(data, last) && U32At(data, last) == 0 && EndAt(data, last) == |data|
    ensures Leads(data, last, last)
  {
  }

  lemma OneMore(data: seq<Byte>, at: nat, last: nat)
    requires WholeAt(data, at) && at < last
    requires U32At(data, at) != 0 && EndAt(data, at) <= at + U32At(data, at) && Leads(data, at + U32At(data, at), last)
    ensures Leads(data, at, last)
  {
  }

  lemma UnfoldedOn(data: seq<Byte>, at: nat, next: nat)
    requires WholeAt(data, at) && U32At(data, at) == next != 0
    ensures EntriesFrom(data, at) == Shown(EntryAt(data, at)) + EntriesFrom(data, at + next)
  {
    hide EntryAt, Shown, LeU32;
  }

  /** A record that stays, in front of what was extended. */
  lemma StepExtends(data: seq<Byte>, to: seq<Byte>, at: nat, next: nat, start: nat)
    requires WholeAt(data, at) && WholeAt(to, at) && WholeAt(to, start) && EntryAt(to, at) == EntryAt(data, at)
    requires U32At(data, at) == U32At(to, at) == next != 0
    requires EntriesFrom(to, at + next) == EntriesFrom(data, at + next) + Shown(EntryAt(to, start))
    ensures EntriesFrom(to, at) == EntriesFrom(data, at) + Shown(EntryAt(to, start))
  {
    hide EntryAt, WholeAt, U32At, Shown, EntriesFrom;
    UnfoldedOn(data, at, next);
    UnfoldedOn(to, at, next);
    PlusAssociates(Shown(EntryAt(data, at)), EntriesFrom(data, at + next), Shown(EntryAt(to, start)));
  }

  lemma LeadsInside(data: seq<Byte>, at: nat, last: nat)
    requires Leads(data, at, last)
    ensures EndAt(data, at) <= |data| && (at == last || EndAt(data, at) <= last)
  {
  }

  function Put(bytes: seq<Byte>, at: nat, value: seq<Byte>): (put: seq<Byte>)
    requires at + |value| <= |bytes|
    ensures |put| == |bytes|
  {
    bytes[..at] + value + bytes[at + |value|..]
  }

  lemma PutSlices(bytes: seq<Byte>, at: nat, value: seq<Byte>)
    requires at + |value| <= |bytes|
    ensures Put(bytes, at, value)[at..at + |value|] == value
    ensures forall a, b :: 0 <= a <= b <= |bytes| && (b <= at || at + |value| <= a) ==> Put(bytes, at, value)[a..b] == bytes[a..b]
    ensures forall i :: 0 <= i < |bytes| && !(at <= i < at + |value|) ==> Put(bytes, at, value)[i] == bytes[i]
  {
    var put := Put(bytes, at, value);
    forall a, b | 0 <= a <= b <= |bytes| && (b <= at || at + |value| <= a)
      ensures put[a..b] == bytes[a..b]
    {
    }
  }

  predicate MetadataOk(m: Metadata) {
    m.attributes < LIMIT && m.reparseTag < LIMIT && m.size < LIMIT64 && -HALF64 <= m.lastWrite < HALF64
  }

  /** What a reader finds of metadata: no tag unless the entry is a reparse point. */
  function Read(m: Metadata): Metadata {
    if ReparsePoint(m.attributes) then m else m.(reparseTag := 0)
  }

  function NextMultipleOf8(n: nat): nat {
    (n + 7) / 8 * 8
  }

  function Zeros(n: nat): seq<Byte> {
    seq(n, i requires 0 <= i < n => 0 as Byte)
  }

  /** Records chained as the system chains them, each starting at a multiple of eight. */
  class Chain {
    var bytes: seq<Byte>
    var last: Option<nat>

    ghost predicate Valid()
      reads this
    {
      if last.None? then bytes == [] else Leads(bytes, 0, last.value)
    }

    constructor ()
      ensures Valid() && bytes == []
    {
      bytes, last := [], None;
    }

    /** Adds a record with this name, in UTF-16; `eaSize` is what the tag's field holds if it is no reparse point. */
    method Push(name: seq<Byte>, metadata: Metadata, eaSize: nat)
      requires Valid() && MetadataOk(metadata) && eaSize < LIMIT
      requires |name| < LIMIT && (last.Some? ==> NextMultipleOf8(|bytes|) < last.value + LIMIT)
      modifies this
      ensures Valid()
      ensures EntriesFrom(bytes, 0) == old(EntriesFrom(bytes, 0)) + Shown(Entry(name, Read(metadata)))
      ensures last.Some? && last.value % 8 == 0 && old(|bytes|) <= last.value < old(|bytes|) + 8 && |bytes| == last.value + 68 + |name|
    {
      hide EntriesFrom, EntryAt, LeU32, LeU64, Le32, Le64, Put, Leads, U32At, Zeros, Holds;
      var start := NextMultipleOf8(|bytes|);
      ghost var before := bytes;
      if last.Some? {
        LeadsEnds(bytes, 0, last.value);
        bytes := Put(bytes, last.value + NEXT_ENTRY_OFFSET, Le32(start - last.value));
      }
      ghost var linked := bytes;
      BlankBehind(bytes, start, HEADER + |name|);
      bytes := bytes + Zeros(start + HEADER + |name| - |bytes|);
      ghost var blank := bytes;
      var field := if ReparsePoint(metadata.attributes) then metadata.reparseTag else eaSize;
      bytes := Fields(bytes, start, name, field, metadata);
      NewRecord(bytes, start, name, field, metadata);
      OffsetIsZero(blank, bytes, start);
      if last.Some? {
        Relinked(before, blank, bytes, last.value, start);
        ChainExtends(before, bytes, 0, last.value, start);
        LeadsFurther(before, bytes, 0, last.value, start);
      } else {
        FirstRecord(bytes);
      }
      last := Some(start);
    }
  }

  lemma BlankBehind(bytes: seq<Byte>, start: nat, len: nat)
    requires |bytes| <= start && len >= 4
    ensures var blank := bytes + Zeros(start + len - |bytes|);
            |blank| == start + len && blank[start..start + 4] == [0, 0, 0, 0] && blank[..|bytes|] == bytes
  {
  }

  lemma OffsetIsZero(blank: seq<Byte>, bytes: seq<Byte>, start: nat)
    requires start + 24 <= |bytes| && |bytes| == |blank| && bytes[..start + 24] == blank[..start + 24]
    requires blank[start..start + 4] == [0, 0, 0, 0]
    ensures U32At(bytes, start) == 0
  {
    assert bytes[start..start + 4] == bytes[..start + 24][start..start + 4] == blank[start..start + 4];
  }

  lemma Relinked(before: seq<Byte>, blank: seq<Byte>, bytes: seq<Byte>, last: nat, start: nat)
    requires last + HEADER <= |before| <= start && start - last < LIMIT
    requires start + 24 <= |bytes| == |blank| && bytes[..start + 24] == blank[..start + 24]
    requires blank[..|before|] == Put(before, last, Le32(start - last))
    ensures Extended(before, bytes, last, start)
  {
    hide Le32;
    var put := Put(before, last, Le32(start - last));
    PutSlices(before, last, Le32(start - last));
    LeBack(start - last);
    forall i | 0 <= i < |before|
      ensures bytes[i] == put[i]
    {
      assert bytes[i] == bytes[..start + 24][i] == blank[..start + 24][i] == blank[i] == blank[..|before|][i];
    }
    hide Put;
    assert bytes[last..last + 4] == put[last..last + 4];
  }

  lemma {:induction false} LeadsEnds(data: seq<Byte>, at: nat, last: nat)
    requires Leads(data, at, last)
    ensures last + HEADER <= |data|
    decreases last - at
  {
    if at != last {
      LeadsEnds(data, at + U32At(data, at), last);
    }
  }

  /** The fields of the record at `start`, and its name. */
  ghost predicate Holds(bytes: seq<Byte>, start: nat, name: seq<Byte>, field: nat, m: Metadata)
    requires MetadataOk(m)
  {
    && |bytes| == start + HEADER + |name|
    && bytes[start + EA_SIZE..start + EA_SIZE + 4] == Le32(field)
    && bytes[start + FILE_NAME_LENGTH..start + FILE_NAME_LENGTH + 4] == Le32(|name|)
    && bytes[start + FILE_ATTRIBUTES..start + FILE_ATTRIBUTES + 4] == Le32(m.attributes)
    && bytes[start + END_OF_FILE..start + END_OF_FILE + 8] == Le64(m.size)
    && bytes[start + LAST_WRITE_TIME..start + LAST_WRITE_TIME + 8] == Le64(Unsigned(m.lastWrite))
    && bytes[start + HEADER..] == name
  }

  /** Writes the fields of a record one after another; nothing else changes. */
  method Fields(blank: seq<Byte>, start: nat, name: seq<Byte>, field: nat, m: Metadata) returns (bytes: seq<Byte>)
    requires MetadataOk(m) && |blank| == start + HEADER + |name|
    ensures |bytes| == |blank| && Holds(bytes, start, name, field, m)
    ensures bytes[..start + LAST_WRITE_TIME] == blank[..start + LAST_WRITE_TIME]
  {
    hide Le32, Le64, Put, LeU32, LeU64;
    var short := ShortFields(blank, start, name, field, m);
    PutSlices(short, start + END_OF_FILE, Le64(m.size));
    bytes := Put(short, start + END_OF_FILE, Le64(m.size));
    PutSlices(bytes, start + LAST_WRITE_TIME, Le64(Unsigned(m.lastWrite)));
    bytes := Put(bytes, start + LAST_WRITE_TIME, Le64(Unsigned(m.lastWrite)));
    PutSlices(bytes, start + HEADER, name);
    bytes := Put(bytes, start + HEADER, name);
    assert bytes[start + HEADER..] == bytes[start + HEADER..start + HEADER + |name|];
    assert bytes[0..start + LAST_WRITE_TIME] == blank[0..start + LAST_WRITE_TIME];
  }

  /** The fields of four bytes each. */
  method ShortFields(blank: seq<Byte>, start: nat, name: seq<Byte>, field: nat, m: Metadata) returns (bytes: seq<Byte>)
    requires MetadataOk(m) && |blank| == start + HEADER + |name|
    ensures |bytes| == |blank|
    ensures bytes[start + EA_SIZE..start + EA_SIZE + 4] == Le32(field)
    ensures bytes[start + FILE_NAME_LENGTH..start + FILE_NAME_LENGTH + 4] == Le32(|name|)
    ensures bytes[start + FILE_ATTRIBUTES..start + FILE_ATTRIBUTES + 4] == Le32(m.attributes)
    ensures bytes[0..start + LAST_WRITE_TIME] == blank[0..start + LAST_WRITE_TIME]
  {
    hide Le32, Put;
    PutSlices(blank, start + EA_SIZE, Le32(field));
    bytes := Put(blank, start + EA_SIZE, Le32(field));
    PutSlices(bytes, start + FILE_NAME_LENGTH, Le32(|name|));
    bytes := Put(bytes, start + FILE_NAME_LENGTH, Le32(|name|));
    PutSlices(bytes, start + FILE_ATTRIBUTES, Le32(m.attributes));
    bytes := Put(bytes, start + FILE_ATTRIBUTES, Le32(m.attributes));
  }

  /** A written record is read back. */
  lemma NewRecord(bytes: seq<Byte>, start: nat, name: seq<Byte>, field: nat, m: Metadata)
    requires MetadataOk(m) && Holds(bytes, start, name, field, m) && |name| < LIMIT && field < LIMIT
    requires ReparsePoint(m.attributes) ==> field == m.reparseTag
    ensures WholeAt(bytes, start) && EndAt(bytes, start) == |bytes|
    ensures EntryAt(bytes, start) == Entry(name, Read(m))
  {
    hide Le32, Le64, LeU32, LeU64;
    LeBack(field);
    LeBack(|name|);
    LeBack(m.attributes);
    LeBack64(m.size);
    LeBack64(Unsigned(m.lastWrite));
  }

  lemma FirstRecord(data: seq<Byte>)
    requires WholeAt(data, 0) && U32At(data, 0) == 0 && EndAt(data, 0) == |data|
    ensures EntriesFrom(data, 0) == Shown(EntryAt(data, 0)) && Leads(data, 0, 0)
    ensures EntriesFrom([], 0) == []
  {
    LastRecord(data, 0);
  }
}
