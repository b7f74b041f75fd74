/** The seek table at the end of a file, in zstd's seekable format: written, and found again. */
module Seek {
  import opened Tree
  import opened LittleEndian

  datatype FrameSize = FrameSize(len: nat, rawLen: nat)

  datatype FrameSpan = FrameSpan(start: nat, len: nat, rawLen: Option<nat>)

  const SKIPPABLE_HEAD_LEN: nat := 8
  const SEEK_TABLE_MAGIC: nat := 0x184D_2A5E
  const SEEKABLE_MAGIC: nat := 0x8F92_EAB1
  const SEEK_TABLE_FOOTER_LEN: nat := 9
  const SEEK_TABLE_ENTRY_LEN: nat := 8
  const SEEK_TABLE_CHECKSUM_LEN: nat := 4

  // ----- the table a writer makes

  /** Every number of the table fits the four bytes it gets. */
  predicate Fits(frames: seq<FrameSize>) {
    && |frames| * SEEK_TABLE_ENTRY_LEN + SEEK_TABLE_FOOTER_LEN < LIMIT
    && SizesFit(frames)
  }

  predicate SizesFit(frames: seq<FrameSize>) {
    forall i :: 0 <= i < |frames| ==> frames[i].len < LIMIT && frames[i].rawLen < LIMIT
  }

  // ----- any table of the format

  /** One entry: two sizes, and four more bytes in a table with checksums. */
  datatype TableEntry = TableEntry(len: nat, rawLen: nat, checksum: seq<Byte>)

  predicate Checksums(descriptor: Byte) {
    descriptor >= 0x80
  }

  /** The five bits that a reader must find unset. */
  predicate ReservedBits(descriptor: Byte) {
    descriptor / 4 % 32 != 0
  }

  function EntryLen(descriptor: Byte): nat {
    if Checksums(descriptor) then SEEK_TABLE_ENTRY_LEN + SEEK_TABLE_CHECKSUM_LEN else SEEK_TABLE_ENTRY_LEN
  }

  function EntryBytes(e: TableEntry): seq<Byte> {
    Le32(e.len) + Le32(e.rawLen) + e.checksum
  }

  function EntriesBytes(entries: seq<TableEntry>): seq<Byte> {
    if entries == [] then [] else EntryBytes(entries[0]) + EntriesBytes(entries[1..])
  }

  /** A skippable frame that holds the entries and the footer. */
  function TableBytes(entries: seq<TableEntry>, descriptor: Byte): seq<Byte> {
    Head(|entries| * EntryLen(descriptor) + SEEK_TABLE_FOOTER_LEN) + EntriesBytes(entries) + Footer(|entries|, descriptor)
  }

  function Head(payload: nat): (head: seq<Byte>)
    ensures |head| == SKIPPABLE_HEAD_LEN
  {
    Le32(SEEK_TABLE_MAGIC) + Le32(payload)
  }

  function Footer(count: nat, descriptor: Byte): (footer: seq<Byte>)
    ensures |footer| == SEEK_TABLE_FOOTER_LEN
  {
    Le32(count) + [descriptor] + Le32(SEEKABLE_MAGIC)
  }

  /** The table is one of the format, and its numbers fit. */
  predicate WellFormed(entries: seq<TableEntry>, descriptor: Byte) {
    && !ReservedBits(descriptor)
    && |entries| * EntryLen(descriptor) + SEEK_TABLE_FOOTER_LEN < LIMIT
    && EntriesOk(entries, descriptor)
  }

  predicate EntriesOk(entries: seq<TableEntry>, descriptor: Byte) {
    forall i :: 0 <= i < |entries| ==>
      && entries[i].len < LIMIT && entries[i].rawLen < LIMIT
      && |entries[i].checksum| == EntryLen(descriptor) - SEEK_TABLE_ENTRY_LEN
  }

  /** The sum of the frames' lengths. */
  function Length(entries: seq<TableEntry>): nat {
    if entries == [] then 0 else entries[0].len + Length(entries[1..])
  }

  /** Each frame starts where the one before it ends. */
  function SpansFrom(start: nat, entries: seq<TableEntry>): seq<FrameSpan>
    decreases entries
  {
    if entries == [] then []
    else [FrameSpan(start, entries[0].len, Some(entries[0].rawLen))] + SpansFrom(start + entries[0].len, entries[1..])
  }

  function Entries(frames: seq<FrameSize>): seq<TableEntry> {
    seq(|frames|, i requires 0 <= i < |frames| => TableEntry(frames[i].len, frames[i].rawLen, []))
  }

  lemma {:induction false} EntriesBytesPlus(a: seq<TableEntry>, b: seq<TableEntry>)
    ensures EntriesBytes(a + b) == EntriesBytes(a) + EntriesBytes(b)
    decreases |a|
  {
    if a == [] {
      assert a + b == b;
    } else {
      assert (a + b)[1..] == a[1..] + b;
      EntriesBytesPlus(a[1..], b);
    }
  }

  lemma {:induction false} EntriesBytesLength(entries: seq<TableEntry>, descriptor: Byte)
    requires EntriesOk(entries, descriptor)
    ensures |EntriesBytes(entries)| == |entries| * EntryLen(descriptor)
    decreases |entries|
  {
    if entries != [] {
      EntriesBytesLength(entries[1..], descriptor);
      assert |entries| * EntryLen(descriptor) == EntryLen(descriptor) + |entries[1..]| * EntryLen(descriptor);
    }
  }

  /** Writes the seek table of `frames`, without checksums, unless a number is past what it can hold. */
  method SeekTable(frames: seq<FrameSize>) returns (table: Option<seq<Byte>>)
    ensures table == if Fits(frames) then Some(TableBytes(Entries(frames), 0)) else None
  {
    hide EntriesBytes, Le32, Entries;
    var payload := |frames| * SEEK_TABLE_ENTRY_LEN + SEEK_TABLE_FOOTER_LEN;
    if payload >= LIMIT || |frames| >= LIMIT {
      return None;
    }
    var bytes := Le32(SEEK_TABLE_MAGIC) + Le32(payload);
    EntriesNone(frames);
    for i := 0 to |frames|
      invariant bytes == Head(payload) + EntriesBytes(Entries(frames[..i]))
      invariant SizesFit(frames[..i])
    {
      EntriesMore(frames, i);
      ghost var before := bytes;
      var sizes := [frames[i].len, frames[i].rawLen];
      for j := 0 to 2
        invariant bytes == before + (if j == 0 then [] else if j == 1 then Le32(frames[i].len) else Le32(frames[i].len) + Le32(frames[i].rawLen))
        invariant forall l :: 0 <= l < j ==> sizes[l] < LIMIT
      {
        if sizes[j] >= LIMIT {
          assert frames[i].len >= LIMIT || frames[i].rawLen >= LIMIT;
          return None;
        }
        bytes := bytes + Le32(sizes[j]);
      }
      assert sizes[0] == frames[i].len && sizes[1] == frames[i].rawLen;
      assert SizesFit(frames[..i + 1]) by {
        assert forall l :: 0 <= l < i ==> frames[..i + 1][l] == frames[..i][l];
      }
    }
    assert frames[..|frames|] == frames;
    EntriesLength(frames);
    assert bytes + Footer(|frames|, 0) == ((bytes + Le32(|frames|)) + [0]) + Le32(SEEKABLE_MAGIC);
    bytes := bytes + Le32(|frames|);
    bytes := bytes + [0];
    bytes := bytes + Le32(SEEKABLE_MAGIC);
    table := Some(bytes);
  }

  lemma EntriesNone(frames: seq<FrameSize>)
    ensures frames[..0] == [] && Entries(frames[..0]) == [] && EntriesBytes(Entries(frames[..0])) == []
  {
  }

  lemma EntriesLength(frames: seq<FrameSize>)
    ensures |Entries(frames)| == |frames|
  {
  }

  lemma EntriesMore(frames: seq<FrameSize>, i: nat)
    requires i < |frames|
    ensures EntriesBytes(Entries(frames[..i + 1])) == EntriesBytes(Entries(frames[..i])) + (Le32(frames[i].len) + Le32(frames[i].rawLen))
  {
    var e := TableEntry(frames[i].len, frames[i].rawLen, []);
    assert Entries(frames[..i + 1]) == Entries(frames[..i]) + [e];
    EntriesBytesPlus(Entries(frames[..i]), [e]);
    assert [e][1..] == [];
  }

  /** The top bit of the descriptor tells of checksums, and the five bits from the third one on are reserved. */
  lemma DescriptorByBits(descriptor: Byte)
    ensures Checksums(descriptor) <==> descriptor as int / 128 == 1
    ensures EntryLen(descriptor) == if descriptor as int / 128 == 1 then 12 else 8
    ensures !ReservedBits(descriptor) <==> descriptor as int % 128 in {0, 1, 2, 3}
  {
  }

  /** The bytes around the entries: a skippable frame's magic number and length, and a seekable file's footer. */
  lemma FrameByBytes(entries: seq<TableEntry>, descriptor: Byte)
    requires WellFormed(entries, descriptor)
    ensures var table, n, w := TableBytes(entries, descriptor), |entries|, EntryLen(descriptor);
            && |table| == n * w + 17
            && table[..4] == [0x5E, 0x2A, 0x4D, 0x18]
            && table[4..8] == Le32(n * w + 9)
            && table[8 + n * w..12 + n * w] == Le32(n)
            && table[12 + n * w] == descriptor
            && table[13 + n * w..] == [0xB1, 0xEA, 0x92, 0x8F]
  {
    hide EntriesBytes;
    EntriesBytesLength(entries, descriptor);
    var payload := |entries| * EntryLen(descriptor) + 9;
    assert TableBytes(entries, descriptor) == [0x5E, 0x2A, 0x4D, 0x18] + Le32(payload) + EntriesBytes(entries) + Le32(|entries|) + [descriptor] + [0xB1, 0xEA, 0x92, 0x8F];
  }

  /** An entry's bytes: the frame's length, the length of its text, and then its checksum if there are any. */
  lemma EntryByBytes(entries: seq<TableEntry>, descriptor: Byte, i: nat)
    requires WellFormed(entries, descriptor) && i < |entries|
    ensures var table, at, w := TableBytes(entries, descriptor), 8 + i * EntryLen(descriptor), EntryLen(descriptor);
            && at + w <= |table|
            && table[at..at + 4] == Le32(entries[i].len)
            && table[at + 4..at + 8] == Le32(entries[i].rawLen)
            && table[at + 8..at + w] == entries[i].checksum
  {
    hide EntriesBytes, Le32, Footer, Head, EntryBytes;
    hide TableBytes, WellFormed, EntryLen;
    var e := entries[i];
    var head, tail := AroundEntry(entries, descriptor, i);
    ChecksumIs(entries, descriptor, i);
    InBetween(head, Le32(e.len), Le32(e.rawLen), e.checksum, tail);
  }

  lemma ChecksumIs(entries: seq<TableEntry>, descriptor: Byte, i: nat)
    requires WellFormed(entries, descriptor) && i < |entries|
    ensures 8 + |entries[i].checksum| == EntryLen(descriptor)
  {
  }

  lemma AroundEntry(entries: seq<TableEntry>, descriptor: Byte, i: nat) returns (head: seq<Byte>, tail: seq<Byte>)
    requires WellFormed(entries, descriptor) && i < |entries|
    ensures |head| == 8 + i * EntryLen(descriptor)
    ensures TableBytes(entries, descriptor) == head + (Le32(entries[i].len) + Le32(entries[i].rawLen) + entries[i].checksum) + tail
  {
    hide EntriesBytes, Le32, Footer, Head, EntryBytes, EntryLen;
    var payload := |entries| * EntryLen(descriptor) + SEEK_TABLE_FOOTER_LEN;
    var before, behind := entries[..i], entries[i + 1..];
    assert entries == before + ([entries[i]] + behind);
    EntriesBytesPlus(before, [entries[i]] + behind);
    EntriesBytesPlus([entries[i]], behind);
    EntriesBytesLength(before, descriptor);
    OneEntry(entries[i]);
    head, tail := Head(payload) + EntriesBytes(before), EntriesBytes(behind) + Footer(|entries|, descriptor);
  }

  lemma InBetween(head: seq<Byte>, a: seq<Byte>, b: seq<Byte>, c: seq<Byte>, tail: seq<Byte>)
    ensures var all, x := head + (a + b + c) + tail, |head|;
            && all[x..x + |a|] == a && all[x + |a|..x + |a| + |b|] == b
            && all[x + |a| + |b|..x + |a| + |b| + |c|] == c
  {
  }

  lemma OneEntry(e: TableEntry)
    ensures EntriesBytes([e]) == Le32(e.len) + Le32(e.rawLen) + e.checksum
  {
    assert [e][1..] == [];
  }

  // ----- what a reader looks at

  function DescriptorOf(bytes: seq<Byte>): Byte
    requires |bytes| >= SEEK_TABLE_FOOTER_LEN
  {
    bytes[|bytes| - 5]
  }

  function CountOf(bytes: seq<Byte>): nat
    requires |bytes| >= SEEK_TABLE_FOOTER_LEN
  {
    LeU32(bytes[|bytes| - 9..|bytes| - 5])
  }

  function TableLen(count: nat, descriptor: Byte): nat {
    count * EntryLen(descriptor) + (SKIPPABLE_HEAD_LEN + SEEK_TABLE_FOOTER_LEN)
  }

  /** The head and the footer say that a seek table ends here. */
  predicate Checked(bytes: seq<Byte>) {
    && |bytes| >= SEEK_TABLE_FOOTER_LEN
    && LeU32(bytes[|bytes| - 4..]) == SEEKABLE_MAGIC
    && !ReservedBits(DescriptorOf(bytes))
    && var len := TableLen(CountOf(bytes), DescriptorOf(bytes));
       && len <= |bytes|
       && LeU32(bytes[|bytes| - len..|bytes| - len + 4]) == SEEK_TABLE_MAGIC
       && LeU32(bytes[|bytes| - len + 4..|bytes| - len + 8]) == len - SKIPPABLE_HEAD_LEN
  }

  function TableAt(bytes: seq<Byte>): nat
    requires Checked(bytes)
  {
    |bytes| - TableLen(CountOf(bytes), DescriptorOf(bytes))
  }

  /** The bytes of the entries. */
  function Middle(bytes: seq<Byte>): seq<Byte>
    requires Checked(bytes)
  {
    bytes[TableAt(bytes) + SKIPPABLE_HEAD_LEN..|bytes| - SEEK_TABLE_FOOTER_LEN]
  }

  function ReadEntry(chunk: seq<Byte>): TableEntry
    requires |chunk| >= SEEK_TABLE_ENTRY_LEN
  {
    TableEntry(LeU32(chunk[0..4]), LeU32(chunk[4..8]), chunk[8..])
  }

  function ReadEntries(rest: seq<Byte>, descriptor: Byte): seq<TableEntry> {
    var len := EntryLen(descriptor);
    if |rest| < len then [] else [ReadEntry(rest[..len])] + ReadEntries(rest[len..], descriptor)
  }

  function EntriesIn(bytes: seq<Byte>): seq<TableEntry>
    requires Checked(bytes)
  {
    ReadEntries(Middle(bytes), DescriptorOf(bytes))
  }

  /** The frames of the file, if it ends in a seek table whose frames fill what is before it. */
  function Located(bytes: seq<Byte>): Option<seq<FrameSpan>> {
    if Checked(bytes) && Length(EntriesIn(bytes)) == TableAt(bytes) then Some(SpansFrom(0, EntriesIn(bytes))) else None
  }

  /** Finds every frame of the file, in order. */
  method Locate(bytes: seq<Byte>) returns (spans: Option<seq<FrameSpan>>)
    ensures spans == Located(bytes)
  {
    hide LeU32;
    if |bytes| < SEEK_TABLE_FOOTER_LEN {
      return None;
    }
    var footerAt := |bytes| - SEEK_TABLE_FOOTER_LEN;
    var footer := bytes[footerAt..];
    assert footer[5..9] == bytes[|bytes| - 4..] && footer[0..4] == bytes[|bytes| - 9..|bytes| - 5];
    if LeU32(footer[5..9]) != SEEKABLE_MAGIC {
      return None;
    }
    var descriptor := footer[4];
    if ReservedBits(descriptor) {
      return None;
    }
    var entryLen := if !Checksums(descriptor) then SEEK_TABLE_ENTRY_LEN else SEEK_TABLE_ENTRY_LEN + SEEK_TABLE_CHECKSUM_LEN;
    var count := LeU32(footer[0..4]);
    var tableLen := TableLen(count, descriptor);
    if |bytes| < tableLen {
      return None;
    }
    var tableAt := |bytes| - tableLen;
    var table := bytes[tableAt..];
    assert table[0..4] == bytes[tableAt..tableAt + 4] && table[4..8] == bytes[tableAt + 4..tableAt + 8];
    if LeU32(table[0..4]) != SEEK_TABLE_MAGIC || LeU32(table[4..8]) != |table| - SKIPPABLE_HEAD_LEN {
      return None;
    }
    assert Checked(bytes) && tableAt == TableAt(bytes);
    var rest := table[SKIPPABLE_HEAD_LEN..footerAt - tableAt];
    assert rest == Middle(bytes);
    spans := ReadSpans(rest, descriptor, entryLen, tableAt);
  }

  /** Where the frames that `table` lists lie, if they are just what is before `tableAt`. */
  method ReadSpans(table: seq<Byte>, descriptor: Byte, entryLen: nat, tableAt: nat) returns (spans: Option<seq<FrameSpan>>)
    requires entryLen == EntryLen(descriptor)
    ensures var entries := ReadEntries(table, descriptor);
            spans == if Length(entries) != tableAt then None else Some(SpansFrom(0, entries))
  {
    hide ReadEntries, ReadEntry, SpansFrom, Length, EntryLen;
    var rest, frames: seq<FrameSpan>, start: nat := table, [], 0;
    ghost var entries := ReadEntries(table, descriptor);
    assert [] + SpansFrom(0, entries) == SpansFrom(0, entries);
    while |rest| >= entryLen
      invariant SpansFrom(0, entries) == frames + SpansFrom(start, ReadEntries(rest, descriptor))
      invariant Length(entries) == start + Length(ReadEntries(rest, descriptor))
      invariant start <= tableAt
      decreases |rest|
    {
      EntryLenPositive(descriptor);
      var entry := ReadEntry(rest[..entryLen]);
      ghost var later := ReadEntries(rest[entryLen..], descriptor);
      ReadNext(rest, descriptor);
      SpansNext(frames, start, entry, later);
      frames := frames + [FrameSpan(start, entry.len, Some(entry.rawLen))];
      if start + entry.len > tableAt {
        return None;
      }
      start := start + entry.len;
      rest := rest[entryLen..];
    }
    ReadNothing(rest, descriptor, start);
    assert frames + [] == frames;
    spans := if start != tableAt then None else Some(frames);
  }

  lemma EntryLenPositive(descriptor: Byte)
    ensures EntryLen(descriptor) >= SEEK_TABLE_ENTRY_LEN
  {
  }

  lemma ReadNext(rest: seq<Byte>, descriptor: Byte)
    requires |rest| >= EntryLen(descriptor)
    ensures ReadEntries(rest, descriptor)
         == [ReadEntry(rest[..EntryLen(descriptor)])] + ReadEntries(rest[EntryLen(descriptor)..], descriptor)
  {
  }

  lemma ReadNothing(rest: seq<Byte>, descriptor: Byte, start: nat)
    requires |rest| < EntryLen(descriptor)
    ensures SpansFrom(start, ReadEntries(rest, descriptor)) == [] && Length(ReadEntries(rest, descriptor)) == 0
  {
  }

  lemma SpansNext(frames: seq<FrameSpan>, start: nat, entry: TableEntry, later: seq<TableEntry>)
    ensures frames + SpansFrom(start, [entry] + later)
         == frames + [FrameSpan(start, entry.len, Some(entry.rawLen))] + SpansFrom(start + entry.len, later)
    ensures Length([entry] + later) == entry.len + Length(later)
  {
    assert ([entry] + later)[1..] == later;
  }

  // ----- reading is the inverse of writing

  lemma EntryBack(e: TableEntry)
    requires e.len < LIMIT && e.rawLen < LIMIT
    ensures ReadEntry(EntryBytes(e)) == e
  {
    hide LeU32, Le32;
    var bytes := EntryBytes(e);
    assert bytes[0..4] == Le32(e.len) && bytes[4..8] == Le32(e.rawLen) && bytes[8..] == e.checksum;
    LeBack(e.len);
    LeBack(e.rawLen);
  }

  lemma EntryForth(chunk: seq<Byte>)
    requires |chunk| >= SEEK_TABLE_ENTRY_LEN
    ensures EntryBytes(ReadEntry(chunk)) == chunk
    ensures ReadEntry(chunk).len < LIMIT && ReadEntry(chunk).rawLen < LIMIT
  {
    hide LeU32, Le32;
    LeForth(chunk[0..4]);
    LeForth(chunk[4..8]);
    assert chunk[0..4] + chunk[4..8] + chunk[8..] == chunk;
  }

  lemma {:induction false} EntriesBack(entries: seq<TableEntry>, descriptor: Byte)
    requires EntriesOk(entries, descriptor)
    ensures ReadEntries(EntriesBytes(entries), descriptor) == entries
    decreases |entries|
  {
    hide ReadEntry;
    if entries != [] {
      EntryBack(entries[0]);
      EntriesBack(entries[1..], descriptor);
      var bytes := EntriesBytes(entries);
      var len := EntryLen(descriptor);
      assert bytes[..len] == EntryBytes(entries[0]) && bytes[len..] == EntriesBytes(entries[1..]);
    }
  }

  /** Bytes of a whole number of entries. */
  lemma {:induction false} EntriesForth(rest: seq<Byte>, descriptor: Byte, count: nat)
    requires |rest| == count * EntryLen(descriptor)
    ensures var entries := ReadEntries(rest, descriptor);
            |entries| == count && EntriesBytes(entries) == rest && EntriesOk(entries, descriptor)
    decreases count
  {
    hide ReadEntry, EntryBytes;
    if count > 0 {
      var len := EntryLen(descriptor);
      assert count * len == (count - 1) * len + len;
      EntriesForth(rest[len..], descriptor, count - 1);
      EntryForth(rest[..len]);
      assert ReadEntry(rest[..len]).checksum == rest[..len][8..] by { ChecksumOf(rest[..len]); }
      assert rest == rest[..len] + rest[len..];
    }
  }

  lemma ChecksumOf(chunk: seq<Byte>)
    requires |chunk| >= SEEK_TABLE_ENTRY_LEN
    ensures ReadEntry(chunk).checksum == chunk[8..]
  {
  }

  /** The file is as many bytes as the frames are long, and then this table. */
  ghost predicate IsFile(bytes: seq<Byte>, entries: seq<TableEntry>, descriptor: Byte) {
    && WellFormed(entries, descriptor)
    && Length(entries) <= |bytes|
    && bytes[Length(entries)..] == TableBytes(entries, descriptor)
  }

  lemma FooterBack(count: nat, descriptor: Byte)
    requires count < LIMIT
    ensures var footer := Footer(count, descriptor);
            LeU32(footer[0..4]) == count && footer[4] == descriptor && LeU32(footer[5..9]) == SEEKABLE_MAGIC
  {
    hide LeU32, Le32;
    var footer := Footer(count, descriptor);
    assert footer[0..4] == Le32(count) && footer[5..9] == Le32(SEEKABLE_MAGIC);
    LeBack(count);
    LeBack(SEEKABLE_MAGIC);
  }

  lemma HeadBack(payload: nat)
    requires payload < LIMIT
    ensures LeU32(Head(payload)[0..4]) == SEEK_TABLE_MAGIC && LeU32(Head(payload)[4..8]) == payload
  {
    hide LeU32, Le32;
    var head := Head(payload);
    assert head[0..4] == Le32(SEEK_TABLE_MAGIC) && head[4..8] == Le32(payload);
    LeBack(SEEK_TABLE_MAGIC);
    LeBack(payload);
  }

  /** A file of the format is read as what it was made of. */
  lemma FileIsChecked(bytes: seq<Byte>, entries: seq<TableEntry>, descriptor: Byte)
    requires IsFile(bytes, entries, descriptor)
    ensures Checked(bytes) && DescriptorOf(bytes) == descriptor && TableAt(bytes) == Length(entries) && EntriesIn(bytes) == entries
  {
    hide LeU32, Le32, EntriesBytes, Head, Footer, ReadEntries, ReservedBits;
    var at := Length(entries);
    var payload := |entries| * EntryLen(descriptor) + SEEK_TABLE_FOOTER_LEN;
    var head, middle, footer := Head(payload), EntriesBytes(entries), Footer(|entries|, descriptor);
    EntriesBytesLength(entries, descriptor);
    assert |entries| <= |entries| * EntryLen(descriptor);
    FooterBack(|entries|, descriptor);
    HeadBack(payload);
    Placed(bytes, at, head, middle, footer);
    EntriesBack(entries, descriptor);
  }

  /** Where the three pieces of a table lie in the file. */
  lemma Placed(bytes: seq<Byte>, at: nat, head: seq<Byte>, middle: seq<Byte>, footer: seq<Byte>)
    requires at <= |bytes| && bytes[at..] == head + middle + footer && |head| == 8 && |footer| == 9
    ensures |bytes| == at + 17 + |middle|
    ensures bytes[at..at + 4] == head[0..4] && bytes[at + 4..at + 8] == head[4..8]
    ensures bytes[at + 8..|bytes| - 9] == middle
    ensures bytes[|bytes| - 9..|bytes| - 5] == footer[0..4] && bytes[|bytes| - 5] == footer[4] && bytes[|bytes| - 4..] == footer[5..9]
  {
    var table := head + middle + footer;
    assert |bytes| - at == |table|;
    assert forall i :: 0 <= i < |table| ==> bytes[at + i] == table[i];
    assert bytes[at + 8..|bytes| - 9] == table[8..|table| - 9];
    assert bytes[at..at + 4] == table[0..4] && bytes[at + 4..at + 8] == table[4..8];
    assert bytes[|bytes| - 9..|bytes| - 5] == table[|table| - 9..|table| - 5];
    assert bytes[|bytes| - 4..] == table[|table| - 4..];
  }

  /** What is checked and filled by its frames is a file of the format. */
  lemma CheckedIsFile(bytes: seq<Byte>)
    requires Checked(bytes) && Length(EntriesIn(bytes)) == TableAt(bytes)
    ensures IsFile(bytes, EntriesIn(bytes), DescriptorOf(bytes))
  {
    hide LeU32, Le32, EntriesBytes, ReadEntries, ReservedBits, Length;
    var at, n := TableAt(bytes), |bytes|;
    var count, descriptor := CountOf(bytes), DescriptorOf(bytes);
    EntriesForth(Middle(bytes), descriptor, count);
    LeForth(bytes[n - 9..n - 5]);
    LeForth(bytes[n - 4..]);
    LeForth(bytes[at..at + 4]);
    LeForth(bytes[at + 4..at + 8]);
    assert Footer(count, descriptor) == bytes[n - 9..];
    assert Head(count * EntryLen(descriptor) + SEEK_TABLE_FOOTER_LEN) == bytes[at..at + 8];
    assert bytes[at..] == bytes[at..at + 8] + Middle(bytes) + bytes[n - 9..];
  }

  /**
   * A reader accepts exactly the files that end in a well-formed seek table, with or without checksums,
   * whose frames fill what is before it, and gives each frame the place and the sizes of its entry.
   */
  lemma LocatesExactlyTheFormat(bytes: seq<Byte>, entries: seq<TableEntry>, descriptor: Byte)
    ensures IsFile(bytes, entries, descriptor) ==> Located(bytes) == Some(SpansFrom(0, entries))
    ensures Located(bytes).Some? ==> IsFile(bytes, EntriesIn(bytes), DescriptorOf(bytes))
  {
    if IsFile(bytes, entries, descriptor) {
      FileIsChecked(bytes, entries, descriptor);
    }
    if Located(bytes).Some? {
      CheckedIsFile(bytes);
    }
  }
}
