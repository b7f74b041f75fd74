/** A manifest as one file: the frames in order, then the seek table; opened again and read frame by frame. */
module ManifestFile {
  import opened Tree
  import opened Seek
  import opened Pipeline

  function SizesOf(frames: seq<Framed>): seq<FrameSize> {
    seq(|frames|, i requires 0 <= i < |frames| => FrameSize(|frames[i].bytes|, frames[i].rawLen))
  }

  function BytesOf(frames: seq<Framed>): seq<seq<Byte>> {
    seq(|frames|, i requires 0 <= i < |frames| => frames[i].bytes)
  }

  /** The whole file, if the sizes fit a seek table. */
  function FileOf(frames: seq<Framed>): Option<seq<Byte>> {
    if Fits(SizesOf(frames)) then Some(Concat(BytesOf(frames)) + TableBytes(Entries(SizesOf(frames)), 0)) else None
  }

  function RawTotal(frames: seq<Framed>): nat {
    if frames == [] then 0 else frames[0].rawLen + RawTotal(frames[1..])
  }

  /** Writes frames as the pipeline hands them over, then the seek table, and counts. */
  method WriteFile(frames: seq<Framed>) returns (file: Option<seq<Byte>>, rawLen: nat, len: nat)
    ensures file == FileOf(frames)
    ensures file.Some? ==> rawLen == RawTotal(frames) && len == |file.value|
  {
    var out: seq<Byte>, sizes: seq<FrameSize> := [], [];
    len, rawLen := 0, 0;
    for i := 0 to |frames|
      invariant out == Concat(BytesOf(frames[..i])) && sizes == SizesOf(frames[..i])
      invariant len == |out|
    {
      assert frames[..i + 1] == frames[..i] + [frames[i]];
      assert BytesOf(frames[..i + 1]) == BytesOf(frames[..i]) + [frames[i].bytes];
      ConcatPlus(BytesOf(frames[..i]), [frames[i].bytes]);
      assert [frames[i].bytes][1..] == [];
      sizes := sizes + [FrameSize(|frames[i].bytes|, frames[i].rawLen)];
      out := out + frames[i].bytes;
      len := len + |frames[i].bytes|;
    }
    assert frames[..|frames|] == frames;
    var table := SeekTable(sizes);
    if table.None? {
      return None, 0, 0;
    }
    out := out + table.value;
    len := len + |table.value|;
    for i := 0 to |frames|
      invariant rawLen + RawTotal(frames[i..]) == RawTotal(frames)
    {
      rawLen := rawLen + sizes[i].rawLen;
    }
    file := Some(out);
  }

  /** Frames that record how long their texts are add up to the length of the texts one behind the other. */
  lemma {:induction false} RawTotalIsTheTexts(frames: seq<Framed>, texts: seq<seq<Byte>>)
    requires |texts| == |frames| && forall i :: 0 <= i < |frames| ==> frames[i].rawLen == |texts[i]|
    ensures RawTotal(frames) == |Concat(texts)|
    decreases |frames|
  {
    if frames != [] {
      RawTotalIsTheTexts(frames[1..], texts[1..]);
    }
  }

  // ----- opening a file

  /** A file in memory with its index decoded, the last of its frames; `parts` is how many the index lists. */
  datatype Opened = Opened(bytes: seq<Byte>, frames: seq<FrameSpan>, parts: nat)

  predicate Inside(span: FrameSpan, bytes: seq<Byte>) {
    span.start + span.len <= |bytes|
  }

  function Slice(bytes: seq<Byte>, span: FrameSpan): seq<Byte>
    requires Inside(span, bytes)
  {
    bytes[span.start..span.start + span.len]
  }

  predicate OpenedOk(file: Opened) {
    file.parts + 1 == |file.frames| && forall i :: 0 <= i < |file.frames| ==> Inside(file.frames[i], file.bytes)
  }

  /** `indexOf` decodes the frame of an index to the number of parts it lists. */
  method Parse(bytes: seq<Byte>, indexOf: seq<Byte> -> Option<nat>) returns (file: Option<Opened>)
    ensures file.Some? ==> OpenedOk(file.value) && file.value.bytes == bytes && Located(bytes) == Some(file.value.frames)
    ensures file.Some? <==>
              && Located(bytes).Some?
              && var spans := Located(bytes).value;
                 && spans != []
                 && (forall i :: 0 <= i < |spans| ==> Inside(spans[i], bytes))
                 && indexOf(Slice(bytes, spans[|spans| - 1])) == Some(|spans| - 1)
  {
    hide Located, SpansFrom;
    var frames := Locate(bytes);
    if frames.None? {
      return None;
    }
    var spans := frames.value;
    for i := 0 to |spans|
      invariant forall j :: 0 <= j < i ==> Inside(spans[j], bytes)
    {
      if spans[i].start + spans[i].len > |bytes| {
        assert !Inside(spans[i], bytes);
        return None;
      }
    }
    if spans == [] {
      return None;
    }
    var index := indexOf(Slice(bytes, spans[|spans| - 1]));
    if index.None? || index.value != |spans| - 1 {
      return None;
    }
    file := Some(Opened(bytes, spans, index.value));
  }

  /** The bytes of one frame: a part, or the index behind the last part. */
  function FrameOf(file: Opened, number: nat): (frame: Option<seq<Byte>>)
    requires OpenedOk(file)
    ensures frame.Some? <==> number <= file.parts
  {
    if number < |file.frames| then Some(Slice(file.bytes, file.frames[number])) else None
  }

  const NEWLINE: Byte := 10

  /** The text of part `number`, without its newline, if it decodes to the recorded length. */
  method PartJson(file: Opened, number: nat, decode: seq<Byte> -> Option<seq<Byte>>) returns (json: Option<seq<Byte>>)
    requires OpenedOk(file)
    ensures json.Some? <==>
              && number < file.parts
              && var text := decode(FrameOf(file, number).value);
                 && text.Some? && text.value != [] && text.value[|text.value| - 1] == NEWLINE
                 && (file.frames[number].rawLen.Some? ==> file.frames[number].rawLen.value == |text.value|)
    ensures json.Some? ==> decode(FrameOf(file, number).value) == Some(json.value + [NEWLINE])
  {
    if number >= file.parts {
      return None;
    }
    var span := file.frames[number];
    var text := decode(file.bytes[span.start..span.start + span.len]);
    if text.None? || text.value == [] || text.value[|text.value| - 1] != NEWLINE {
      return None;
    }
    var line := text.value[..|text.value| - 1];
    if span.rawLen.Some? && span.rawLen.value != |line| + 1 {
      return None;
    }
    assert line + [NEWLINE] == text.value;
    json := Some(line);
  }

  // ----- what was written is read back

  lemma {:induction false} EntriesLengthOf(frames: seq<Framed>)
    ensures Length(Entries(SizesOf(frames))) == |Concat(BytesOf(frames))|
    decreases |frames|
  {
    if frames != [] {
      EntriesLengthOf(frames[1..]);
      assert Entries(SizesOf(frames))[1..] == Entries(SizesOf(frames[1..]));
      assert BytesOf(frames)[1..] == BytesOf(frames[1..]);
    }
  }

  /** Frames that follow one another from `start` lie where the entries say. */
  lemma {:induction false} FramesLie(bytes: seq<Byte>, start: nat, frames: seq<Framed>, i: nat)
    requires start <= |bytes| && Concat(BytesOf(frames)) <= bytes[start..] && i < |frames|
    ensures var spans := SpansFrom(start, Entries(SizesOf(frames)));
            && |spans| == |frames|
            && Inside(spans[i], bytes) && Slice(bytes, spans[i]) == frames[i].bytes
            && spans[i].rawLen == Some(frames[i].rawLen)
    decreases |frames|
  {
    var rest := frames[1..];
    var next := start + |frames[0].bytes|;
    assert Entries(SizesOf(frames))[1..] == Entries(SizesOf(rest));
    assert BytesOf(frames)[1..] == BytesOf(rest);
    assert Concat(BytesOf(frames)) == frames[0].bytes + Concat(BytesOf(rest));
    assert bytes[start..next] == frames[0].bytes;
    assert bytes[next..] == bytes[start..][|frames[0].bytes|..];
    assert Concat(BytesOf(rest)) <= bytes[next..];
    if i > 0 {
      FramesLie(bytes, next, rest, i - 1);
    } else {
      SpansCount(next, Entries(SizesOf(rest)));
    }
  }

  lemma {:induction false} SpansCount(start: nat, entries: seq<TableEntry>)
    ensures |SpansFrom(start, entries)| == |entries|
    decreases |entries|
  {
    if entries != [] {
      SpansCount(start + entries[0].len, entries[1..]);
    }
  }

  lemma WrittenIsFile(frames: seq<Framed>)
    requires Fits(SizesOf(frames))
    ensures IsFile(FileOf(frames).value, Entries(SizesOf(frames)), 0)
  {
    hide TableBytes;
    var body := Concat(BytesOf(frames));
    EntriesLengthOf(frames);
    assert (body + TableBytes(Entries(SizesOf(frames)), 0))[|body|..] == TableBytes(Entries(SizesOf(frames)), 0);
    EntriesFit(SizesOf(frames));
  }

  lemma EntriesFit(sizes: seq<FrameSize>)
    requires Fits(sizes)
    ensures WellFormed(Entries(sizes), 0)
  {
  }

  /** Every frame of a written file is found again, byte for byte and with its recorded length. */
  lemma FramesComeBack(frames: seq<Framed>, i: nat)
    requires FileOf(frames).Some? && i < |frames|
    ensures var bytes := FileOf(frames).value;
            && Located(bytes).Some?
            && var spans := Located(bytes).value;
               && |spans| == |frames|
               && Inside(spans[i], bytes) && Slice(bytes, spans[i]) == frames[i].bytes
               && spans[i].rawLen == Some(frames[i].rawLen)
  {
    hide TableBytes, IsFile, Located;
    var bytes := FileOf(frames).value;
    WrittenIsFile(frames);
    LocatesExactlyTheFormat(bytes, Entries(SizesOf(frames)), 0);
    assert bytes[0..] == bytes;
    FramesLie(bytes, 0, frames, i);
  }

  /** A file of frames and an index that lists the parts before it opens, and its parts decode to what was encoded. */
  lemma PartsComeBack(frames: seq<Framed>, indexOf: seq<Byte> -> Option<nat>)
    requires FileOf(frames).Some? && frames != []
    requires indexOf(frames[|frames| - 1].bytes) == Some(|frames| - 1)
    ensures var bytes := FileOf(frames).value;
            && Located(bytes).Some?
            && var spans := Located(bytes).value;
               && |spans| == |frames|
               && (forall i :: 0 <= i < |spans| ==> Inside(spans[i], bytes))
               && indexOf(Slice(bytes, spans[|spans| - 1])) == Some(|spans| - 1)
               && var file := Opened(bytes, spans, |spans| - 1);
                  forall i :: 0 <= i < |frames| ==> FrameOf(file, i) == Some(frames[i].bytes)
  {
    hide Located, FileOf;
    forall i | 0 <= i < |frames|
      ensures var bytes := FileOf(frames).value;
              && Located(bytes).Some? && |Located(bytes).value| == |frames|
              && Inside(Located(bytes).value[i], bytes) && Slice(bytes, Located(bytes).value[i]) == frames[i].bytes
    {
      FramesComeBack(frames, i);
    }
  }

  // ----- any file that is accepted

  function Slices(bytes: seq<Byte>, spans: seq<FrameSpan>): seq<seq<Byte>>
    requires forall i :: 0 <= i < |spans| ==> Inside(spans[i], bytes)
  {
    seq(|spans|, i requires 0 <= i < |spans| => Slice(bytes, spans[i]))
  }

  lemma {:induction false} SpansTile(bytes: seq<Byte>, start: nat, entries: seq<TableEntry>)
    requires start + Length(entries) <= |bytes|
    ensures var spans := SpansFrom(start, entries);
            && (forall i :: 0 <= i < |spans| ==> Inside(spans[i], bytes))
            && Concat(Slices(bytes, spans)) == bytes[start..start + Length(entries)]
    decreases |entries|
  {
    if entries != [] {
      var next := start + entries[0].len;
      SpansTile(bytes, next, entries[1..]);
      var spans := SpansFrom(start, entries);
      assert spans[1..] == SpansFrom(next, entries[1..]);
      assert forall i :: 0 < i < |spans| ==> spans[i] == spans[1..][i - 1];
      assert Slices(bytes, spans)[1..] == Slices(bytes, spans[1..]);
      assert bytes[start..start + Length(entries)] == bytes[start..next] + bytes[next..next + Length(entries[1..])];
    }
  }

  /** The frames of any accepted file, one behind the other, are everything before its seek table. */
  lemma AcceptedFramesTile(bytes: seq<Byte>)
    requires Located(bytes).Some?
    ensures var spans := Located(bytes).value;
            && (forall i :: 0 <= i < |spans| ==> Inside(spans[i], bytes))
            && Concat(Slices(bytes, spans)) == bytes[..TableAt(bytes)]
  {
    hide Checked, EntriesIn;
    SpansTile(bytes, 0, EntriesIn(bytes));
    assert bytes[0..TableAt(bytes)] == bytes[..TableAt(bytes)];
  }
}
