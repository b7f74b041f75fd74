/** Which bytes are text: UTF-8 as section 3 and section 4 of RFC 3629 define it. */
module Utf8 {
  import opened Tree

  predicate Continues(bytes: seq<Byte>, i: nat) {
    i < |bytes| && 0x80 <= bytes[i] <= 0xBF
  }

  predicate Second(bytes: seq<Byte>, low: nat, high: nat) {
    1 < |bytes| && low <= bytes[1] <= high
  }

  /** The length of the character that comes first, or 0 if none does. */
  function CharLen(bytes: seq<Byte>): (n: nat)
    ensures n <= |bytes|
  {
    if bytes == [] then 0
    else
      var first: nat := bytes[0];
      if first <= 0x7F then 1
      else if 0xC2 <= first <= 0xDF && Continues(bytes, 1) then 2
      else if first == 0xE0 && Second(bytes, 0xA0, 0xBF) && Continues(bytes, 2) then 3
      else if first == 0xED && Second(bytes, 0x80, 0x9F) && Continues(bytes, 2) then 3
      else if 0xE1 <= first <= 0xEF && first != 0xED && Continues(bytes, 1) && Continues(bytes, 2) then 3
      else if first == 0xF0 && Second(bytes, 0x90, 0xBF) && Continues(bytes, 2) && Continues(bytes, 3) then 4
      else if first == 0xF4 && Second(bytes, 0x80, 0x8F) && Continues(bytes, 2) && Continues(bytes, 3) then 4
      else if 0xF1 <= first <= 0xF3 && Continues(bytes, 1) && Continues(bytes, 2) && Continues(bytes, 3) then 4
      else 0
  }

  predicate IsText(bytes: seq<Byte>)
    decreases |bytes|
  {
    bytes == [] || (CharLen(bytes) > 0 && IsText(bytes[CharLen(bytes)..]))
  }

  // ----- the same from the characters

  /** The number of a character: below 0x110000 and none of the surrogates. */
  predicate Scalar(n: nat) {
    n < 0xD800 || 0xE000 <= n < 0x110000
  }

  /** The bits of the number, six to a byte behind the first one. */
  function Encode(n: nat): (bytes: seq<Byte>)
    requires Scalar(n)
  {
    if n < 0x80 then [n as Byte]
    else if n < 0x800 then [(0xC0 + n / 0x40) as Byte, Tail(n)]
    else if n < 0x10000 then [(0xE0 + n / 0x1000) as Byte, Tail(n / 0x40), Tail(n)]
    else [(0xF0 + n / 0x40000) as Byte, Tail(n / 0x1000), Tail(n / 0x40), Tail(n)]
  }

  /** A byte for the six lowest bits. */
  function Tail(n: nat): Byte {
    (0x80 + n % 0x40) as Byte
  }

  predicate AllScalars(numbers: seq<nat>) {
    forall i :: 0 <= i < |numbers| ==> Scalar(numbers[i])
  }

  function EncodeAll(numbers: seq<nat>): seq<Byte>
    requires AllScalars(numbers)
  {
    if numbers == [] then [] else Encode(numbers[0]) + EncodeAll(numbers[1..])
  }

  /** The bytes of the number by its digits of six bits. */
  lemma EncodedDigits(n: nat)
    requires Scalar(n)
    ensures var bytes, d := Encode(n), n / 0x1000;
            && |bytes| == (if n < 0x80 then 1 else if n < 0x800 then 2 else if n < 0x10000 then 3 else 4)
            && (|bytes| == 1 ==> bytes == [n as Byte])
            && (|bytes| == 2 ==> bytes == [(0xC0 + n / 0x40) as Byte, Tail(n)])
            && (|bytes| == 3 ==> bytes == [(0xE0 + d) as Byte, Tail(n / 0x40), Tail(n)])
            && (|bytes| == 4 ==> bytes == [(0xF0 + d / 0x40) as Byte, Tail(d), Tail(n / 0x40), Tail(n)])
  {
  }

  lemma ShortComesFirst(n: nat, all: seq<Byte>)
    requires n < 0x800 && Encode(n) <= all
    ensures CharLen(all) == |Encode(n)| > 0
  {
  }

  lemma ThreeComeFirst(n: nat, all: seq<Byte>)
    requires 0x800 <= n < 0x10000 && Scalar(n) && Encode(n) <= all
    ensures CharLen(all) == 3
  {
    assert all[0] == Encode(n)[0] && all[1] == Encode(n)[1] && all[2] == Encode(n)[2];
  }

  lemma FourComeFirst(n: nat, all: seq<Byte>)
    requires 0x10000 <= n && Scalar(n) && Encode(n) <= all
    ensures CharLen(all) == 4
  {
    assert all[0] == Encode(n)[0] && all[1] == Encode(n)[1] && all[2] == Encode(n)[2] && all[3] == Encode(n)[3];
  }

  lemma EncodedComesFirst(n: nat, rest: seq<Byte>)
    requires Scalar(n)
    ensures CharLen(Encode(n) + rest) == |Encode(n)| > 0
  {
    hide CharLen, Tail;
    EncodedDigits(n);
    if n < 0x800 {
      ShortComesFirst(n, Encode(n) + rest);
    } else if n < 0x10000 {
      ThreeComeFirst(n, Encode(n) + rest);
    } else {
      FourComeFirst(n, Encode(n) + rest);
    }
  }

  /** The character that comes first is that of some number. */
  lemma FirstIsEncoded(bytes: seq<Byte>) returns (n: nat)
    requires CharLen(bytes) > 0
    ensures Scalar(n) && bytes[..CharLen(bytes)] == Encode(n)
  {
    hide CharLen, Encode, Scalar;
    var len := CharLen(bytes);
    LengthsAre(bytes);
    if len == 1 {
      n := OneByte(bytes);
    } else if len == 2 {
      n := TwoBytes(bytes);
    } else if len == 3 {
      n := ThreeBytes(bytes);
    } else {
      n := FourBytes(bytes);
    }
  }

  lemma LengthsAre(bytes: seq<Byte>)
    ensures 0 <= CharLen(bytes) <= 4
  {
  }

  lemma OneByte(bytes: seq<Byte>) returns (n: nat)
    requires CharLen(bytes) == 1
    ensures Scalar(n) && bytes[..1] == Encode(n)
  {
    n := bytes[0];
  }

  lemma TwoBytes(bytes: seq<Byte>) returns (n: nat)
    requires CharLen(bytes) == 2
    ensures Scalar(n) && bytes[..2] == Encode(n)
  {
    n := Together(bytes[0] - 0xC0, bytes[1]);
  }

  lemma ThreeBytes(bytes: seq<Byte>) returns (n: nat)
    requires CharLen(bytes) == 3
    ensures Scalar(n) && bytes[..3] == Encode(n)
  {
    hide Encode;
    var high := Together(bytes[0] - 0xE0, bytes[1]);
    n := Together(high, bytes[2]);
    assert n / 0x1000 == high / 0x40;
    EncodedDigits(n);
  }

  lemma FourBytes(bytes: seq<Byte>) returns (n: nat)
    requires CharLen(bytes) == 4
    ensures Scalar(n) && bytes[..4] == Encode(n)
  {
    hide Encode;
    var high := Together(bytes[0] - 0xF0, bytes[1]);
    var middle := Together(high, bytes[2]);
    n := Together(middle, bytes[3]);
    assert n / 0x1000 == high && high / 0x40 == bytes[0] - 0xF0;
    EncodedDigits(n);
  }

  /** Six more bits, from a byte that goes on. */
  function Together(bits: nat, b: nat): (n: nat)
    requires 0x80 <= b <= 0xBF
    ensures n / 0x40 == bits && 0x80 + n % 0x40 == b
  {
    bits * 0x40 + (b - 0x80)
  }

  /** Bytes are text exactly if they are the encoding of some characters, one behind the other. */
  lemma TextIsCharacters(bytes: seq<Byte>)
    ensures IsText(bytes) <==> exists numbers :: AllScalars(numbers) && bytes == EncodeAll(numbers)
  {
    if IsText(bytes) {
      var numbers := Characters(bytes);
    }
    forall numbers | AllScalars(numbers) && bytes == EncodeAll(numbers)
      ensures IsText(bytes)
    {
      EncodedIsText(numbers);
    }
  }

  lemma {:induction false} Characters(bytes: seq<Byte>) returns (numbers: seq<nat>)
    requires IsText(bytes)
    ensures AllScalars(numbers) && bytes == EncodeAll(numbers)
    decreases |bytes|
  {
    hide CharLen, Encode;
    if bytes == [] {
      numbers := [];
    } else {
      var len := CharLen(bytes);
      var n := FirstIsEncoded(bytes);
      var later := Characters(bytes[len..]);
      numbers := [n] + later;
      assert numbers[1..] == later && bytes == bytes[..len] + bytes[len..];
    }
  }

  lemma {:induction false} EncodedIsText(numbers: seq<nat>)
    requires AllScalars(numbers)
    ensures IsText(EncodeAll(numbers))
    decreases |numbers|
  {
    hide CharLen, Encode;
    if numbers != [] {
      EncodedComesFirst(numbers[0], EncodeAll(numbers[1..]));
      EncodedIsText(numbers[1..]);
      var all, len := EncodeAll(numbers), |Encode(numbers[0])|;
      assert all[len..] == EncodeAll(numbers[1..]);
    }
  }

  /** A place where text can be cut. */
  predicate Boundary(text: seq<Byte>, i: nat) {
    i <= |text| && (i < |text| ==> !Continues(text, i))
  }

  /** A NUL belongs to no character that starts before it. */
  lemma CharBeforeNul(a: seq<Byte>, b: seq<Byte>)
    requires a != []
    ensures CharLen(a + [0] + b) == CharLen(a)
  {
    var all := a + [0] + b;
    assert forall i :: 0 <= i < |a| ==> all[i] == a[i];
    assert all[|a|] == 0;
    assert Continues(all, 1) <==> Continues(a, 1);
    assert |a| > 1 ==> (Continues(all, 2) <==> Continues(a, 2));
    assert |a| > 2 ==> (Continues(all, 3) <==> Continues(a, 3));
  }

  /** Text before a NUL and text behind it are text each by themselves. */
  lemma {:induction false} TextAroundNul(a: seq<Byte>, b: seq<Byte>)
    ensures IsText(a + [0] + b) <==> IsText(a) && IsText(b)
    decreases |a|
  {
    var all := a + [0] + b;
    if a == [] {
      assert all[0] == 0 && CharLen(all) == 1 && all[1..] == b;
    } else {
      CharBeforeNul(a, b);
      var n := CharLen(a);
      hide CharLen;
      if n > 0 {
        assert all[n..] == a[n..] + [0] + b;
        TextAroundNul(a[n..], b);
      }
    }
  }

  lemma TextStarts(text: seq<Byte>)
    requires IsText(text) && text != []
    ensures !Continues(text, 0)
  {
  }

  /** The character that comes first, cut at `i`. */
  lemma FirstCut(text: seq<Byte>, i: nat)
    requires CharLen(text) > 0 && 0 < i <= |text|
    ensures if i < CharLen(text) then Continues(text, i) && CharLen(text[..i]) == 0 else CharLen(text[..i]) == CharLen(text)
  {
    var short := text[..i];
    assert forall k :: 0 <= k < i ==> short[k] == text[k];
    assert forall k: nat :: Continues(short, k) <==> k < i && Continues(text, k);
  }

  /** Such a place is one where text falls into text. */
  lemma {:induction false} BoundariesCutText(text: seq<Byte>, i: nat)
    requires IsText(text) && i <= |text|
    ensures Boundary(text, i) <==> IsText(text[..i]) && IsText(text[i..])
    decreases |text|
  {
    hide CharLen;
    if i == 0 {
      assert text[0..] == text && text[..0] == [];
      if text != [] {
        TextStarts(text);
      }
    } else {
      var n := CharLen(text);
      FirstCut(text, i);
      if i >= n {
        BoundariesCutText(text[n..], i - n);
        assert text[..i][n..] == text[n..][..i - n] && text[i..] == text[n..][i - n..];
        assert i < |text| ==> text[i] == text[n..][i - n];
      }
    }
  }

  // ----- names with a NUL behind each

  function Blocks(names: seq<Name>): seq<Byte> {
    if names == [] then [] else names[0] + [0] + Blocks(names[1..])
  }

  lemma {:induction false} BlocksPlus(names: seq<Name>, name: Name)
    ensures Blocks(names + [name]) == Blocks(names) + name + [0]
    decreases |names|
  {
    if names == [] {
      assert (names + [name])[1..] == [];
    } else {
      assert (names + [name])[1..] == names[1..] + [name];
      BlocksPlus(names[1..], name);
    }
  }

  /** A buffer of names is text exactly if each name is. */
  lemma {:induction false} BlocksAreText(names: seq<Name>)
    ensures IsText(Blocks(names)) <==> forall k :: 0 <= k < |names| ==> IsText(names[k])
    decreases |names|
  {
    hide IsText;
    if names == [] {
      assert IsText([]) by { NothingIsText(); }
    } else {
      BlocksAreText(names[1..]);
      TextAroundNul(names[0], Blocks(names[1..]));
      assert forall k :: 0 < k < |names| ==> names[k] == names[1..][k - 1];
    }
  }

  lemma NothingIsText()
    ensures IsText([])
  {
  }
}
