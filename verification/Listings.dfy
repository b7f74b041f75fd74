/** The entries of one directory: sorted by a short key first, and found by binary search. */
module Listings {
  import opened Tree
  import opened Order
  import opened Sorting
  import opened Tape
  import opened Utf8

  // ----- the short key of a name

  function Pow(k: nat): nat {
    if k == 0 then 1 else 256 * Pow(k - 1)
  }

  /** The first `k` bytes of a name as one big-endian number, padded with zeros. */
  function Prefix(name: Name, k: nat): nat {
    if k == 0 then 0
    else if name == [] then 0
    else name[0] * Pow(k - 1) + Prefix(name[1..], k - 1)
  }

  lemma {:induction false} PrefixBelow(name: Name, k: nat)
    ensures Prefix(name, k) < Pow(k)
    decreases k
  {
    PowPositive(k);
    if k > 0 && name != [] {
      PrefixBelow(name[1..], k - 1);
      Times(name[0], 255, Pow(k - 1));
    }
  }

  /** A key of eight bytes is a `u64`. */
  lemma KeyFits(name: Name)
    ensures Prefix(name, 8) < 0x1_0000_0000_0000_0000
  {
    PrefixBelow(name, 8);
    assert Pow(4) == 0x1_0000_0000;
  }

  lemma PowPositive(k: nat)
    ensures Pow(k) > 0
  {
  }

  lemma Times(a: nat, b: nat, p: nat)
    requires a <= b
    ensures a * p <= b * p
  {
  }

  /** A number in base `p` is compared by its first digit first. */
  lemma DigitsCompare(a: nat, r: nat, b: nat, s: nat, p: nat)
    requires r < p && s < p
    ensures a * p + r < b * p + s ==> a < b || (a == b && r < s)
  {
    if a > b {
      Times(b + 1, a, p);
      assert (b + 1) * p == b * p + p;
    }
  }

  /** A smaller key means a smaller name, whatever the names hold and however long they are. */
  lemma {:induction false} PrefixDecides(x: Name, y: Name, k: nat)
    requires Prefix(x, k) < Prefix(y, k)
    ensures Compare(x, y) == Less
    decreases k
  {
    if x != [] && y != [] {
      PrefixBelow(x[1..], k - 1);
      PrefixBelow(y[1..], k - 1);
      DigitsCompare(x[0], Prefix(x[1..], k - 1), y[0], Prefix(y[1..], k - 1), Pow(k - 1));
      if x[0] == y[0] {
        PrefixDecides(x[1..], y[1..], k - 1);
      }
    }
  }

  const KEY: nat := 8

  /** The comparison the search makes: keys first, and names only if those are equal. */
  function CompareByPrefix(left: nat, leftName: Name, right: nat, rightName: Name): Ordering {
    if left < right then Less else if left > right then Greater else Compare(leftName, rightName)
  }

  lemma PrefixFirstIsExact(x: Name, y: Name)
    ensures CompareByPrefix(Prefix(x, KEY), x, Prefix(y, KEY), y) == Compare(x, y)
  {
    if Prefix(x, KEY) < Prefix(y, KEY) {
      PrefixDecides(x, y, KEY);
    } else if Prefix(x, KEY) > Prefix(y, KEY) {
      PrefixDecides(y, x, KEY);
      CompareFlips(y, x);
    }
  }

  // ----- the listing

  /** What a listing says an entry is. */
  datatype Kind = FileKind | DirectoryKind | SymlinkKind(directory: Option<bool>) | SpecialKind | UnknownKind | NonUtf8Kind

  /** One listed entry; its name lies in the buffer of the listing, and `slot` is carried along. */
  datatype Listed = Listed(prefix: nat, start: nat, len: nat, kind: Kind, slot: nat)

  predicate Inside(e: Listed, names: seq<Byte>) {
    e.start + e.len <= |names|
  }

  function NameOf(e: Listed, names: seq<Byte>): Name {
    if Inside(e, names) then names[e.start..e.start + e.len] else []
  }

  /** The entry's key is that of its name. */
  predicate Keyed(e: Listed, names: seq<Byte>) {
    Inside(e, names) && e.prefix == Prefix(NameOf(e, names), KEY)
  }

  predicate AllKeyed(entries: seq<Listed>, names: seq<Byte>) {
    forall i :: 0 <= i < |entries| ==> Keyed(entries[i], names)
  }

  predicate NamesInOrder(entries: seq<Listed>, names: seq<Byte>) {
    forall i, j :: 0 <= i < j < |entries| ==> Compare(NameOf(entries[i], names), NameOf(entries[j], names)) != Greater
  }

  const PLACES: nat := 0x1_0000_0000_0000_0000

  function KeyOf(prefix: nat, place: nat): nat {
    prefix * PLACES + place
  }

  function PrefixPart(key: nat): nat {
    key / PLACES
  }

  function PlacePart(key: nat): nat {
    key % PLACES
  }

  lemma KeyParts(prefix: nat, place: nat)
    requires place < PLACES
    ensures PrefixPart(KeyOf(prefix, place)) == prefix && PlacePart(KeyOf(prefix, place)) == place
  {
  }

  function KeysOf(entries: seq<Listed>): seq<nat> {
    seq(|entries|, i requires 0 <= i < |entries| => KeyOf(entries[i].prefix, i))
  }

  function EntryAt(entries: seq<Listed>, key: nat): Listed {
    if PlacePart(key) < |entries| then entries[PlacePart(key)] else Listed(0, 0, 0, FileKind, 0)
  }

  function NameAt(entries: seq<Listed>, names: seq<Byte>, key: nat): Name {
    NameOf(EntryAt(entries, key), names)
  }

  function Lookup(entries: seq<Listed>): nat -> Listed {
    (key: nat) => EntryAt(entries, key)
  }

  // ----- the sort, on keys

  const BY_NUMBER: (nat, nat) -> bool := (left: nat, right: nat) => left <= right

  function ByName(entries: seq<Listed>, names: seq<Byte>): (nat, nat) -> bool {
    (left: nat, right: nat) => Compare(NameAt(entries, names, left), NameAt(entries, names, right)) != Greater
  }

  /** A key of an entry: the prefix of its name and its place. */
  predicate KeyOk(entries: seq<Listed>, key: nat) {
    PlacePart(key) < |entries| && PrefixPart(key) == entries[PlacePart(key)].prefix
  }

  /** How far the keys are in order: all by prefix, those before `from` by name, and no prefix lies on both sides. */
  ghost predicate PartlySorted(entries: seq<Listed>, names: seq<Byte>, keys: seq<nat>, from: nat) {
    && from <= |keys|
    && multiset(keys) == multiset(KeysOf(entries))
    && (forall i :: 0 <= i < |keys| ==> KeyOk(entries, keys[i]))
    && ByPrefix(keys) && Apart(keys, from)
    && NamesUpTo(entries, names, keys, from)
  }

  ghost predicate ByPrefix(keys: seq<nat>) {
    forall i, j :: 0 <= i < j < |keys| ==> PrefixPart(keys[i]) <= PrefixPart(keys[j])
  }

  ghost predicate Apart(keys: seq<nat>, at: nat) {
    forall i, j :: 0 <= i < at <= j < |keys| ==> PrefixPart(keys[i]) < PrefixPart(keys[j])
  }

  ghost predicate NamesUpTo(entries: seq<Listed>, names: seq<Byte>, keys: seq<nat>, from: nat)
    requires from <= |keys|
  {
    forall i, j :: 0 <= i < j < from ==> Compare(NameAt(entries, names, keys[i]), NameAt(entries, names, keys[j])) != Greater
  }

  lemma NameOrderIsTotal(entries: seq<Listed>, names: seq<Byte>)
    ensures TotalOrder(ByName(entries, names))
  {
    var before := ByName(entries, names);
    forall a, b
      ensures before(a, b) || before(b, a)
    {
      CompareFlips(NameAt(entries, names, b), NameAt(entries, names, a));
    }
    forall a, b, c | before(a, b) && before(b, c)
      ensures before(a, c)
    {
      var x, y, z := NameAt(entries, names, a), NameAt(entries, names, b), NameAt(entries, names, c);
      CompareEqual(x, y);
      if x != y {
        CompareTransitive(x, y, z);
      }
    }
  }

  lemma SortBegins(entries: seq<Listed>, names: seq<Byte>)
    requires |entries| < PLACES
    ensures PartlySorted(entries, names, SortedBy(KeysOf(entries), BY_NUMBER), 0)
  {
    var before := BY_NUMBER;
    var keys := SortedBy(KeysOf(entries), before);
    SortSorts(KeysOf(entries), before);
    forall i | 0 <= i < |keys|
      ensures KeyOk(entries, keys[i])
    {
      assert keys[i] in multiset(KeysOf(entries));
      var place :| 0 <= place < |entries| && KeysOf(entries)[place] == keys[i];
      KeyParts(entries[place].prefix, place);
    }
    forall i, j | 0 <= i < j < |keys|
      ensures PrefixPart(keys[i]) <= PrefixPart(keys[j])
    {
      assert before(keys[i], keys[j]);
      QuotientGrows(keys[i], keys[j]);
    }
  }

  lemma KeysCount(entries: seq<Listed>, names: seq<Byte>, keys: seq<nat>, from: nat)
    requires PartlySorted(entries, names, keys, from)
    ensures |keys| == |entries|
  {
    assert |multiset(keys)| == |keys| && |multiset(KeysOf(entries))| == |entries|;
  }

  lemma QuotientGrows(a: nat, b: nat)
    requires a <= b
    ensures PrefixPart(a) <= PrefixPart(b)
  {
  }

  /** The keys with those from `from` to `to` sorted among themselves. */
  function SortSlice(keys: seq<nat>, from: nat, to: nat, before: (nat, nat) -> bool): seq<nat>
    requires from <= to <= |keys|
  {
    keys[..from] + SortedBy(keys[from..to], before) + keys[to..]
  }

  /** Putting a run of one prefix in order of the names. */
  lemma RunSorted(entries: seq<Listed>, names: seq<Byte>, keys: seq<nat>, from: nat, to: nat)
    requires AllKeyed(entries, names) && PartlySorted(entries, names, keys, from) && from < to <= |keys|
    requires forall i :: from <= i < to ==> PrefixPart(keys[i]) == PrefixPart(keys[from])
    requires to < |keys| ==> PrefixPart(keys[to]) != PrefixPart(keys[from])
    ensures PartlySorted(entries, names, SortSlice(keys, from, to, ByName(entries, names)), to)
    ensures to == from + 1 ==> SortSlice(keys, from, to, ByName(entries, names)) == keys
  {
    hide ByName, PrefixPart, PartlySorted, SortedBy, AllKeyed, KeysOf;
    var before := ByName(entries, names);
    var run := SortedBy(keys[from..to], before);
    assert to == from + 1 ==> SortSlice(keys, from, to, before) == keys by { SliceOfOne(keys, from, before); }
    NameOrderIsTotal(entries, names);
    SortSorts(keys[from..to], before);
    RunMembers(keys, from, to, run);
    RunPlaced(entries, names, keys, from, to, run);
  }

  lemma SliceOfOne(keys: seq<nat>, from: nat, before: (nat, nat) -> bool)
    requires from < |keys|
    ensures SortSlice(keys, from, from + 1, before) == keys
  {
    var one := keys[from..from + 1];
    assert one == [keys[from]] && one[1..] == [];
    assert SortedBy(one[1..], before) == [] && SortedBy(one, before) == [one[0]];
    assert keys[..from] + one + keys[from + 1..] == keys;
  }

  ghost predicate OneOf(keys: seq<nat>, from: nat, to: nat, key: nat) {
    exists j :: from <= j < to <= |keys| && keys[j] == key
  }

  /** A permuted run has the members of the run. */
  lemma RunMembers(keys: seq<nat>, from: nat, to: nat, run: seq<nat>)
    requires from < to <= |keys| && multiset(run) == multiset(keys[from..to])
    ensures |run| == to - from
    ensures forall i :: 0 <= i < |run| ==> OneOf(keys, from, to, run[i])
    ensures multiset(keys[..from] + run + keys[to..]) == multiset(keys)
  {
    assert |multiset(run)| == |run| && |multiset(keys[from..to])| == to - from;
    forall i | 0 <= i < |run|
      ensures OneOf(keys, from, to, run[i])
    {
      assert run[i] in multiset(keys[from..to]);
      var l :| 0 <= l < |keys[from..to]| && keys[from..to][l] == run[i];
      assert keys[from + l] == run[i];
    }
    assert keys == keys[..from] + keys[from..to] + keys[to..];
  }

  /** Each place of the run still holds a key of the run, so the prefixes stay where they were. */
  lemma PrefixesStay(entries: seq<Listed>, keys: seq<nat>, from: nat, to: nat, run: seq<nat>)
    requires from < to <= |keys| && |run| == to - from
    requires forall i :: 0 <= i < |keys| ==> KeyOk(entries, keys[i])
    requires forall i :: from <= i < to ==> PrefixPart(keys[i]) == PrefixPart(keys[from])
    requires forall i :: 0 <= i < |run| ==> OneOf(keys, from, to, run[i])
    ensures var after := keys[..from] + run + keys[to..];
            |after| == |keys| && forall i :: 0 <= i < |after| ==> KeyOk(entries, after[i]) && PrefixPart(after[i]) == PrefixPart(keys[i])
  {
    hide PrefixPart, KeyOk;
    var after := keys[..from] + run + keys[to..];
    forall i | 0 <= i < |after|
      ensures KeyOk(entries, after[i]) && PrefixPart(after[i]) == PrefixPart(keys[i])
    {
      if from <= i < to {
        assert after[i] == run[i - from] && OneOf(keys, from, to, run[i - from]);
        var j :| from <= j < to && keys[j] == run[i - from];
      }
    }
  }

  lemma RunPlaced(entries: seq<Listed>, names: seq<Byte>, keys: seq<nat>, from: nat, to: nat, run: seq<nat>)
    requires AllKeyed(entries, names) && PartlySorted(entries, names, keys, from) && from < to <= |keys|
    requires forall i :: from <= i < to ==> PrefixPart(keys[i]) == PrefixPart(keys[from])
    requires to < |keys| ==> PrefixPart(keys[to]) != PrefixPart(keys[from])
    requires |run| == to - from
    requires forall i :: 0 <= i < |run| ==> OneOf(keys, from, to, run[i])
    requires multiset(keys[..from] + run + keys[to..]) == multiset(keys)
    requires Ordered(run, ByName(entries, names))
    ensures PartlySorted(entries, names, keys[..from] + run + keys[to..], to)
  {
    hide ByPrefix, Apart, OneOf, KeyOk, AllKeyed, Ordered;
    PrefixesStay(entries, keys, from, to, run);
    SamePrefixes(keys, keys[..from] + run + keys[to..], from, to);
    NamesPlaced(entries, names, keys, from, to, run);
  }

  /** Only the prefixes decide what lies apart. */
  lemma SamePrefixes(keys: seq<nat>, after: seq<nat>, from: nat, to: nat)
    requires ByPrefix(keys) && Apart(keys, from) && |after| == |keys| && from < to <= |keys|
    requires forall i :: 0 <= i < |after| ==> PrefixPart(after[i]) == PrefixPart(keys[i])
    requires forall i :: from <= i < to ==> PrefixPart(keys[i]) == PrefixPart(keys[from])
    requires to < |keys| ==> PrefixPart(keys[to]) != PrefixPart(keys[from])
    ensures ByPrefix(after) && Apart(after, from) && Apart(after, to)
  {
    hide PrefixPart;
    forall i, j | 0 <= i < to <= j < |after|
      ensures PrefixPart(after[i]) < PrefixPart(after[j])
    {
      assert PrefixPart(keys[i]) <= PrefixPart(keys[from]) < PrefixPart(keys[to]) <= PrefixPart(keys[j]);
    }
  }

  lemma NamesPlaced(entries: seq<Listed>, names: seq<Byte>, keys: seq<nat>, from: nat, to: nat, run: seq<nat>)
    requires AllKeyed(entries, names) && from < to <= |keys| && |run| == to - from
    requires var after := keys[..from] + run + keys[to..];
             Apart(after, from) && forall i :: 0 <= i < |after| ==> KeyOk(entries, after[i])
    requires NamesUpTo(entries, names, keys, from)
    requires Ordered(run, ByName(entries, names))
    ensures NamesUpTo(entries, names, keys[..from] + run + keys[to..], to)
  {
    hide NameAt, Compare, PrefixPart, KeyOk, AllKeyed;
    var after := keys[..from] + run + keys[to..];
    forall i, j | 0 <= i < j < to
      ensures Compare(NameAt(entries, names, after[i]), NameAt(entries, names, after[j])) != Greater
    {
      if i >= from {
        assert after[i] == run[i - from] && after[j] == run[j - from];
        assert ByName(entries, names)(run[i - from], run[j - from]);
      } else if j >= from {
        SmallerPrefix(entries, names, after[i], after[j]);
      }
    }
  }

  lemma SmallerPrefix(entries: seq<Listed>, names: seq<Byte>, left: nat, right: nat)
    requires AllKeyed(entries, names) && KeyOk(entries, left) && KeyOk(entries, right) && PrefixPart(left) < PrefixPart(right)
    ensures Compare(NameAt(entries, names, left), NameAt(entries, names, right)) == Less
  {
    assert Keyed(entries[PlacePart(left)], names) && Keyed(entries[PlacePart(right)], names);
    PrefixDecides(NameAt(entries, names, left), NameAt(entries, names, right), KEY);
  }

  lemma SortEnds(entries: seq<Listed>, names: seq<Byte>, keys: seq<nat>)
    requires AllKeyed(entries, names) && PartlySorted(entries, names, keys, |keys|) && |entries| < PLACES
    ensures var sorted := Map(Lookup(entries), keys);
            multiset(sorted) == multiset(entries) && |sorted| == |entries| && NamesInOrder(sorted, names) && AllKeyed(sorted, names)
  {
    var f := Lookup(entries);
    MapKeeps(f, keys, KeysOf(entries));
    forall i | 0 <= i < |keys|
      ensures Keyed(f(keys[i]), names)
    {
      assert KeyOk(entries, keys[i]) && Keyed(entries[PlacePart(keys[i])], names);
    }
    assert |multiset(Map(f, keys))| == |keys| && |multiset(entries)| == |entries|;
    forall i | 0 <= i < |entries|
      ensures f(KeysOf(entries)[i]) == entries[i]
    {
      KeyParts(entries[i].prefix, i);
    }
    assert Map(f, KeysOf(entries)) == entries;
  }

  // ----- the buffer of the names

  /** Where the block of name `k` starts. */
  function StartOf(added: seq<Name>, k: nat): nat
    requires k <= |added|
  {
    |Blocks(added[..k])|
  }

  predicate IsBlock(e: Listed, added: seq<Name>, k: nat) {
    k < |added| && e.start == StartOf(added, k) && e.len == |added[k]|
  }

  /** The entry's name is one that was added, and lies where it was put. */
  ghost predicate Placed(e: Listed, added: seq<Name>) {
    exists k :: IsBlock(e, added, k)
  }

  ghost predicate Named(entries: seq<Listed>, added: seq<Name>, k: nat) {
    exists e :: e in entries && IsBlock(e, added, k)
  }

  /** The buffer is the added names with a NUL behind each, and the entries are these names. */
  ghost predicate Laid(entries: seq<Listed>, names: seq<Byte>, added: seq<Name>) {
    && names == Blocks(added)
    && (forall e <- entries :: Placed(e, added))
    && (forall k :: 0 <= k < |added| ==> Named(entries, added, k))
  }

  lemma {:induction false} BlocksJoin(a: seq<Name>, b: seq<Name>)
    ensures Blocks(a + b) == Blocks(a) + Blocks(b)
    decreases |a|
  {
    if a == [] {
      assert a + b == b;
    } else {
      assert (a + b)[1..] == a[1..] + b;
      BlocksJoin(a[1..], b);
    }
  }

  /** A block of the buffer: its name, and a NUL behind it. */
  lemma BlockLies(added: seq<Name>, k: nat)
    requires k < |added|
    ensures var start, end := StartOf(added, k), StartOf(added, k) + |added[k]|;
            && end < |Blocks(added)|
            && Blocks(added)[start..end] == added[k] && Blocks(added)[end] == 0
  {
    assert added == added[..k] + ([added[k]] + added[k + 1..]);
    BlocksJoin(added[..k], [added[k]] + added[k + 1..]);
    assert ([added[k]] + added[k + 1..])[1..] == added[k + 1..];
  }

  lemma PlacedName(e: Listed, added: seq<Name>, k: nat)
    requires IsBlock(e, added, k)
    ensures Inside(e, Blocks(added)) && NameOf(e, Blocks(added)) == added[k]
  {
    BlockLies(added, k);
  }

  /** The buffer is text exactly if the name of every entry is. */
  lemma BufferIsText(entries: seq<Listed>, names: seq<Byte>, added: seq<Name>)
    requires Laid(entries, names, added)
    ensures IsText(names) <==> forall e <- entries :: IsText(NameOf(e, names))
  {
    hide IsText, IsBlock, Blocks, NameOf;
    BlocksAreText(added);
    forall k | 0 <= k < |added|
      ensures exists e :: e in entries && NameOf(e, names) == added[k]
    {
      assert Named(entries, added, k);
      var e :| e in entries && IsBlock(e, added, k);
      PlacedName(e, added, k);
    }
    forall e | e in entries
      ensures exists k :: 0 <= k < |added| && NameOf(e, names) == added[k]
    {
      assert Placed(e, added);
      var k: nat :| IsBlock(e, added, k);
      BlockNumber(e, added, k);
      PlacedName(e, added, k);
    }
  }

  lemma BlockNumber(e: Listed, added: seq<Name>, k: nat)
    requires IsBlock(e, added, k)
    ensures k < |added|
  {
  }

  /** In a buffer that is text, the place of a name can be cut out as text. */
  lemma NamesCanBeCut(entries: seq<Listed>, names: seq<Byte>, added: seq<Name>, e: Listed)
    requires Laid(entries, names, added) && e in entries && IsText(names)
    ensures Inside(e, names) && Boundary(names, e.start) && Boundary(names, e.start + e.len)
  {
    hide IsText, Blocks, StartOf, Continues;
    assert Placed(e, added);
    var k: nat :| IsBlock(e, added, k);
    PlacedName(e, added, k);
    BlockLies(added, k);
    BufferIsText(entries, names, added);
    NameEnds(names, e);
  }

  /** A name that is text, with a NUL behind it. */
  lemma NameEnds(names: seq<Byte>, e: Listed)
    requires Inside(e, names) && e.start + e.len < |names| && names[e.start + e.len] == 0 && IsText(NameOf(e, names))
    ensures Boundary(names, e.start) && Boundary(names, e.start + e.len)
  {
    hide IsText;
    if e.len > 0 {
      TextStarts(NameOf(e, names));
      assert names[e.start] == NameOf(e, names)[0];
    }
  }

  /** The order of the entries does not matter to where their names lie. */
  lemma LaidInAnyOrder(entries: seq<Listed>, sorted: seq<Listed>, names: seq<Byte>, added: seq<Name>)
    requires Laid(entries, names, added) && multiset(sorted) == multiset(entries)
    ensures Laid(sorted, names, added)
  {
    hide IsBlock, Blocks;
    forall e: Listed
      ensures e in sorted <==> e in entries
    {
      assert e in multiset(sorted) <==> e in multiset(entries);
    }
    forall k | 0 <= k < |added|
      ensures Named(sorted, added, k)
    {
      assert Named(entries, added, k);
    }
  }

  lemma BlockStays(e: Listed, added: seq<Name>, name: Name, k: nat)
    requires IsBlock(e, added, k)
    ensures IsBlock(e, added + [name], k)
  {
    assert (added + [name])[..k] == added[..k];
  }

  lemma LaidMore(entries: seq<Listed>, names: seq<Byte>, added: seq<Name>, e: Listed, name: Name)
    requires Laid(entries, names, added) && e.start == |names| && e.len == |name|
    ensures Laid(entries + [e], names + name + [0], added + [name])
  {
    BlocksPlus(added, name);
    var more := added + [name];
    assert more[..|added|] == added;
    assert IsBlock(e, more, |added|);
    hide IsBlock, Blocks;
    forall other | other in entries + [e]
      ensures Placed(other, more)
    {
      if other in entries {
        assert Placed(other, added);
        var k: nat :| IsBlock(other, added, k);
        BlockStays(other, added, name, k);
      }
    }
    forall k | 0 <= k < |more|
      ensures Named(entries + [e], more, k)
    {
      if k < |added| {
        assert Named(entries, added, k);
        var other :| other in entries && IsBlock(other, added, k);
        BlockStays(other, added, name, k);
        assert other in entries + [e];
      } else {
        assert (entries + [e])[|entries|] == e;
      }
    }
  }

  class Listing {
    var entries: seq<Listed>
    var names: seq<Byte>
    // Set when the listing is complete and all its names together are text.
    var text: bool
    // The names in the order they were listed.
    ghost var added: seq<Name>

    ghost predicate Valid()
      reads this
    {
      AllKeyed(entries, names) && |entries| < PLACES && Laid(entries, names, added)
    }

    constructor ()
      ensures Valid() && entries == [] && names == [] && !text
    {
      entries, names, text, added := [], [], false, [];
    }

    /** Lists one more entry, unless a place in the buffer passes a `u32`. */
    method Add(name: Name, kind: Kind, slot: nat) returns (ok: bool)
      requires Valid() && !text && |entries| + 1 < PLACES
      modifies this
      ensures Valid() && !text
      ensures ok <==> old(|names|) + |name| + 1 <= U32_MAX && slot <= U32_MAX
      ensures !ok ==> entries == old(entries) && names == old(names)
      ensures ok ==> |entries| == old(|entries|) + 1 && entries[..old(|entries|)] == old(entries)
      ensures ok ==> names == old(names) + name + [0] && added == old(added) + [name]
      ensures ok ==>
                var e := entries[old(|entries|)];
                NameOf(e, names) == name && e.kind == kind && e.slot == slot
      ensures forall i :: 0 <= i < old(|entries|) ==> NameOf(entries[i], names) == old(NameOf(entries[i], names))
    {
      hide Laid, AllKeyed, Keyed, Prefix;
      var start, len := |names|, |name|;
      if start > U32_MAX || len > U32_MAX || slot > U32_MAX || start + len + 1 > U32_MAX {
        return false;
      }
      var e := Listed(Prefix(name, KEY), start, len, kind, slot);
      LaidMore(entries, names, added, e, name);
      KeyedMore(entries, names, e, name);
      names := names + name;
      names := names + [0];
      entries := entries + [e];
      added := added + [name];
      ok := true;
    }

    /** Sorts the entries by name, and finds out whether all the names are text. */
    method Sort()
      requires Valid()
      modifies this`entries, this`text
      ensures Valid()
      ensures multiset(entries) == multiset(old(entries))
      ensures NamesInOrder(entries, names)
      ensures text == IsText(names)
    {
      var keys := SortKeys(entries, names);
      SortEnds(entries, names, keys);
      var sorted := Map(Lookup(entries), keys);
      LaidInAnyOrder(entries, sorted, names, added);
      entries := sorted;
      text := IsText(names);
    }
  }

  lemma NameStays(e: Listed, names: seq<Byte>, more: seq<Byte>)
    requires Inside(e, names) && names <= more
    ensures Inside(e, more) && NameOf(e, more) == NameOf(e, names)
  {
  }

  /** Names behind the buffer change none of the names in it. */
  lemma KeyedMore(entries: seq<Listed>, names: seq<Byte>, e: Listed, name: Name)
    requires AllKeyed(entries, names) && e.start == |names| && e.len == |name| && e.prefix == Prefix(name, KEY)
    ensures AllKeyed(entries + [e], names + name + [0]) && NameOf(e, names + name + [0]) == name
    ensures forall i :: 0 <= i < |entries| ==> NameOf(entries[i], names + name + [0]) == NameOf(entries[i], names)
  {
    hide Prefix;
    var more := names + name + [0];
    assert more[|names|..|names| + |name|] == name;
    forall i | 0 <= i < |entries|
      ensures NameOf(entries[i], more) == NameOf(entries[i], names) && Keyed(entries[i], more)
    {
      assert Keyed(entries[i], names);
      hide NameOf;
      NameStays(entries[i], names, more);
    }
    hide NameOf;
    assert Keyed(e, more);
  }

  /** One key for each entry, in order of the names. */
  method SortKeys(entries: seq<Listed>, names: seq<Byte>) returns (keys: seq<nat>)
    requires AllKeyed(entries, names) && |entries| < PLACES
    ensures PartlySorted(entries, names, keys, |keys|)
  {
    hide PartlySorted, PrefixPart, PlacePart, Compare, AllKeyed, SortedBy, KeysOf, ByName, SortSlice, BY_NUMBER;
    keys := SortedBy(KeysOf(entries), BY_NUMBER);
    SortBegins(entries, names);
    KeysCount(entries, names, keys, 0);
    var from := 0;
    while from < |keys|
      invariant from <= |keys| == |entries| && PartlySorted(entries, names, keys, from)
      decreases |entries| - from
    {
      var prefix := PrefixPart(keys[from]);
      var run := 1;
      while from + run < |keys| && PrefixPart(keys[from + run]) == prefix
        invariant from + run <= |keys|
        invariant forall i :: from <= i < from + run ==> PrefixPart(keys[i]) == prefix
      {
        run := run + 1;
      }
      RunSorted(entries, names, keys, from, from + run);
      if run > 1 {
        keys := SortSlice(keys, from, from + run, ByName(entries, names));
      }
      from := from + run;
      KeysCount(entries, names, keys, from);
    }
  }

  /** Finds the entry with this name, by binary search. */
  method Find(entries: seq<Listed>, names: seq<Byte>, name: Name) returns (found: Option<nat>)
    requires AllKeyed(entries, names) && NamesInOrder(entries, names)
    ensures found.Some? ==> found.value < |entries| && NameOf(entries[found.value], names) == name
    ensures found.None? ==> forall i :: 0 <= i < |entries| ==> NameOf(entries[i], names) != name
  {
    hide Prefix, Compare, NameOf;
    var prefix := Prefix(name, KEY);
    var low, high := 0, |entries|;
    while low < high
      invariant 0 <= low <= high <= |entries|
      invariant forall i :: 0 <= i < low ==> Compare(NameOf(entries[i], names), name) == Less
      invariant forall i :: high <= i < |entries| ==> Compare(name, NameOf(entries[i], names)) == Less
    {
      var middle := (low + high) / 2;
      var e := entries[middle];
      var at := NameOf(e, names);
      assert Keyed(e, names);
      PrefixFirstIsExact(at, name);
      match CompareByPrefix(e.prefix, at, prefix, name) {
        case Equal =>
          CompareEqual(at, name);
          return Some(middle);
        case Less =>
          forall i | 0 <= i < middle
            ensures Compare(NameOf(entries[i], names), name) == Less
          {
            Through(NameOf(entries[i], names), at, name);
          }
          low := middle + 1;
        case Greater =>
          CompareFlips(name, at);
          forall i | middle < i < |entries|
            ensures Compare(name, NameOf(entries[i], names)) == Less
          {
            CompareTransitive(name, at, NameOf(entries[i], names));
          }
          high := middle;
      }
    }
    CompareEqual(name, name);
    found := None;
  }

  lemma Through(a: Name, b: Name, c: Name)
    requires Compare(a, b) != Greater && Compare(b, c) == Less
    ensures Compare(a, c) == Less
  {
    CompareEqual(a, b);
    if a != b {
      CompareTransitive(a, b, c);
    }
  }
}
