/** Strings kept in one buffer and told apart by numbers. */
module Tape {
  import opened Tree

  const U32_MAX: nat := 0xFFFF_FFFF

  /** Every string, cut out of the buffer by two neighbouring offsets. */
  function Pieces(arena: seq<Byte>, offsets: seq<nat>): (strings: seq<Name>)
    requires Tiles(arena, offsets)
  {
    seq(|offsets| - 1, i requires 0 <= i < |offsets| - 1 => arena[offsets[i]..offsets[i + 1]])
  }

  /** Offsets start at 0, never go back and end at the end of the buffer. */
  predicate Tiles(arena: seq<Byte>, offsets: seq<nat>) {
    && offsets != []
    && offsets[0] == 0 && offsets[|offsets| - 1] == |arena|
    && (forall i, j :: 0 <= i <= j < |offsets| ==> offsets[i] <= offsets[j])
  }

  function Total(strings: seq<Name>): nat {
    if strings == [] then 0 else Total(strings[..|strings| - 1]) + |strings[|strings| - 1]|
  }

  /** An append-only sequence of strings with at most 4 GiB of text. */
  class StrTape {
    var arena: seq<Byte>
    var offsets: seq<nat>

    ghost predicate Valid()
      reads this
    {
      Tiles(arena, offsets) && |arena| <= U32_MAX
    }

    ghost function Strings(): seq<Name>
      reads this
      requires Valid()
    {
      Pieces(arena, offsets)
    }

    constructor ()
      ensures Valid() && Strings() == []
    {
      arena, offsets := [], [0];
    }

    /** Appends `text`, or refuses and stays as it is when that would pass 4 GiB. */
    method Push(text: Name) returns (ok: bool)
      requires Valid()
      modifies this
      ensures Valid()
      ensures ok <==> Total(old(Strings())) + |text| <= U32_MAX
      ensures Strings() == if ok then old(Strings()) + [text] else old(Strings())
    {
      PiecesTotal(arena, offsets);
      ok := |arena| + |text| <= U32_MAX;
      if ok {
        PiecesPush(arena, offsets, text);
        arena := arena + text;
        offsets := offsets + [|arena|];
      }
    }

    /** What was pushed as number `index`, if that many were. */
    method Get(index: nat) returns (text: Option<Name>)
      requires Valid()
      ensures text == if index < |Strings()| then Some(Strings()[index]) else None
    {
      if index + 1 < |offsets| {
        text := Some(arena[offsets[index]..offsets[index + 1]]);
      } else {
        text := None;
      }
    }

    method Len() returns (n: nat)
      requires Valid()
      ensures n == |Strings()|
    {
      n := |offsets| - 1;
    }

    method TextLen() returns (n: nat)
      requires Valid()
      ensures n == Total(Strings())
    {
      PiecesTotal(arena, offsets);
      n := |arena|;
    }

    /** All strings, first to last. */
    method Iter() returns (strings: seq<Name>)
      requires Valid()
      ensures strings == Strings()
    {
      strings := [];
      for i := 0 to |offsets| - 1
        invariant strings == Strings()[..i]
      {
        strings := strings + [arena[offsets[i]..offsets[i + 1]]];
      }
    }
  }

  lemma PiecesPush(arena: seq<Byte>, offsets: seq<nat>, text: Name)
    requires Tiles(arena, offsets)
    ensures Tiles(arena + text, offsets + [|arena + text|])
    ensures Pieces(arena + text, offsets + [|arena + text|]) == Pieces(arena, offsets) + [text]
  {
    var longer := offsets + [|arena + text|];
    forall i | 0 <= i < |longer| - 1
      ensures (arena + text)[longer[i]..longer[i + 1]] == (Pieces(arena, offsets) + [text])[i]
    {
      if i < |offsets| - 1 {
        assert (arena + text)[longer[i]..longer[i + 1]] == arena[offsets[i]..offsets[i + 1]];
      }
    }
  }

  /** The strings together are as long as the buffer. */
  lemma {:induction false} PiecesTotal(arena: seq<Byte>, offsets: seq<nat>)
    requires Tiles(arena, offsets)
    ensures Total(Pieces(arena, offsets)) == |arena|
    decreases |offsets|
  {
    var strings := Pieces(arena, offsets);
    if |offsets| > 1 {
      var init := offsets[..|offsets| - 1];
      var end := init[|init| - 1];
      PiecesTotal(arena[..end], init);
      assert Pieces(arena[..end], init) == strings[..|strings| - 1] by {
        forall i | 0 <= i < |init| - 1
          ensures arena[..end][init[i]..init[i + 1]] == strings[i]
        {
        }
      }
    }
  }
}
