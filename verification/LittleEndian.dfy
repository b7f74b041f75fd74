/** Unsigned numbers as bytes, least significant first. */
module LittleEndian {
  import opened Tree

  const LIMIT: nat := 0x1_0000_0000

  function Low(n: nat): Byte {
    var low: int := n % 256;
    low
  }

  function Le32(n: nat): (bytes: seq<Byte>)
    ensures |bytes| == 4
  {
    [Low(n), Low(n / 256), Low(n / 65536), Low(n / 16777216)]
  }

  function LeU32(bytes: seq<Byte>): nat
    requires |bytes| == 4
  {
    var a: nat, b: nat, c: nat, d: nat := bytes[0], bytes[1], bytes[2], bytes[3];
    a + 256 * b + 65536 * c + 16777216 * d
  }

  lemma LeBack(n: nat)
    requires n < LIMIT
    ensures LeU32(Le32(n)) == n
  {
    hide Le32, LeU32, Low;
    Digits(n);
    Le32Digits(n);
    LeU32Digits(Le32(n));
  }

  /** A number by its digits in base 256. */
  lemma Digits(n: nat)
    requires n < LIMIT
    ensures n == n % 256 + 256 * (n / 256 % 256) + 65536 * (n / 65536 % 256) + 16777216 * (n / 16777216 % 256)
  {
    var a, b, c := n / 256, n / 65536, n / 16777216;
    assert b == a / 256 && c == b / 256;
    assert n == 256 * a + n % 256 && a == 256 * b + a % 256 && b == 256 * c + b % 256 && c == c % 256;
  }

  lemma Le32Digits(n: nat)
    ensures Le32(n)[0] as int == n % 256 && Le32(n)[1] as int == n / 256 % 256
    ensures Le32(n)[2] as int == n / 65536 % 256 && Le32(n)[3] as int == n / 16777216 % 256
  {
  }

  lemma LeU32Digits(bytes: seq<Byte>)
    requires |bytes| == 4
    ensures LeU32(bytes) == bytes[0] as int + 256 * bytes[1] as int + 65536 * bytes[2] as int + 16777216 * bytes[3] as int
  {
  }

  lemma LeForth(bytes: seq<Byte>)
    requires |bytes| == 4
    ensures LeU32(bytes) < LIMIT && Le32(LeU32(bytes)) == bytes
  {
    var n := LeU32(bytes);
    var a: nat, b: nat, c: nat, d: nat := bytes[0], bytes[1], bytes[2], bytes[3];
    assert n / 16777216 == d;
    assert n / 65536 == c + 256 * d;
    assert n / 256 == b + 256 * c + 65536 * d;
  }

  function Le64(n: nat): (bytes: seq<Byte>)
    ensures |bytes| == 8
  {
    Le32(n % LIMIT) + Le32(n / LIMIT)
  }

  function LeU64(bytes: seq<Byte>): nat
    requires |bytes| == 8
  {
    LeU32(bytes[..4]) + LIMIT * LeU32(bytes[4..])
  }

  lemma LeU64Digits(bytes: seq<Byte>)
    requires |bytes| == 8
    ensures LeU64(bytes)
         == bytes[0] as int + 0x100 * bytes[1] as int + 0x1_0000 * bytes[2] as int + 0x100_0000 * bytes[3] as int
            + 0x1_0000_0000 * bytes[4] as int + 0x100_0000_0000 * bytes[5] as int
            + 0x1_0000_0000_0000 * bytes[6] as int + 0x100_0000_0000_0000 * bytes[7] as int
  {
    LeU32Digits(bytes[..4]);
    LeU32Digits(bytes[4..]);
  }

  lemma LeBack64(n: nat)
    requires n < LIMIT * LIMIT
    ensures LeU64(Le64(n)) == n
  {
    hide LeU32, Le32;
    LeBack(n % LIMIT);
    LeBack(n / LIMIT);
    assert Le64(n)[..4] == Le32(n % LIMIT) && Le64(n)[4..] == Le32(n / LIMIT);
  }
}
