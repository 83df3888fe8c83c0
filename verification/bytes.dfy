/** Byte strings as the Algorand virtual machine and the JavaScript SDK see
    them: UTF-8 text (what `Buffer.from(string)` produces), the SDK's 8-byte
    big-endian `encodeUint64`, and the AVM's `btoi`. */
module Bytes {
  import opened Wrappers

  type byte = x: int | 0 <= x < 256
  type Bytes = seq<byte>

  const MaxUint64: nat := 0xFFFF_FFFF_FFFF_FFFF

  /** Unsigned value of a big-endian byte string. */
  function BigEndian(b: Bytes): nat
  {
    if |b| == 0 then 0 else BigEndian(b[..|b| - 1]) * 256 + b[|b| - 1]
  }

  function Pow256(k: nat): (r: nat)
    ensures r > 0
  {
    if k == 0 then 1 else 256 * Pow256(k - 1)
  }

  /** The `k` low-order bytes of `n`, most significant first. */
  function FixedWidth(n: nat, k: nat): (r: Bytes)
    ensures |r| == k
  {
    if k == 0 then [] else FixedWidth(n / 256, k - 1) + [n % 256]
  }

  /** `algosdk.encodeUint64`: eight bytes, big-endian; anything that is not
      an unsigned 64-bit integer is refused. */
  function EncodeUint64(n: int): (r: Option<Bytes>)
    ensures r.Some? <==> 0 <= n <= MaxUint64
    ensures r.Some? ==> |r.value| == 8
  {
    if 0 <= n <= MaxUint64 then Some(FixedWidth(n, 8)) else None
  }

  /** The AVM `btoi` opcode: big-endian value of at most eight bytes;
      a longer argument fails the program. */
  function Btoi(b: Bytes): (r: Option<nat>)
    ensures r.Some? <==> |b| <= 8
  {
    if |b| <= 8 then Some(BigEndian(b)) else None
  }

  lemma {:induction false} BigEndianBound(b: Bytes)
    ensures BigEndian(b) < Pow256(|b|)
  {
    if |b| > 0 {
      BigEndianBound(b[..|b| - 1]);
    }
  }

  lemma {:induction false} BigEndianOfFixedWidth(n: nat, k: nat)
    ensures BigEndian(FixedWidth(n, k)) == n % Pow256(k)
  {
    if k > 0 {
      var w := FixedWidth(n, k);
      assert w[..k - 1] == FixedWidth(n / 256, k - 1);
      BigEndianOfFixedWidth(n / 256, k - 1);
      ModOfQuotient(n, Pow256(k - 1));
    }
  }

  /** (n / 256) % p * 256 + n % 256 == n % (256 * p). */
  lemma ModOfQuotient(n: nat, p: nat)
    requires p > 0
    ensures (n / 256) % p * 256 + n % 256 == n % (256 * p)
  {
    var q := n / 256;
    var r := n % 256;
    var q1 := q / p;
    var q2 := q % p;
    assert n == 256 * p * q1 + (q2 * 256 + r);
    assert 0 <= q2 * 256 + r < 256 * p;
    ModUnique(n, 256 * p, q1, q2 * 256 + r);
  }

  lemma ModUnique(n: nat, d: nat, q: nat, r: nat)
    requires d > 0 && n == d * q + r && r < d
    ensures n % d == r
  {
    var q' := n / d;
    var r' := n % d;
    assert d * q - d * q' == r' - r;
    if q > q' {
      assert d * (q - q') == d * q - d * q';
      MulAtLeast(d, q - q');
    } else if q < q' {
      assert d * (q' - q) == d * q' - d * q;
      MulAtLeast(d, q' - q);
    }
  }

  lemma {:induction false} MulAtLeast(d: int, k: int)
    requires d > 0 && k >= 1
    ensures d * k >= d
  {
    if k > 1 {
      MulAtLeast(d, k - 1);
      assert d * k == d * (k - 1) + d;
    }
  }

  /** What the contract reads back with `btoi` is what the backend encoded. */
  lemma BtoiEncodeUint64(n: int)
    requires 0 <= n <= MaxUint64
    ensures EncodeUint64(n).Some?
    ensures Btoi(EncodeUint64(n).value) == Some(n)
  {
    var w := FixedWidth(n, 8);
    assert EncodeUint64(n) == Some(w);
    BigEndianOfFixedWidth(n, 8);
    Pow256Eight();
    assert BigEndian(w) == n;
  }

  lemma Pow256Eight()
    ensures Pow256(8) == MaxUint64 + 1
  {
    assert Pow256(2) == 0x1_0000;
    assert Pow256(4) == 0x1_0000_0000;
    assert Pow256(6) == 0x1_0000_0000_0000;
  }

  /** Every value `btoi` returns fits in 64 bits. */
  lemma BtoiBound(b: Bytes)
    requires |b| <= 8
    ensures Btoi(b).value <= MaxUint64
  {
    BigEndianBound(b);
    PowMonotone(|b|, 8);
  }

  lemma {:induction false} PowMonotone(i: nat, j: nat)
    requires i <= j
    ensures Pow256(i) <= Pow256(j)
  {
    if i < j {
      PowMonotone(i, j - 1);
    }
  }

  /** UTF-8 encoding of one Unicode scalar value. */
  function Utf8Char(c: char): (r: Bytes)
    ensures 1 <= |r| <= 4
    ensures (c as int < 0x80) <==> |r| == 1
  {
    var n := c as int;
    if n < 0x80 then [n]
    else if n < 0x800 then [0xC0 + n / 64, 0x80 + n % 64]
    else if n < 0x10000 then [0xE0 + n / 4096, 0x80 + (n / 64) % 64, 0x80 + n % 64]
    else [0xF0 + n / 262144, 0x80 + (n / 4096) % 64, 0x80 + (n / 64) % 64, 0x80 + n % 64]
  }

  /** `Buffer.from(s)`: the UTF-8 bytes of a string. */
  function Utf8(s: string): (r: Bytes)
    ensures |s| <= |r| <= 4 * |s|
  {
    if |s| == 0 then [] else Utf8Char(s[0]) + Utf8(s[1..])
  }

  /** A string of 7-bit characters encodes to its character codes. */
  lemma {:induction false} Utf8Ascii(s: string)
    requires forall i :: 0 <= i < |s| ==> s[i] as int < 0x80
    ensures |Utf8(s)| == |s|
    ensures forall i :: 0 <= i < |s| ==> Utf8(s)[i] == s[i] as int
  {
    if |s| > 0 {
      Utf8Ascii(s[1..]);
    }
  }
}
