/** Bytes and the little-endian integers stored in them. */
module Bytes {

  newtype byte = b: int | 0 <= b < 256

  const TWO32: nat := 0x1_0000_0000

  function Pow256(k: nat): (p: nat)
    ensures p >= 1
  {
    if k == 0 then 1 else 256 * Pow256(k - 1)
  }

  lemma Pow256Four()
    ensures Pow256(4) == TWO32
  {
    assert Pow256(2) == 0x1_0000;
  }

  lemma ModSmall(n: int, m: int)
    requires 0 <= n < m
    ensures n % m == n
  {
  }

  /** The `k` low-order bytes of `n`, least significant first. */
  function LE(n: nat, k: nat): (s: seq<byte>)
    ensures |s| == k
  {
    if k == 0 then [] else [(n % 256) as byte] + LE(n / 256, k - 1)
  }

  /** The number whose little-endian bytes are `s`. */
  function FromLE(s: seq<byte>): (n: nat)
    ensures n < Pow256(|s|)
  {
    if s == [] then 0 else s[0] as int + 256 * FromLE(s[1..])
  }

  lemma ByteValue(v: int)
    requires 0 <= v < 256
    ensures (v as byte) as int == v
  {
  }

  lemma ByteIdentity(b: byte)
    ensures (b as int) as byte == b
  {
  }

  /** Reading back the `k` bytes of a number that fits in them gives the number. */
  lemma {:induction false} FromLE_LE(n: nat, k: nat)
    requires n < Pow256(k)
    ensures FromLE(LE(n, k)) == n
  {
    if k > 0 {
      FromLE_LE(n / 256, k - 1);
      ByteValue(n % 256);
      assert LE(n, k)[1..] == LE(n / 256, k - 1);
    }
  }

  /** The low byte of `b + 256 * t` is `b`, and the rest is `t`. */
  lemma LowByte(b: byte, t: nat)
    ensures ((b as int + 256 * t) % 256) as byte == b
    ensures (b as int + 256 * t) / 256 == t
  {
    var v := b as int;
    assert 0 <= v < 256;
    assert (v + 256 * t) % 256 == v;
    ByteIdentity(b);
  }

  /** Writing `b + 256 * t` in `k + 1` bytes puts `b` first and `t` after it. */
  lemma LEStep(b: byte, t: nat, k: nat)
    ensures LE(b as int + 256 * t, k + 1) == [b] + LE(t, k)
  {
    LowByte(b, t);
  }

  /** Writing back the number a byte string denotes gives the byte string. */
  lemma {:induction false} LE_FromLE(s: seq<byte>)
    ensures LE(FromLE(s), |s|) == s
  {
    if s != [] {
      LE_FromLE(s[1..]);
      LEStep(s[0], FromLE(s[1..]), |s| - 1);
      assert [s[0]] + s[1..] == s;
    }
  }

  /** An exact multiple divides back to its factor. */
  lemma DivExact(a: nat, n: nat, c: nat)
    requires n > 0 && a == n * c
    ensures a / n == c
  {
    var q, r := a / n, a % n;
    assert a == q * n + r && 0 <= r < n;
    if q < c {
      MulLe(q + 1, c, n);
    } else if q > c {
      MulLe(c + 1, q, n);
    }
  }

  lemma MulLe(a: nat, b: nat, n: nat)
    requires a <= b
    ensures a * n <= b * n
  {
  }
}
