/** Little-endian byte strings: channel ids, targets and rolled extranonces all use them. */
module Bytes {
  import opened Division

  newtype byte = x: int | 0 <= x < 256

  /** 256^n. */
  function Pow256(n: nat): (p: nat)
    ensures p > 0
  {
    if n == 0 then 1 else 256 * Pow256(n - 1)
  }

  /** The `n` low-order bytes of `v`, least significant first; higher digits are cut off. */
  function LeBytes(v: nat, n: nat): (s: seq<byte>)
    ensures |s| == n
  {
    if n == 0 then [] else [(v % 256) as byte] + LeBytes(v / 256, n - 1)
  }

  /** The number a little-endian byte string stands for. */
  function LeValue(s: seq<byte>): (v: nat)
    ensures v < Pow256(|s|)
  {
    if s == [] then 0 else s[0] as nat + 256 * LeValue(s[1..])
  }

  lemma {:induction false} PowAdd(a: nat, b: nat)
    ensures Pow256(a + b) == Pow256(a) * Pow256(b)
  {
    if a > 0 {
      PowAdd(a - 1, b);
    }
  }

  /** The i-th byte of an encoding is the i-th digit of the number, counted from the lowest. */
  lemma {:induction false} ByteAt(v: nat, n: nat, i: nat)
    requires i < n
    ensures LeBytes(v, n)[i] as nat == v / Pow256(i) % 256
  {
    if i > 0 {
      ByteAt(v / 256, n - 1, i - 1);
      NestedQuotient(v, 256, Pow256(i - 1));
    }
  }

  /** Decoding the encoding gives the number back, cut to the width. */
  lemma {:induction false} DecodeEncode(v: nat, n: nat)
    ensures LeValue(LeBytes(v, n)) == v % Pow256(n)
  {
    if n > 0 {
      DecodeEncode(v / 256, n - 1);
      var p := Pow256(n - 1);
      assert LeBytes(v, n)[1..] == LeBytes(v / 256, n - 1);
      ModSplit(v, p);
    }
  }

  /** v mod 256p splits into the low digit and the rest. */
  lemma ModSplit(v: nat, p: nat)
    requires p > 0
    ensures v % (256 * p) == v % 256 + 256 * ((v / 256) % p)
  {
    var q, r := v / 256 / p, (v / 256) % p;
    assert v / 256 == p * q + r;
    assert v == 256 * (v / 256) + v % 256;
    assert v == (256 * p) * q + (256 * r + v % 256);
    RemainderIs(v, 256 * p, q, 256 * r + v % 256);
  }

  /** Encoding what was decoded gives the same bytes back. */
  lemma {:induction false} EncodeDecode(s: seq<byte>)
    ensures LeBytes(LeValue(s), |s|) == s
  {
    if s != [] {
      EncodeDecode(s[1..]);
      var v := LeValue(s);
      RemainderIs(v, 256, LeValue(s[1..]), s[0] as nat);
      assert s == [s[0]] + s[1..];
    }
  }

  /** Two numbers have the same `n` low bytes exactly when they agree modulo 256^n. */
  lemma SameBytesIffCongruent(a: nat, b: nat, n: nat)
    ensures LeBytes(a, n) == LeBytes(b, n) <==> a % Pow256(n) == b % Pow256(n)
  {
    DecodeEncode(a, n);
    DecodeEncode(b, n);
    if a % Pow256(n) == b % Pow256(n) {
      EncodeDecode(LeBytes(a, n));
      EncodeDecode(LeBytes(b, n));
    }
  }
}
