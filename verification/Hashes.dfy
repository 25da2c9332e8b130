/**
 * Digests of 64 bytes: their order, and the hexadecimal form that is fed into the next
 * level of a hash tree.
 */
module Hashes {
  import opened FileStore

  const DIGEST_LENGTH: nat := 64

  type Digest = h: seq<byte> | |h| == DIGEST_LENGTH witness seq(DIGEST_LENGTH, _ => 0)

  // ---------- order ----------

  /** The sign of `memcmp`: the first byte that differs decides. */
  predicate Less(a: seq<byte>, b: seq<byte>)
    requires |a| == |b|
  {
    a != [] && (a[0] < b[0] || (a[0] == b[0] && Less(a[1..], b[1..])))
  }

  /** The digest order is a strict total order that agrees with equality of bytes. */
  lemma {:induction false} LessTotal(a: seq<byte>, b: seq<byte>)
    requires |a| == |b|
    ensures (a == b && !Less(a, b) && !Less(b, a))
         || (a != b && (Less(a, b) <==> !Less(b, a)))
  {
    if a != [] {
      assert a == [a[0]] + a[1..] && b == [b[0]] + b[1..];
      LessTotal(a[1..], b[1..]);
    }
  }

  /** The first byte in which they differ decides. */
  lemma {:induction false} LessMeans(a: seq<byte>, b: seq<byte>)
    requires |a| == |b|
    ensures Less(a, b) <==> exists k :: 0 <= k < |a| && a[..k] == b[..k] && a[k] < b[k]
  {
    if a != [] {
      var s, t := a[1..], b[1..];
      LessMeans(s, t);
      if a[0] < b[0] {
        assert a[..0] == b[..0];
      } else if a[0] == b[0] {
        if Less(s, t) {
          var k :| 0 <= k < |s| && s[..k] == t[..k] && s[k] < t[k];
          assert a[..k + 1] == [a[0]] + s[..k] && b[..k + 1] == [b[0]] + t[..k];
          assert a[k + 1] < b[k + 1];
        }
        forall k | 0 <= k < |a| && a[..k] == b[..k] && a[k] < b[k]
          ensures Less(s, t)
        {
          assert a[..k][1..] == s[..k - 1] && b[..k][1..] == t[..k - 1];
          assert s[k - 1] < t[k - 1];
        }
      } else {
        forall k | 0 <= k < |a| && a[..k] == b[..k]
          ensures k == 0
        {
        }
      }
    }
  }

  lemma {:induction false} LessTransitive(a: seq<byte>, b: seq<byte>, c: seq<byte>)
    requires |a| == |b| == |c| && Less(a, b) && Less(b, c)
    ensures Less(a, c)
  {
    if a[0] == b[0] == c[0] { LessTransitive(a[1..], b[1..], c[1..]); }
  }

  // ---------- hexadecimal ----------

  function HexDigit(n: int): char
    requires 0 <= n < 16
  {
    if n < 10 then ('0' as int + n) as char else ('a' as int + (n - 10)) as char
  }

  function Hex(h: seq<byte>): (s: string)
    ensures |s| == 2 * |h|
  {
    if h == [] then "" else [HexDigit(h[0] as int / 16), HexDigit(h[0] as int % 16)] + Hex(h[1..])
  }

  /** Two lower-case digits a byte, the high one first. */
  lemma {:induction false} HexAt(h: seq<byte>, i: nat)
    requires i < |h|
    ensures Hex(h)[2 * i] == "0123456789abcdef"[h[i] as int / 16]
    ensures Hex(h)[2 * i + 1] == "0123456789abcdef"[h[i] as int % 16]
  {
    if i == 0 {
      Digits(h[0] as int / 16);
      Digits(h[0] as int % 16);
    } else {
      HexAt(h[1..], i - 1);
      assert Hex(h)[2..] == Hex(h[1..]);
    }
  }

  lemma Digits(n: int)
    requires 0 <= n < 16
    ensures HexDigit(n) == "0123456789abcdef"[n]
  {
  }

  lemma HexForm(h: seq<byte>)
    ensures var s := Hex(h);
            forall i :: 0 <= i < |h| ==>
              && s[2 * i] == "0123456789abcdef"[h[i] as int / 16]
              && s[2 * i + 1] == "0123456789abcdef"[h[i] as int % 16]
  {
    forall i | 0 <= i < |h|
      ensures Hex(h)[2 * i] == "0123456789abcdef"[h[i] as int / 16]
      ensures Hex(h)[2 * i + 1] == "0123456789abcdef"[h[i] as int % 16]
    {
      HexAt(h, i);
    }
  }

  /** A digest has 64 bytes and 128 digits. */
  lemma DigestLength(h: Digest)
    ensures |h| == 64 && |Hex(h)| == 128
  {
  }

  /** Lexicographic order on strings of equal length. */
  predicate Before(s: string, t: string)
    requires |s| == |t|
  {
    s != "" && (s[0] < t[0] || (s[0] == t[0] && Before(s[1..], t[1..])))
  }

  lemma HexDigitInjective(m: int, n: int)
    requires 0 <= m < 16 && 0 <= n < 16
    ensures HexDigit(m) == HexDigit(n) <==> m == n
    ensures HexDigit(m) < HexDigit(n) <==> m < n
  {
  }

  /** The encoding loses nothing and keeps the order. */
  lemma {:induction false} HexFaithful(a: seq<byte>, b: seq<byte>)
    requires |a| == |b|
    ensures Hex(a) == Hex(b) <==> a == b
    ensures Before(Hex(a), Hex(b)) <==> Less(a, b)
  {
    if a != [] {
      var x, y := a[0] as int, b[0] as int;
      var s, t := Hex(a), Hex(b);
      HexFaithful(a[1..], b[1..]);
      HexDigitInjective(x / 16, y / 16);
      HexDigitInjective(x % 16, y % 16);
      assert s[2..] == Hex(a[1..]) && t[2..] == Hex(b[1..]);
      assert s[1..][1..] == s[2..] && t[1..][1..] == t[2..];
      assert s == [s[0], s[1]] + s[2..] && t == [t[0], t[1]] + t[2..];
      assert a == [a[0]] + a[1..] && b == [b[0]] + b[1..];
      assert x == 16 * (x / 16) + x % 16 && y == 16 * (y / 16) + y % 16;
    }
  }

  /** Two concatenated digests can be told apart again. */
  lemma PairFaithful(a: Digest, b: Digest, c: Digest, d: Digest)
    ensures Hex(a) + Hex(b) == Hex(c) + Hex(d) <==> a == c && b == d
  {
    var s, t := Hex(a) + Hex(b), Hex(c) + Hex(d);
    var n := 2 * DIGEST_LENGTH;
    assert s[..n] == Hex(a) && s[n..] == Hex(b) && t[..n] == Hex(c) && t[n..] == Hex(d);
    HexFaithful(a, c);
    HexFaithful(b, d);
  }

  /** The loop of `getString`: two digits a byte, appended to a stream. */
  method GetString(h: seq<byte>) returns (s: string)
    ensures s == Hex(h) && |s| == 2 * |h|
    ensures forall i :: 0 <= i < |h| ==>
              && s[2 * i] == "0123456789abcdef"[h[i] as int / 16]
              && s[2 * i + 1] == "0123456789abcdef"[h[i] as int % 16]
  {
    s := Stream(h);
    HexForm(h);
  }

  method Stream(h: seq<byte>) returns (s: string)
    ensures s == Hex(h)
  {
    s := "";
    for i := 0 to |h|
      invariant s + Hex(h[i..]) == Hex(h)
    {
      s := s + [HexDigit(h[i] as int / 16), HexDigit(h[i] as int % 16)];
      assert h[i..][1..] == h[i + 1..];
    }
    assert h[|h|..] == [];
  }
}
