/**
 * The metadata record of a file on the wire: the bytes that `operator<<` writes and the
 * stream reading of `operator>>`, which looks ahead by one token for a deletion notice.
 */
module Codec {
  import opened FileStore
  import opened Hashes
  import opened Boxoffice

  const REGULAR_FILE: int := 2

  /** A file's metadata; the path is a fixed array, filled up with zero bytes. */
  datatype Metadata = Metadata(path: seq<byte>, deleted: bool, mode: int, kind: int, mtime: int, size: int)

  predicate Valid(f: Metadata) {
    && |f.path| == MAXIMUM_PATH_LENGTH
    && 0 <= f.mode < 0x1_0000 && 0 <= f.kind < 256 && 0 <= f.mtime < 0x1_0000_0000 && 0 <= f.size < TWO_64
  }

  // ---------- big-endian numbers ----------

  function Pow256(n: nat): (p: nat)
    ensures p > 0
  {
    if n == 0 then 1 else 256 * Pow256(n - 1)
  }

  function BigEndian(x: nat, n: nat): (s: seq<byte>)
    ensures |s| == n
  {
    if n == 0 then [] else BigEndian(x / 256, n - 1) + [(x % 256) as byte]
  }

  function Number(s: seq<byte>): nat {
    if s == [] then 0 else 256 * Number(s[..|s| - 1]) + s[|s| - 1] as nat
  }

  lemma {:induction false} NumberBack(x: nat, n: nat)
    requires x < Pow256(n)
    ensures Number(BigEndian(x, n)) == x
  {
    if n > 0 {
      var s := BigEndian(x, n);
      assert s[..|s| - 1] == BigEndian(x / 256, n - 1);
      NumberBack(x / 256, n - 1);
    }
  }

  lemma Widths()
    ensures Pow256(1) == 0x100 && Pow256(2) == 0x1_0000 && Pow256(4) == 0x1_0000_0000 && Pow256(8) == TWO_64
  {
    assert Pow256(3) == 0x100_0000 && Pow256(5) == 0x100_0000_0000 && Pow256(6) == 0x1_0000_0000_0000
        && Pow256(7) == 0x100_0000_0000_0000;
  }

  // ---------- writing ----------

  const IN_DELETE: seq<byte> := [73, 78, 95, 68, 69, 76, 69, 84, 69]

  /** Mode, type, time and size; only a regular file gives its size. */
  function Fields(f: Metadata): (s: seq<byte>)
    requires Valid(f)
    ensures |s| == 15
  {
    BigEndian(f.mode, 2) + [f.kind as byte] + BigEndian(f.mtime, 4)
    + BigEndian(if f.kind == REGULAR_FILE then f.size else 0, 8)
  }

  /** The record after the hash of the box. */
  function Encode(f: Metadata): seq<byte>
    requires Valid(f)
  {
    f.path + if f.deleted then IN_DELETE else Fields(f)
  }

  // ---------- reading ----------

  predicate Space(b: byte) { 9 <= b <= 13 || b == 32 }

  /** Length of the white space at the front. */
  function Skip(s: seq<byte>): (n: nat)
    ensures n <= |s|
    ensures n < |s| ==> !Space(s[n])
    ensures forall k :: 0 <= k < n ==> Space(s[k])
  {
    if s == [] || !Space(s[0]) then 0 else 1 + Skip(s[1..])
  }

  /** Length of the token at the front. */
  function TokenLength(s: seq<byte>): (n: nat)
    ensures n <= |s|
    ensures n < |s| ==> Space(s[n])
    ensures forall k :: 0 <= k < n ==> !Space(s[k])
  {
    if s == [] || Space(s[0]) then 0 else 1 + TokenLength(s[1..])
  }

  /** A read in any order of what is in a stream, with the position it leaves. */
  datatype Parsed = Parsed(file: Metadata, rest: seq<byte>) | Failed

  /** The fields at the front of the bytes; a regular file takes eight more for its size. */
  function ParseFields(path: seq<byte>, s: seq<byte>, size: int): Parsed {
    if |s| < 7 then Failed
    else
      var f := Metadata(path, false, Number(s[..2]), s[2] as int, Number(s[3..7]), size);
      if f.kind != REGULAR_FILE then Parsed(f, s[7..])
      else if |s| < 15 then Failed
      else Parsed(f.(size := Number(s[7..15])), s[15..])
  }

  /**
   * Reads a record into a file object whose size so far is `size`.  White space in front of
   * the token is gone for good: the position is set back by the length of the token only.
   */
  function Decode(s: seq<byte>, size: int): Parsed {
    if |s| < MAXIMUM_PATH_LENGTH then Failed
    else
      var path, t := s[..MAXIMUM_PATH_LENGTH], s[MAXIMUM_PATH_LENGTH..];
      var u := t[Skip(t)..];
      var token := u[..TokenLength(u)];
      if token == [] then Failed
      else if token == IN_DELETE then Parsed(Metadata(path, true, 0, 0, 0, size), u[|token|..])
      else ParseFields(path, u, size)
  }

  // ---------- round trips ----------

  lemma FieldsBack(f: Metadata, tail: seq<byte>, size: int)
    requires Valid(f) && !f.deleted
    ensures ParseFields(f.path, Fields(f) + tail, size) ==
            if f.kind == REGULAR_FILE then Parsed(f, tail)
            else Parsed(f.(size := size), BigEndian(0, 8) + tail)
  {
    Widths();
    NumberBack(f.mode, 2);
    NumberBack(f.mtime, 4);
    hide Pow256, BigEndian, Number;
    var a, b := BigEndian(f.mode, 2), BigEndian(f.mtime, 4);
    var c := BigEndian(if f.kind == REGULAR_FILE then f.size else 0, 8);
    var s := Fields(f) + tail;
    assert s[..2] == a && s[3..7] == b && s[7..15] == c && s[15..] == tail;
    assert s[7..] == c + tail;
    if f.kind == REGULAR_FILE { NumberBack(f.size, 8); }
  }

  /** The high byte of the mode, which is what the token look-ahead meets first. */
  function HighByte(f: Metadata): int { f.mode / 256 }

  lemma FirstByte(f: Metadata, tail: seq<byte>)
    requires Valid(f) && f.mode <= 0xFFF
    ensures (Fields(f) + tail)[0] as int == HighByte(f)
  {
    assert BigEndian(f.mode, 2) == BigEndian(f.mode / 256, 1) + [(f.mode % 256) as byte];
    assert BigEndian(f.mode / 256, 1) == BigEndian(f.mode / 256 / 256, 0) + [(f.mode / 256 % 256) as byte];
  }

  lemma RecordSplits(f: Metadata, body: seq<byte>, tail: seq<byte>)
    requires Valid(f)
    ensures var s := f.path + body + tail;
            s[..MAXIMUM_PATH_LENGTH] == f.path && s[MAXIMUM_PATH_LENGTH..] == body + tail
  {
    assert f.path + body + tail == f.path + (body + tail);
  }

  /** With a mode of permission bits whose high byte is no white space, the record comes back whole. */
  lemma RoundTrip(f: Metadata, tail: seq<byte>, size: int)
    requires Valid(f) && !f.deleted && f.mode <= 0xFFF && !(9 <= HighByte(f) <= 13)
    ensures Decode(Encode(f) + tail, size) ==
            if f.kind == REGULAR_FILE then Parsed(f, tail)
            else Parsed(f.(size := size), BigEndian(0, 8) + tail)
  {
    FieldsBack(f, tail, size);
    FirstByte(f, tail);
    RecordSplits(f, Fields(f), tail);
    hide ParseFields, Fields, BigEndian, Number;
    var u := Fields(f) + tail;
    assert Skip(u) == 0 && TokenLength(u) > 0 && u[0..] == u;
    assert u[..TokenLength(u)][0] != IN_DELETE[0];
  }

  /** Otherwise the mode is never read back: the record is restored exactly under that condition. */
  lemma RoundTripExact(f: Metadata, tail: seq<byte>)
    requires Valid(f) && !f.deleted && f.mode <= 0xFFF
    ensures var d := Decode(Encode(f) + tail, f.size);
            d.Parsed? && d.file == f <==> !(9 <= HighByte(f) <= 13)
  {
    if 9 <= HighByte(f) <= 13 {
      FirstByte(f, tail);
      RecordSplits(f, Fields(f), tail);
      SkippedMode(f, tail);
    } else {
      RoundTrip(f, tail, f.size);
    }
  }

  lemma SkippedMode(f: Metadata, tail: seq<byte>)
    requires Valid(f) && !f.deleted && f.mode <= 0xFFF && 9 <= HighByte(f) <= 13
    ensures var d := Decode(Encode(f) + tail, f.size); d.Parsed? ==> d.file != f
  {
    FirstByte(f, tail);
    RecordSplits(f, Fields(f), tail);
    hide Fields, BigEndian;
    var t := Fields(f) + tail;
    var u := t[Skip(t)..];
    var token := u[..TokenLength(u)];
    if token != [] && token != IN_DELETE && |u| >= 7 {
      assert !Space(u[0]);
      NumberOfTwo(u[..2]);
    }
  }

  lemma NumberOfTwo(s: seq<byte>)
    requires |s| == 2
    ensures Number(s) == 256 * s[0] as nat + s[1] as nat
  {
    assert s[..1][..0] == [];
    assert Number(s[..1]) == s[0] as nat;
  }

  /** A deletion notice is recognised exactly when white space or the end of the stream follows. */
  lemma DeletedExact(f: Metadata, tail: seq<byte>, size: int)
    requires Valid(f) && f.deleted
    ensures var d := Decode(Encode(f) + tail, size);
            (d.Parsed? && d.file.deleted <==> tail == [] || tail[0] == 32 || 9 <= tail[0] <= 13)
            && (d.Parsed? && d.file.deleted ==> d.file.path == f.path && d.rest == tail)
  {
    RecordSplits(f, IN_DELETE, tail);
    var u := IN_DELETE + tail;
    assert Skip(u) == 0 && u[0..] == u;
    TokenOfNotice(tail);
    assert u[..9] == IN_DELETE && u[9..] == tail;
    hide ParseFields, Skip;
  }

  lemma TokenOfNotice(tail: seq<byte>)
    ensures TokenLength(IN_DELETE + tail) == 9 + TokenLength(tail)
  {
    TokenSplit(IN_DELETE, tail);
  }

  lemma {:induction false} TokenSplit(s: seq<byte>, t: seq<byte>)
    requires forall k :: 0 <= k < |s| ==> !Space(s[k])
    ensures TokenLength(s + t) == |s| + TokenLength(t)
  {
    if s == [] {
      assert s + t == t;
    } else {
      assert (s + t)[1..] == s[1..] + t;
      TokenSplit(s[1..], t);
    }
  }

  // ---------- the bytes themselves ----------

  lemma TwoBytes(x: nat)
    requires x < 0x1_0000
    ensures BigEndian(x, 2) == [(x / 256) as byte, (x % 256) as byte]
  {
    assert BigEndian(x / 256, 1) == BigEndian(x / 256 / 256, 0) + [(x / 256 % 256) as byte];
  }

  /** The value of eight bytes, the most significant one first. */
  function Sum8(s: seq<byte>): nat
    requires |s| == 8
  {
    0x100_0000_0000_0000 * s[0] as nat + 0x1_0000_0000_0000 * s[1] as nat + 0x100_0000_0000 * s[2] as nat
    + 0x1_0000_0000 * s[3] as nat + 0x100_0000 * s[4] as nat + 0x1_0000 * s[5] as nat + 0x100 * s[6] as nat
    + s[7] as nat
  }

  function Sum4(s: seq<byte>): nat
    requires |s| == 4
  {
    0x100_0000 * s[0] as nat + 0x1_0000 * s[1] as nat + 0x100 * s[2] as nat + s[3] as nat
  }

  lemma NumberStep(s: seq<byte>)
    requires s != []
    ensures Number(s) == 256 * Number(s[..|s| - 1]) + s[|s| - 1] as nat
  {
  }

  lemma NumberOfFour(s: seq<byte>)
    requires |s| == 4
    ensures Number(s) == Sum4(s)
  {
    NumberStep(s);
    NumberStep(s[..3]);
    NumberOfTwo(s[..2]);
    assert s[..3][..2] == s[..2];
    hide Number;
  }

  lemma NumberOfEight(s: seq<byte>)
    requires |s| == 8
    ensures Number(s) == Sum8(s)
  {
    NumberStep(s);
    NumberStep(s[..7]);
    NumberStep(s[..6]);
    NumberStep(s[..5]);
    NumberOfFour(s[..4]);
    assert s[..7][..6] == s[..6] && s[..6][..5] == s[..5] && s[..5][..4] == s[..4];
    hide Number;
  }

  /**
   * What is written after the hash: 128 bytes of path; then for a deleted file the text IN_DELETE, and
   * for another one its mode in two bytes, its type in one, its time in four and its size in eight,
   * each with the most significant byte first.  The size of anything but a regular file is zero.
   */
  lemma Layout(f: Metadata)
    requires Valid(f)
    ensures var s := Encode(f);
            && |s| == (if f.deleted then 137 else 143) && s[..128] == f.path
            && (f.deleted ==> forall k :: 0 <= k < 9 ==> s[128 + k] as char == "IN_DELETE"[k])
            && (!f.deleted ==>
                  && 256 * s[128] as nat + s[129] as nat == f.mode && s[130] as nat == f.kind
                  && Sum4(s[131..135]) == f.mtime
                  && Sum8(s[135..143]) == (if f.kind == 2 then f.size else 0)
                  && (f.kind != 2 ==> forall k :: 135 <= k < 143 ==> s[k] == 0))
  {
    if !f.deleted {
      var a, b := BigEndian(f.mode, 2), BigEndian(f.mtime, 4);
      var size := if f.kind == REGULAR_FILE then f.size else 0;
      var c := BigEndian(size, 8);
      TwoBytes(f.mode);
      Widths();
      NumberBack(f.mtime, 4);
      NumberBack(size, 8);
      NumberOfFour(b);
      NumberOfEight(c);
      hide BigEndian, Number, Pow256;
      var t := a + [f.kind as byte] + b + c;
      var s := f.path + t;
      assert t[..2] == a && t[3..7] == b && t[7..15] == c;
      assert s[128..130] == t[..2] && s[131..135] == t[3..7] && s[135..143] == t[7..15];
      assert s[128..130] == a && s[131..135] == b && s[135..143] == c;
      assert s[128] == a[0] && s[129] == a[1];
      if f.kind != 2 { NoBytes(c); }
    }
  }

  lemma NoBytes(s: seq<byte>)
    requires |s| == 8 && Sum8(s) == 0
    ensures forall k :: 0 <= k < 8 ==> s[k] == 0
  {
  }

  /** Those bytes, read again: the text is a deletion if white space or the end follows. */
  lemma ReadsDeletion(path: seq<byte>, tail: seq<byte>, size: int)
    requires |path| == 128
    requires tail == [] || tail[0] == 32 || 9 <= tail[0] <= 13
    ensures Decode(path + [73, 78, 95, 68, 69, 76, 69, 84, 69] + tail, size)
            == Parsed(Metadata(path, true, 0, 0, 0, size), tail)
  {
    var f := Metadata(path, true, 0, 0, 0, 0);
    RecordSplits(f, IN_DELETE, tail);
    var u := IN_DELETE + tail;
    assert Skip(u) == 0 && u[0..] == u;
    TokenOfNotice(tail);
    assert u[..9] == IN_DELETE && u[9..] == tail;
    hide ParseFields, Skip;
  }

  /** And of a file: two bytes of mode, one of type, four of time; then, for a regular file, eight of size. */
  lemma ReadsFields(s: seq<byte>, size: int)
    requires |s| >= 143 && s[128] < 9
    ensures var d, mode := Decode(s, size), 256 * s[128] as nat + s[129] as nat;
            var mtime := Sum4(s[131..135]);
            d == if s[130] == 2 then Parsed(Metadata(s[..128], false, mode, 2, mtime, Sum8(s[135..143])), s[143..])
                 else Parsed(Metadata(s[..128], false, mode, s[130] as int, mtime, size), s[135..])
  {
    var u := s[128..];
    assert Skip(u) == 0 && u[0..] == u && TokenLength(u) > 0 && u[..TokenLength(u)][0] != IN_DELETE[0];
    NumberOfTwo(u[..2]);
    NumberOfFour(u[3..7]);
    NumberOfEight(u[7..15]);
    assert u[..2] == s[128..130] && u[3..7] == s[131..135] && u[7..15] == s[135..143];
    assert u[7..] == s[135..] && u[15..] == s[143..];
    hide Skip, TokenLength, Number;
  }

  // ---------- the record kept as the current file ----------

  /** What is kept of a record: it starts with a 64-byte hash, of which 32 bytes are cut off. */
  function Kept(hash: Digest, f: Metadata, tail: seq<byte>): seq<byte>
    requires Valid(f)
  {
    (hash + Encode(f) + tail)[32..]
  }

  function Body(f: Metadata): seq<byte>
    requires Valid(f)
  {
    if f.deleted then IN_DELETE else Fields(f)
  }

  /** Half of the hash takes the front of the path, and the end of the path what should be the fields. */
  lemma CutSplits(hash: Digest, f: Metadata, tail: seq<byte>)
    requires Valid(f)
    ensures var s := Kept(hash, f, tail);
            && |s| >= MAXIMUM_PATH_LENGTH && s[..MAXIMUM_PATH_LENGTH] == hash[32..] + f.path[..96]
            && s[MAXIMUM_PATH_LENGTH..] == f.path[96..] + Body(f) + tail
  {
    hide Fields;
    var s := hash + (f.path + Body(f)) + tail;
    assert s[32..] == hash[32..] + f.path[..96] + (f.path[96..] + Body(f) + tail);
  }

  lemma FourTimes(half: seq<byte>, path: seq<byte>)
    requires |half| == 32 && |path| == 128
    ensures half + path[..96] == path <==> path == half + half + half + half
  {
    if half + path[..96] == path {
      assert path[..32] == half;
      assert path[32..64] == path[..96][..32];
      assert path[64..96] == path[..96][32..64];
      assert path[96..] == path[..96][64..];
      assert path == path[..32] + path[32..64] + path[64..96] + path[96..];
    }
  }

  /**
   * The path that is read from the rest is half of the hash and the path cut short: the right one
   * if and only if it is that half of the hash four times over.
   */
  lemma HalfHash(hash: Digest, f: Metadata, tail: seq<byte>, size: int)
    requires Valid(f)
    ensures var d := Decode(Kept(hash, f, tail), size);
            var half := hash[32..];
            d.Parsed? ==>
              && d.file.path == half + f.path[..96]
              && (d.file.path == f.path <==> f.path == half + half + half + half)
  {
    CutSplits(hash, f, tail);
    FourTimes(hash[32..], f.path);
    hide Skip, TokenLength, Fields, Number, Kept;
  }

  /**
   * A record of a path of at most 96 characters, which is followed by zero bytes, always parses
   * after the cut, and never as what it is: no deletion, no mode, and a file of kind 0.
   */
  lemma CutKindless(hash: Digest, f: Metadata, tail: seq<byte>, size: int)
    requires Valid(f) && f.path[96] == f.path[97] == f.path[98] == 0
    ensures var d := Decode(Kept(hash, f, tail), size);
            d.Parsed? && !d.file.deleted && d.file.mode == 0 && d.file.kind == 0 && d.file.size == size
  {
    CutSplits(hash, f, tail);
    hide Kept, Fields;
    var u := f.path[96..] + Body(f) + tail;
    assert u[0] == u[1] == u[2] == 0 && u[0..] == u;
    assert Skip(u) == 0 && TokenLength(u) > 0;
    assert u[..TokenLength(u)][0] != IN_DELETE[0];
    NumberOfTwo(u[..2]);
  }

  /** How much of the fields is read back: the size only of a regular file. */
  function ReadBack(f: Metadata): (s: seq<byte>)
    requires Valid(f)
  {
    if f.kind == REGULAR_FILE then Fields(f) else Fields(f)[..7]
  }

  lemma NumberIs(s: seq<byte>, x: nat, n: nat)
    requires |s| == n && x < Pow256(n)
    ensures Number(s) == x <==> s == BigEndian(x, n)
  {
    NumberBack(x, n);
    BackNumber(s);
  }

  lemma {:induction false} BackNumber(s: seq<byte>)
    ensures BigEndian(Number(s), |s|) == s
  {
    if s != [] {
      var t, b := s[..|s| - 1], s[|s| - 1];
      BackNumber(t);
      assert Number(s) / 256 == Number(t) && Number(s) % 256 == b as nat;
      assert s == t + [b];
    }
  }

  /** Fields are read as those of a record exactly if they start with what that record writes. */
  lemma ParsedAs(f: Metadata, u: seq<byte>)
    requires Valid(f) && !f.deleted
    ensures var d := ParseFields(f.path, u, f.size); d.Parsed? && d.file == f <==> ReadBack(f) <= u
  {
    Widths();
    if |u| >= 7 {
      NumberIs(u[..2], f.mode, 2);
      NumberIs(u[3..7], f.mtime, 4);
      if f.kind == REGULAR_FILE && |u| >= 15 { NumberIs(u[7..15], f.size, 8); }
    }
    hide Pow256, BigEndian, Number;
    SevenOf(f, u);
  }

  /** The first bytes, field by field. */
  lemma SevenOf(f: Metadata, u: seq<byte>)
    requires Valid(f)
    ensures Fields(f)[..7] <= u <==>
            |u| >= 7 && u[..2] == BigEndian(f.mode, 2) && u[2] as int == f.kind && u[3..7] == BigEndian(f.mtime, 4)
    ensures f.kind == REGULAR_FILE ==>
              (Fields(f) <= u <==> |u| >= 15 && Fields(f)[..7] <= u && u[7..15] == BigEndian(f.size, 8))
  {
    hide BigEndian;
    var a, b := BigEndian(f.mode, 2), BigEndian(f.mtime, 4);
    var c := BigEndian(if f.kind == REGULAR_FILE then f.size else 0, 8);
    var s := Fields(f);
    assert s == a + [f.kind as byte] + b + c;
    assert s[..2] == a && s[2] == f.kind as byte && s[3..7] == b && s[7..15] == c;
    if |u| >= 7 {
      assert u[..7] == u[..2] + [u[2]] + u[3..7];
      assert s[..7] == a + [f.kind as byte] + b;
    }
    if |u| >= 15 { assert u[..15] == u[..7] + u[7..15] && s == s[..7] + s[7..15]; }
  }

  /**
   * The whole record comes back after the cut if and only if its path is half of the hash four
   * times over, and that half, white space aside, happens to go on like the fields of the record.
   */
  lemma CutExact(hash: Digest, f: Metadata, tail: seq<byte>)
    requires Valid(f) && !f.deleted && f.mode <= 0xFFF
    ensures var d := Decode(Kept(hash, f, tail), f.size);
            var half := hash[32..];
            var rest := half + Fields(f) + tail;
            d.Parsed? && d.file == f <==>
              f.path == half + half + half + half && ReadBack(f) <= rest[Skip(rest)..]
  {
    var half := hash[32..];
    CutSplits(hash, f, tail);
    FourTimes(half, f.path);
    if f.path == half + half + half + half {
      assert f.path[96..] == half;
      var rest := half + Fields(f) + tail;
      CutParsed(f, rest, Kept(hash, f, tail));
    }
    hide Skip, TokenLength, Fields, Number, Kept;
  }

  lemma CutParsed(f: Metadata, rest: seq<byte>, s: seq<byte>)
    requires Valid(f) && !f.deleted && f.mode <= 0xFFF
    requires |s| >= MAXIMUM_PATH_LENGTH && s[..MAXIMUM_PATH_LENGTH] == f.path && s[MAXIMUM_PATH_LENGTH..] == rest
    ensures var d := Decode(s, f.size); d.Parsed? && d.file == f <==> ReadBack(f) <= rest[Skip(rest)..]
  {
    var u := rest[Skip(rest)..];
    FirstByte(f, []);
    ParsedAs(f, u);
    assert Fields(f) + [] == Fields(f);
    hide Fields, BigEndian, Number;
    if ReadBack(f) <= u {
      assert u[0] == Fields(f)[0];
      assert !Space(u[0]);
      assert TokenLength(u) > 0 && u[..TokenLength(u)][0] != IN_DELETE[0];
    }
  }
}
