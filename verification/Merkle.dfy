/**
 * The hash tree over the files of a directory, level by level, and what its top hash
 * says about its leaves.  The hash function is a parameter.
 */
module Merkle {
  import opened Hashes

  type Hasher = string -> Digest

  // ---------- the recursive tree ----------

  /** The text hashed for node j of the next level; an odd last node is doubled. */
  function PairText(level: seq<Digest>, j: nat): string
    requires 2 * j < |level|
  {
    Hex(level[2 * j]) + Hex(if 2 * j + 1 < |level| then level[2 * j + 1] else level[2 * j])
  }

  function Half(n: nat): nat { (n + 1) / 2 }

  function Up(hash: Hasher, level: seq<Digest>): (up: seq<Digest>)
    ensures |up| == Half(|level|)
    ensures forall j :: 0 <= j < |up| ==> up[j] == hash(PairText(level, j))
  {
    seq<Digest>(Half(|level|), j requires 0 <= j < Half(|level|) => hash(PairText(level, j)))
  }

  /** The leaves, and above each level its pairwise hash, until one node is left. */
  function Levels(hash: Hasher, leaves: seq<Digest>): (ls: seq<seq<Digest>>)
    ensures |ls| > 0 && ls[0] == leaves
    decreases |leaves|
  {
    if |leaves| <= 1 then [leaves] else [leaves] + Levels(hash, Up(hash, leaves))
  }

  function Flatten(ls: seq<seq<Digest>>): seq<Digest> {
    if ls == [] then [] else ls[0] + Flatten(ls[1..])
  }

  function Lengths(ls: seq<seq<Digest>>): seq<int> {
    seq(|ls|, k requires 0 <= k < |ls| => |ls[k]|)
  }

  function Top(hash: Hasher, leaves: seq<Digest>): Digest
    requires leaves != []
    decreases |leaves|
  {
    if |leaves| == 1 then leaves[0] else Top(hash, Up(hash, leaves))
  }

  // ---------- its shape ----------

  function Pow2(d: nat): (p: nat)
    ensures p >= 1
  {
    if d == 0 then 1 else 2 * Pow2(d - 1)
  }

  function CeilDiv(n: nat, d: nat): nat
    requires d > 0
  {
    (n + d - 1) / d
  }

  lemma CeilDivHalf(n: nat, d: nat)
    requires d > 0
    ensures CeilDiv(Half(n), d) == CeilDiv(n, 2 * d)
  {
    var q := CeilDiv(n, 2 * d);
    var h := Half(n);
    assert 2 * d * q <= n + 2 * d - 1 < 2 * d * (q + 1);
    assert d * q <= h + d - 1 < d * (q + 1);
    QuotientIs(h + d - 1, d, q);
  }

  lemma Scaled(d: nat, a: nat, b: nat)
    ensures a <= b ==> d * a <= d * b
  {
  }

  lemma QuotientIs(x: nat, d: nat, q: nat)
    requires d > 0 && d * q <= x < d * (q + 1)
    ensures x / d == q
  {
    var r := x / d;
    assert d * r <= x < d * (r + 1);
    Scaled(d, r + 1, q);
    Scaled(d, q + 1, r);
  }

  /** Level k holds n / 2^k nodes, rounded up. */
  lemma {:induction false} LevelSize(hash: Hasher, leaves: seq<Digest>, k: nat)
    requires k < |Levels(hash, leaves)|
    ensures |Levels(hash, leaves)[k]| == CeilDiv(|leaves|, Pow2(k))
    ensures k > 0 ==> Levels(hash, leaves)[k] == Up(hash, Levels(hash, leaves)[k - 1])
    decreases k
  {
    if k > 0 {
      LevelSize(hash, Up(hash, leaves), k - 1);
      CeilDivHalf(|leaves|, Pow2(k - 1));
      if k == 1 { assert Levels(hash, leaves)[0] == leaves; }
    }
  }

  /** The number of levels above the leaves is the least d with 2^d >= n. */
  lemma {:induction false} DepthLeast(hash: Hasher, leaves: seq<Digest>)
    requires leaves != []
    ensures var d := |Levels(hash, leaves)| - 1;
            Pow2(d) >= |leaves| && (d > 0 ==> Pow2(d - 1) < |leaves|)
            && |Levels(hash, leaves)[d]| == 1 && Levels(hash, leaves)[d] == [Top(hash, leaves)]
    decreases |leaves|
  {
    if |leaves| > 1 { DepthLeast(hash, Up(hash, leaves)); }
  }

  /** The flat vector ends with the top hash. */
  lemma {:induction false} FlattenLast(ls: seq<seq<Digest>>)
    requires ls != [] && ls[|ls| - 1] != []
    ensures var f, t := Flatten(ls), ls[|ls| - 1]; f != [] && f[|f| - 1] == t[|t| - 1]
  {
    if |ls| > 1 { FlattenLast(ls[1..]); }
  }

  // ---------- the flat tree, node by node ----------

  /** Where level k begins, given the number of nodes of each level. */
  function Offset(counts: seq<int>, k: nat): int
    requires k <= |counts|
  {
    if k == 0 then 0 else counts[0] + Offset(counts[1..], k - 1)
  }

  /**
   * Node j of level k + 1 is the hash of the hexadecimal forms of nodes 2j and 2j + 1 of level k,
   * one after the other; if level k ends with node 2j, of that node twice.
   */
  ghost predicate NodeHashed(hash: Hasher, nodes: seq<Digest>, counts: seq<int>, k: nat, j: nat)
    requires k + 1 < |counts|
  {
    var left, at := Offset(counts, k) + 2 * j, Offset(counts, k + 1) + j;
    var right := if 2 * j + 1 < counts[k] then left + 1 else left;
    && 0 <= left <= right < |nodes| && 0 <= at < |nodes|
    && nodes[at] == hash(Hex(nodes[left]) + Hex(nodes[right]))
  }

  /** The vector holds the leaves, then every level above them, half as long, up to a single node. */
  ghost predicate IsTree(hash: Hasher, leaves: seq<Digest>, nodes: seq<Digest>, counts: seq<int>) {
    && counts != [] && counts[0] == |leaves| && counts[|counts| - 1] == 1
    && |nodes| == Offset(counts, |counts|) && leaves <= nodes
    && (forall k :: 0 <= k < |counts| - 1 ==> counts[k] > 1 && counts[k + 1] == (counts[k] + 1) / 2)
    && (forall k, j :: 0 <= k < |counts| - 1 && 0 <= j < counts[k + 1] ==> NodeHashed(hash, nodes, counts, k, j))
  }

  lemma {:induction false} FlatAt(ls: seq<seq<Digest>>, k: nat, j: nat)
    requires k < |ls| && j < |ls[k]|
    ensures var at := Offset(Lengths(ls), k) + j; 0 <= at < |Flatten(ls)| && Flatten(ls)[at] == ls[k][j]
  {
    assert Lengths(ls)[1..] == Lengths(ls[1..]);
    if k > 0 { FlatAt(ls[1..], k - 1, j); }
  }

  lemma {:induction false} FlatLength(ls: seq<seq<Digest>>)
    ensures Offset(Lengths(ls), |ls|) == |Flatten(ls)|
  {
    if ls != [] {
      assert Lengths(ls)[1..] == Lengths(ls[1..]);
      FlatLength(ls[1..]);
    }
  }

  lemma {:induction false} LevelsSplit(hash: Hasher, leaves: seq<Digest>, k: nat)
    requires k + 1 < |Levels(hash, leaves)|
    ensures |Levels(hash, leaves)[k]| > 1
    decreases k
  {
    if k > 0 { LevelsSplit(hash, Up(hash, leaves), k - 1); }
  }

  lemma LevelNode(hash: Hasher, leaves: seq<Digest>, k: nat, j: nat)
    requires k + 1 < |Levels(hash, leaves)| && j < |Levels(hash, leaves)[k + 1]|
    ensures var ls := Levels(hash, leaves);
            && 2 * j < |ls[k]|
            && ls[k + 1][j] == hash(Hex(ls[k][2 * j]) + Hex(ls[k][if 2 * j + 1 < |ls[k]| then 2 * j + 1 else 2 * j]))
  {
    LevelSize(hash, leaves, k + 1);
    hide Levels, Hex;
  }

  lemma LengthAt(ls: seq<seq<Digest>>, k: nat)
    requires k < |ls|
    ensures |Lengths(ls)| == |ls| && Lengths(ls)[k] == |ls[k]|
  {
  }

  lemma FlatNode(hash: Hasher, leaves: seq<Digest>, k: nat, j: nat)
    requires k + 1 < |Levels(hash, leaves)| && j < |Levels(hash, leaves)[k + 1]|
    ensures NodeHashed(hash, Flatten(Levels(hash, leaves)), Lengths(Levels(hash, leaves)), k, j)
  {
    var ls := Levels(hash, leaves);
    hide Levels, Flatten, Offset, Hex, Lengths;
    LevelNode(hash, leaves, k, j);
    LengthAt(ls, k);
    FlatAt(ls, k + 1, j);
    FlatAt(ls, k, 2 * j);
    if 2 * j + 1 < |ls[k]| { FlatAt(ls, k, 2 * j + 1); }
  }

  /** The levels of the recursive tree, one after the other, are that vector. */
  lemma FlatTree(hash: Hasher, leaves: seq<Digest>)
    requires leaves != []
    ensures IsTree(hash, leaves, Flatten(Levels(hash, leaves)), Lengths(Levels(hash, leaves)))
  {
    var ls := Levels(hash, leaves);
    var nodes, counts := Flatten(ls), Lengths(ls);
    DepthLeast(hash, leaves);
    FlatLength(ls);
    assert leaves <= nodes;
    hide Levels, Flatten, Offset, NodeHashed;
    forall k | 0 <= k < |counts| - 1
      ensures counts[k] > 1 && counts[k + 1] == (counts[k] + 1) / 2
    {
      LevelsSplit(hash, leaves, k);
      LevelSize(hash, leaves, k + 1);
    }
    forall k, j | 0 <= k < |counts| - 1 && 0 <= j < counts[k + 1]
      ensures NodeHashed(hash, nodes, counts, k, j)
    {
      FlatNode(hash, leaves, k, j);
    }
  }

  lemma TopStep(hash: Hasher, level: seq<Digest>)
    requires |level| > 1
    ensures Up(hash, level) != [] && Top(hash, level) == Top(hash, Up(hash, level))
  {
  }

  lemma TwoLeaves(hash: Hasher, x: Digest, y: Digest)
    ensures Top(hash, [x, y]) == hash(Hex(x) + Hex(y))
  {
    TopStep(hash, [x, y]);
    hide Hex;
    assert PairText([x, y], 0) == Hex(x) + Hex(y);
    hide PairText;
    assert Up(hash, [x, y]) == [hash(Hex(x) + Hex(y))];
  }

  /** With three leaves the third one is hashed with itself. */
  lemma ThreeLeaves(hash: Hasher, a: Digest, b: Digest, c: Digest)
    ensures Top(hash, [a, b, c]) == hash(Hex(hash(Hex(a) + Hex(b))) + Hex(hash(Hex(c) + Hex(c))))
  {
    var x, y := hash(Hex(a) + Hex(b)), hash(Hex(c) + Hex(c));
    TopStep(hash, [a, b, c]);
    hide Hex, Top;
    assert PairText([a, b, c], 0) == Hex(a) + Hex(b) && PairText([a, b, c], 1) == Hex(c) + Hex(c);
    hide PairText;
    assert Up(hash, [a, b, c]) == [x, y];
    TwoLeaves(hash, x, y);
  }

  // ---------- binding ----------

  ghost predicate Distinct(s: seq<Digest>) {
    forall i, j :: 0 <= i < j < |s| ==> s[i] != s[j]
  }

  function LevelTexts(level: seq<Digest>): set<string> {
    set j | 0 <= j < Half(|level|) :: PairText(level, j)
  }

  /** Everything that is hashed while the tree is made. */
  function Texts(hash: Hasher, leaves: seq<Digest>): set<string>
    decreases |leaves|
  {
    if |leaves| <= 1 then {} else LevelTexts(leaves) + Texts(hash, Up(hash, leaves))
  }

  ghost predicate CollisionFree(hash: Hasher, texts: set<string>) {
    forall x, y :: x in texts && y in texts && hash(x) == hash(y) ==> x == y
  }

  lemma PairTexts(a: seq<Digest>, i: nat, b: seq<Digest>, j: nat)
    requires 2 * i < |a| && 2 * j < |b|
    ensures PairText(a, i) == PairText(b, j) <==>
            && a[2 * i] == b[2 * j]
            && (if 2 * i + 1 < |a| then a[2 * i + 1] else a[2 * i])
               == (if 2 * j + 1 < |b| then b[2 * j + 1] else b[2 * j])
  {
    PairFaithful(a[2 * i], if 2 * i + 1 < |a| then a[2 * i + 1] else a[2 * i],
                 b[2 * j], if 2 * j + 1 < |b| then b[2 * j + 1] else b[2 * j]);
  }

  /** Different nodes have different parents. */
  lemma DistinctUp(hash: Hasher, level: seq<Digest>)
    requires Distinct(level) && CollisionFree(hash, LevelTexts(level))
    ensures Distinct(Up(hash, level))
  {
    var up := Up(hash, level);
    forall i, j | 0 <= i < j < |up|
      ensures up[i] != up[j]
    {
      PairTexts(level, i, level, j);
      assert PairText(level, i) in LevelTexts(level) && PairText(level, j) in LevelTexts(level);
    }
  }

  /** A level of distinct nodes is determined by the one above, even across the doubling of an odd node. */
  lemma UpInjective(hash: Hasher, a: seq<Digest>, b: seq<Digest>)
    requires Distinct(a) && Distinct(b) && Up(hash, a) == Up(hash, b)
    requires CollisionFree(hash, LevelTexts(a) + LevelTexts(b))
    ensures a == b
  {
    var n := |Up(hash, a)|;
    forall j | 0 <= j < n
      ensures a[2 * j] == b[2 * j]
      ensures 2 * j + 1 < |a| <==> 2 * j + 1 < |b|
      ensures 2 * j + 1 < |a| ==> a[2 * j + 1] == b[2 * j + 1]
    {
      SamePair(hash, a, b, j);
    }
    if n > 0 { SamePair(hash, a, b, n - 1); }
    assert |a| == |b|;
    forall k | 0 <= k < |a|
      ensures a[k] == b[k]
    {
      assert k == 2 * (k / 2) || k == 2 * (k / 2) + 1;
    }
  }

  lemma SamePair(hash: Hasher, a: seq<Digest>, b: seq<Digest>, j: nat)
    requires Distinct(a) && Distinct(b) && Up(hash, a) == Up(hash, b) && j < |Up(hash, a)|
    requires CollisionFree(hash, LevelTexts(a) + LevelTexts(b))
    ensures a[2 * j] == b[2 * j]
    ensures 2 * j + 1 < |a| <==> 2 * j + 1 < |b|
    ensures 2 * j + 1 < |a| ==> a[2 * j + 1] == b[2 * j + 1]
  {
    assert PairText(a, j) in LevelTexts(a) && PairText(b, j) in LevelTexts(b);
    assert Up(hash, a)[j] == Up(hash, b)[j];
    PairTexts(a, j, b, j);
  }

  /**
   * With the same number of levels, equal top hashes mean equal leaves, unless two of the
   * texts that were hashed collide.
   */
  lemma {:induction false} Binding(hash: Hasher, a: seq<Digest>, b: seq<Digest>)
    requires a != [] && b != [] && Distinct(a) && Distinct(b)
    requires |Levels(hash, a)| == |Levels(hash, b)|
    requires CollisionFree(hash, Texts(hash, a) + Texts(hash, b))
    requires Top(hash, a) == Top(hash, b)
    ensures a == b
    decreases |a|
  {
    if |a| > 1 {
      var x, y := Up(hash, a), Up(hash, b);
      DistinctUp(hash, a);
      DistinctUp(hash, b);
      Binding(hash, x, y);
      UpInjective(hash, a, b);
    }
  }

  lemma OneLevelUp(hash: Hasher, b: seq<Digest>)
    requires |Levels(hash, b)| > 1
    ensures |b| > 1 && Levels(hash, b) == [b] + Levels(hash, Up(hash, b))
    ensures Top(hash, b) == Top(hash, Up(hash, b))
    ensures LevelTexts(b) <= Texts(hash, b) && Texts(hash, Up(hash, b)) <= Texts(hash, b)
  {
  }

  /** Every level of a tree, taken as leaves, has the same top hash. */
  lemma {:induction false} InnerTop(hash: Hasher, b: seq<Digest>, k: nat)
    requires b != [] && k < |Levels(hash, b)|
    ensures Levels(hash, b)[k] != [] && Top(hash, Levels(hash, b)[k]) == Top(hash, b)
    decreases k
  {
    hide Levels, Top, Texts;
    if k > 0 {
      OneLevelUp(hash, b);
      InnerTop(hash, Up(hash, b), k - 1);
    }
  }

  lemma {:induction false} InnerOnly(hash: Hasher, a: seq<Digest>, b: seq<Digest>)
    requires a != [] && b != [] && Distinct(a) && Distinct(b)
    requires |Levels(hash, a)| <= |Levels(hash, b)|
    requires CollisionFree(hash, Texts(hash, a) + Texts(hash, b))
    requires Top(hash, a) == Top(hash, b)
    ensures a == Levels(hash, b)[|Levels(hash, b)| - |Levels(hash, a)|]
    decreases |b|
  {
    hide Levels, Top, Texts, Distinct;
    if |Levels(hash, a)| == |Levels(hash, b)| {
      Binding(hash, a, b);
    } else {
      OneLevelUp(hash, b);
      DistinctUp(hash, b);
      InnerOnly(hash, a, Up(hash, b));
    }
  }

  /**
   * A tree of no more levels has the same top hash if and only if its leaves are the level of
   * the other tree at that height.
   */
  lemma SameTop(hash: Hasher, a: seq<Digest>, b: seq<Digest>)
    requires a != [] && b != [] && Distinct(a) && Distinct(b)
    requires |Levels(hash, a)| <= |Levels(hash, b)|
    requires CollisionFree(hash, Texts(hash, a) + Texts(hash, b))
    ensures Top(hash, a) == Top(hash, b) <==> a == Levels(hash, b)[|Levels(hash, b)| - |Levels(hash, a)|]
  {
    hide Levels, Top, Texts, Distinct;
    InnerTop(hash, b, |Levels(hash, b)| - |Levels(hash, a)|);
    if Top(hash, a) == Top(hash, b) { InnerOnly(hash, a, b); }
  }

  /** So the top hash does not tell trees of different depth apart: an inner node can be a leaf elsewhere. */
  lemma DepthMatters(hash: Hasher, a: Digest, b: Digest)
    requires a != b
    ensures var leaf := hash(Hex(a) + Hex(b));
            Top(hash, [leaf]) == Top(hash, [a, b]) && [leaf] != [a, b] && Distinct([leaf]) && Distinct([a, b])
  {
    InnerTop(hash, [a, b], 1);
    assert Levels(hash, [a, b])[1] == [hash(PairText([a, b], 0))];
  }
}
