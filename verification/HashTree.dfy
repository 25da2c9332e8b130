/**
 * The hash tree object: all levels in one vector, leaves first, with the number of
 * nodes of each level beside it.
 */
module HashTree {
  import opened Hashes
  import opened Merkle

  /** A shared pointer to a hash: which object, and its value. */
  datatype Ref = Ref(id: nat, value: Digest)

  function Values(s: seq<Ref>): (v: seq<Digest>)
    ensures |v| == |s| && forall k :: 0 <= k < |s| ==> v[k] == s[k].value
  {
    seq<Digest>(|s|, k requires 0 <= k < |s| => s[k].value)
  }

  ghost predicate Ascending(s: seq<Digest>) {
    forall i, j :: 0 <= i < j < |s| ==> !Less(s[j], s[i])
  }

  ghost predicate StrictlyAscending(s: seq<Digest>) {
    forall i, j :: 0 <= i < j < |s| ==> Less(s[i], s[j])
  }

  // ---------- sorting ----------

  /** Sorts by value; objects with the same value may come out in any order. */
  method Sort(s: seq<Ref>) returns (r: seq<Ref>)
    ensures multiset(r) == multiset(s) && Ascending(Values(r))
  {
    r := [];
    for i := 0 to |s|
      invariant multiset(r) == multiset(s[..i])
      invariant Ascending(Values(r))
    {
      var k := Place(r, s[i].value);
      ghost var before := r;
      r := r[..k] + [s[i]] + r[k..];
      Inserted(before, s[i], k);
      assert s[..i + 1] == s[..i] + [s[i]];
    }
    assert s[..|s|] == s;
  }

  lemma Inserted(s: seq<Ref>, x: Ref, k: nat)
    requires Ascending(Values(s)) && k <= |s|
    requires forall i :: 0 <= i < k ==> !Less(x.value, s[i].value)
    requires k < |s| ==> !Less(s[k].value, x.value)
    ensures var r := s[..k] + [x] + s[k..];
            multiset(r) == multiset(s) + multiset{x} && Ascending(Values(r))
  {
    hide Less, Ascending;
    var r := s[..k] + [x] + s[k..];
    InsertedOnce(s, x, k);
    assert forall i :: k < i < |r| ==> r[i] == s[i - 1];
    InsertedValues(Values(s), x.value, k, Values(r));
  }

  lemma InsertedOnce(s: seq<Ref>, x: Ref, k: nat)
    requires k <= |s|
    ensures multiset(s[..k] + [x] + s[k..]) == multiset(s) + multiset{x}
  {
    assert s == s[..k] + s[k..];
  }

  lemma InsertedValues(v: seq<Digest>, x: Digest, k: nat, r: seq<Digest>)
    requires Ascending(v) && k <= |v| && |r| == |v| + 1 && r[k] == x
    requires forall i :: 0 <= i < k ==> r[i] == v[i]
    requires forall i :: k < i < |r| ==> r[i] == v[i - 1]
    requires forall i :: 0 <= i < k ==> !Less(x, v[i])
    requires k < |v| ==> !Less(v[k], x)
    ensures Ascending(r)
  {
    hide Less;
    forall i, j | 0 <= i < j < |r|
      ensures !Less(r[j], r[i])
    {
      if i == k && j > k + 1 {
        assert !Less(v[j - 1], v[k]);
        NotLessTransitive(v[j - 1], v[k], x);
      }
    }
  }

  lemma NotLessTransitive(a: Digest, b: Digest, c: Digest)
    requires !Less(a, b) && !Less(b, c)
    ensures !Less(a, c)
  {
    LessTotal(a, b);
    LessTotal(b, c);
    if Less(a, c) {
      if a != b && b != c {
        LessTransitive(c, b, a);
        LessTotal(a, c);
      }
    }
  }

  method Place(s: seq<Ref>, x: Digest) returns (k: nat)
    requires Ascending(Values(s))
    ensures k <= |s|
    ensures forall i :: 0 <= i < k ==> !Less(x, s[i].value)
    ensures k < |s| ==> !Less(s[k].value, x)
  {
    k := 0;
    while k < |s| && !Less(x, s[k].value)
      invariant k <= |s|
      invariant forall i :: 0 <= i < k ==> !Less(x, s[i].value)
    {
      k := k + 1;
    }
    if k < |s| { LessTotal(x, s[k].value); }
  }

  // ---------- dropping repeated pointers ----------

  /** `std::unique` on pointers: of neighbours that are the same object the first stays. */
  function Unique(s: seq<Ref>): seq<Ref> {
    if |s| < 2 then s
    else if s[|s| - 1].id == s[|s| - 2].id then Unique(s[..|s| - 1])
    else Unique(s[..|s| - 1]) + [s[|s| - 1]]
  }

  method DropRepeats(s: seq<Ref>) returns (r: seq<Ref>)
    ensures r == Unique(s)
  {
    r := [];
    for i := 0 to |s|
      invariant r == Unique(s[..i])
    {
      if i == 0 || s[i].id != s[i - 1].id { r := r + [s[i]]; }
      assert s[..i + 1][..i] == s[..i];
    }
    assert s[..|s|] == s;
  }

  ghost predicate DistinctObjects(s: seq<Ref>) {
    forall i, j :: 0 <= i < j < |s| ==> s[i].id != s[j].id
  }

  lemma {:induction false} Nonempty(s: seq<Ref>)
    ensures s != [] ==> Unique(s) != []
  {
    if |s| >= 2 { Nonempty(s[..|s| - 1]); }
  }

  function Objects(s: seq<Ref>): set<nat> { set x | x in s :: x.id }

  /** Of each run of neighbours that are the same object one stays: no object is lost, and none stands beside itself. */
  lemma {:induction false} UniqueMeans(s: seq<Ref>)
    ensures var u := Unique(s);
            && |u| <= |s| && (s != [] ==> u != [] && u[|u| - 1].id == s[|s| - 1].id)
            && (forall k :: 0 < k < |u| ==> u[k].id != u[k - 1].id)
    ensures Objects(Unique(s)) == Objects(s)
  {
    if |s| >= 2 {
      var t, x := s[..|s| - 1], s[|s| - 1];
      UniqueMeans(t);
      assert s == t + [x];
      ObjectsAppend(t, x);
      ObjectsAppend(Unique(t), x);
      assert t[|t| - 1] in t;
      hide Objects;
      if x.id == t[|t| - 1].id { LastThere(t); }
    }
  }

  lemma LastThere(t: seq<Ref>)
    requires t != []
    ensures t[|t| - 1].id in Objects(t)
  {
  }

  lemma ObjectsAppend(t: seq<Ref>, x: Ref)
    ensures Objects(t + [x]) == Objects(t) + {x.id}
  {
  }

  /** Nothing is dropped when the objects are pairwise distinct, whatever their values. */
  lemma {:induction false} UniqueKeeps(s: seq<Ref>)
    requires DistinctObjects(s)
    ensures Unique(s) == s
  {
    if |s| >= 2 {
      UniqueKeeps(s[..|s| - 1]);
      assert s == s[..|s| - 1] + [s[|s| - 1]];
    }
  }

  // ---------- making the tree ----------

  /** The least number of levels above n leaves. */
  method Depth(n: nat) returns (depth: nat)
    ensures Pow2(depth) >= n && (depth > 0 ==> Pow2(depth - 1) < n)
  {
    var width := 1;
    depth := 0;
    while 1 + (n - 1) / width > 1
      invariant width == Pow2(depth)
      invariant depth > 0 ==> Pow2(depth - 1) < n
      decreases n - width
    {
      Wider(n, width);
      width := 2 * width;
      depth := depth + 1;
    }
    NotWider(n, width);
  }

  lemma Wider(n: nat, width: nat)
    requires width > 0 && (n - 1) / width > 0
    ensures width < n
  {
  }

  lemma NotWider(n: nat, width: nat)
    requires width > 0 && (n - 1) / width <= 0
    ensures width >= n
  {
  }

  /** One level: `width` tries, of which those that find a node below add one. */
  method AddLevel(hash: Hasher, nodes: seq<Digest>, start: nat, below: nat, width: nat)
    returns (r: seq<Digest>, count: nat)
    requires start + below == |nodes| && Half(below) <= width
    ensures count == Half(below)
    ensures r == nodes + Up(hash, nodes[start..])
  {
    hide Hex;
    r, count := nodes, 0;
    ghost var up := Up(hash, nodes[start..]);
    for j := 0 to width
      invariant count == if j <= |up| then j else |up|
      invariant r == nodes + up[..count]
    {
      var offset := 2 * j;
      var item := start + offset;
      if below - (offset + 2) >= 0 {
        assert r[item] == nodes[start..][offset] && r[item + 1] == nodes[start..][offset + 1];
        r := r + [hash(Hex(r[item]) + Hex(r[item + 1]))];
        count := count + 1;
      } else if (offset + 2) - below == 1 {
        assert r[item] == nodes[start..][offset];
        r := r + [hash(Hex(r[item]) + Hex(r[item]))];
        count := count + 1;
      }
    }
    assert up[..count] == up;
  }

  lemma {:induction false} FlattenAppend(ls: seq<seq<Digest>>, level: seq<Digest>)
    ensures Flatten(ls + [level]) == Flatten(ls) + level
  {
    if ls == [] {
      assert ls + [level] == [level] && [level][1..] == [];
    } else {
      FlattenAppend(ls[1..], level);
      assert (ls + [level])[1..] == ls[1..] + [level];
    }
  }

  /** A level is never wider than the power of two it is given room for. */
  lemma LevelFits(hash: Hasher, leaves: seq<Digest>, k: nat)
    requires leaves != [] && k < |Levels(hash, leaves)|
    ensures |Levels(hash, leaves)[k]| <= Pow2(|Levels(hash, leaves)| - 1 - k)
  {
    var d := |Levels(hash, leaves)| - 1;
    LevelSize(hash, leaves, k);
    DepthLeast(hash, leaves);
    Pow2Split(k, d - k);
    CeilDivBound(|leaves|, Pow2(k), Pow2(d - k));
  }

  lemma {:induction false} Pow2Split(a: nat, b: nat)
    ensures Pow2(a + b) == Pow2(a) * Pow2(b)
  {
    if a > 0 {
      Pow2Split(a - 1, b);
      assert Pow2(a + b) == 2 * Pow2(a - 1 + b);
    }
  }

  lemma CeilDivBound(n: nat, d: nat, q: nat)
    requires d > 0 && n <= d * q
    ensures CeilDiv(n, d) <= q
  {
    var c := CeilDiv(n, d);
    assert d * c <= n + d - 1 <= d * q + d - 1;
    assert d * (q + 1) == d * q + d;
    Scaled(d, q + 1, c);
  }

  lemma {:induction false} Pow2Least(a: nat, b: nat, n: nat)
    requires Pow2(a) >= n && (a > 0 ==> Pow2(a - 1) < n)
    requires Pow2(b) >= n && (b > 0 ==> Pow2(b - 1) < n)
    ensures a == b
  {
    if a < b {
      Pow2Grows(a, b - 1);
    } else if b < a {
      Pow2Grows(b, a - 1);
    }
  }

  lemma {:induction false} Pow2Grows(a: nat, b: nat)
    requires a <= b
    ensures Pow2(a) <= Pow2(b)
  {
    if a < b { Pow2Grows(a, b - 1); }
  }

  /** What is there once k levels are done, and what the next one adds. */
  lemma LevelDone(hash: Hasher, leaves: seq<Digest>, k: nat)
    requires leaves != [] && 0 < k < |Levels(hash, leaves)|
    ensures var ls := Levels(hash, leaves);
            var nodes, start := Flatten(ls[..k]), |Flatten(ls[..k - 1])|;
            && start + |ls[k - 1]| == |nodes| && nodes[start..] == ls[k - 1]
            && Flatten(ls[..k + 1]) == nodes + Up(hash, ls[k - 1])
            && Lengths(ls[..k + 1]) == Lengths(ls[..k]) + [Half(|ls[k - 1]|)]
            && Half(|ls[k - 1]|) <= Pow2(|ls| - 1 - k)
  {
    LevelSize(hash, leaves, k);
    LevelFits(hash, leaves, k);
    hide Levels;
    var ls := Levels(hash, leaves);
    assert ls[..k] == ls[..k - 1] + [ls[k - 1]] && ls[..k + 1] == ls[..k] + [ls[k]];
    FlattenAppend(ls[..k - 1], ls[k - 1]);
    FlattenAppend(ls[..k], ls[k]);
  }

  /** The loops over levels and nodes: leaves first, each higher level behind the one below. */
  method Build(hash: Hasher, leaves: seq<Digest>) returns (nodes: seq<Digest>, counts: seq<int>)
    requires leaves != []
    ensures nodes == Flatten(Levels(hash, leaves)) && counts == Lengths(Levels(hash, leaves))
    ensures IsTree(hash, leaves, nodes, counts)
  {
    FlatTree(hash, leaves);
    hide IsTree;
    hide Levels, Flatten, Lengths;
    var depth := Depth(|leaves|);
    ghost var ls := Levels(hash, leaves);
    DepthLeast(hash, leaves);
    Pow2Least(depth, |ls| - 1, |leaves|);
    LeavesDone(hash, leaves);
    nodes, counts := leaves, [|leaves|];
    var start, i: int := 0, depth - 1;
    while i >= 0
      invariant -1 <= i < depth
      invariant counts == Lengths(ls[..depth - i]) && nodes == Flatten(ls[..depth - i])
      invariant start == |Flatten(ls[..depth - i - 1])|
    {
      LevelDone(hash, leaves, depth - i);
      LengthsLast(ls, depth - i);
      var below := counts[|counts| - 1];
      var count;
      nodes, count := AddLevel(hash, nodes, start, below, Pow2(i));
      start := start + below;
      counts := counts + [count];
      i := i - 1;
    }
    assert ls[..|ls|] == ls;
  }

  lemma LengthsLast(ls: seq<seq<Digest>>, k: nat)
    requires 0 < k <= |ls|
    ensures var c := Lengths(ls[..k]); |c| == k && c[k - 1] == |ls[k - 1]|
  {
  }

  lemma LeavesDone(hash: Hasher, leaves: seq<Digest>)
    ensures var ls := Levels(hash, leaves);
            Flatten(ls[..0]) == [] && Flatten(ls[..1]) == leaves && Lengths(ls[..1]) == [|leaves|]
  {
    var ls := Levels(hash, leaves);
    assert ls[..1] == [leaves];
    FlattenAppend([], leaves);
  }

  class HashTree {
    var hashes: seq<Digest>
    var elementsPerLevel: seq<int>

    constructor ()
      ensures hashes == [] && elementsPerLevel == []
    {
      hashes, elementsPerLevel := [], [];
    }

    /** The object holds the tree over these leaves. */
    ghost predicate Holds(hash: Hasher, leaves: seq<Digest>)
      reads this
    {
      if leaves == [] then hashes == [] && elementsPerLevel == []
      else hashes == Flatten(Levels(hash, leaves)) && elementsPerLevel == Lengths(Levels(hash, leaves))
    }

    /**
     * Makes the tree over the given hashes, sorted and without repeated pointers; `sorted`
     * is the order the sort came up with.
     */
    method MakeHashTree(hash: Hasher, given: seq<Ref>) returns (ghost sorted: seq<Ref>)
      modifies this
      ensures multiset(sorted) == multiset(given) && Ascending(Values(sorted))
      ensures Holds(hash, Values(Unique(sorted)))
      ensures given != [] ==> IsTree(hash, Values(Unique(sorted)), hashes, elementsPerLevel)
    {
      hashes, elementsPerLevel := [], [];
      var s := Sort(given);
      sorted := s;
      var refs := DropRepeats(s);
      Nonempty(s);
      assert given != [] ==> s != [] by { assert |multiset(s)| == |multiset(given)|; }
      if |refs| > 0 { hashes, elementsPerLevel := Build(hash, Values(refs)); }
    }
  }
}
