/**
 * Comparing two hash trees: the leaves in which they differ, and that the tree does not
 * depend on the order in which the hashes are given.
 */
module TreeDiff {
  import opened Hashes
  import opened Merkle
  import opened HashTree

  // ---------- one order ----------

  /** There is only one way to sort. */
  lemma {:induction false} SortedOnce(a: seq<Digest>, b: seq<Digest>)
    requires Ascending(a) && Ascending(b) && multiset(a) == multiset(b)
    ensures a == b
  {
    if a == [] {
      assert |multiset(b)| == 0;
    } else {
      assert |multiset(b)| == |a|;
      SameFirst(a, b);
      assert a == [a[0]] + a[1..] && b == [b[0]] + b[1..];
      assert multiset(a[1..]) == multiset(a) - multiset{a[0]} && multiset(b[1..]) == multiset(b) - multiset{b[0]};
      SortedOnce(a[1..], b[1..]);
    }
  }

  lemma SameFirst(a: seq<Digest>, b: seq<Digest>)
    requires a != [] && b != [] && Ascending(a) && Ascending(b) && multiset(a) == multiset(b)
    ensures a[0] == b[0]
  {
    hide Less;
    assert a[0] in multiset(b) && b[0] in multiset(a);
    var i :| 0 <= i < |b| && b[i] == a[0];
    var j :| 0 <= j < |a| && a[j] == b[0];
    LessTotal(a[0], b[0]);
  }

  lemma ValuesAppend(a: seq<Ref>, b: seq<Ref>)
    ensures Values(a + b) == Values(a) + Values(b)
  {
  }

  lemma ValuesRemove(t: seq<Ref>, k: nat)
    requires k < |t|
    ensures multiset(Values(t)) == multiset(Values(t[..k] + t[k + 1..])) + multiset{t[k].value}
  {
    var l, x, r := t[..k], [t[k]], t[k + 1..];
    assert t == l + x + r;
    assert Values(x) == [t[k].value];
    ValuesAppend(l, x);
    ValuesAppend(l + x, r);
    ValuesAppend(l, r);
    Together(Values(l), t[k].value, Values(r));
  }

  lemma Together(l: seq<Digest>, x: Digest, r: seq<Digest>)
    ensures multiset(l + [x] + r) == multiset(l + r) + multiset{x}
  {
  }

  function Without(t: seq<Ref>, k: nat): (r: seq<Ref>)
    requires k < |t|
    ensures |r| == |t| - 1
  {
    t[..k] + t[k + 1..]
  }

  lemma RemoveOne(t: seq<Ref>, k: nat)
    requires k < |t|
    ensures multiset(Without(t, k)) == multiset(t) - multiset{t[k]}
    ensures multiset(Values(t)) == multiset(Values(Without(t, k))) + multiset{t[k].value}
  {
    assert t == t[..k] + [t[k]] + t[k + 1..];
    ValuesRemove(t, k);
  }

  lemma {:induction false} ValuesPermute(s: seq<Ref>, t: seq<Ref>)
    requires multiset(s) == multiset(t)
    ensures multiset(Values(s)) == multiset(Values(t))
    decreases |s|
  {
    hide Values;
    if s == [] {
      assert |multiset(t)| == 0;
    } else {
      assert s[0] in multiset(t);
      var k :| 0 <= k < |t| && t[k] == s[0];
      RemoveOne(t, k);
      RemoveOne(s, 0);
      hide Without;
      ValuesPermute(Without(s, 0), Without(t, k));
    }
  }

  lemma {:induction false} Twice(s: seq<Ref>, x: Ref)
    requires multiset(s)[x] >= 2
    ensures exists i, j :: 0 <= i < j < |s| && s[i] == x && s[j] == x
  {
    assert s == [s[0]] + s[1..];
    if s[0] == x {
      assert multiset(s[1..])[x] >= 1;
      assert x in s[1..];
      var j :| 0 <= j < |s[1..]| && s[1..][j] == x;
      assert s[0] == x && s[j + 1] == x;
    } else {
      Twice(s[1..], x);
      var i, j :| 0 <= i < j < |s[1..]| && s[1..][i] == x && s[1..][j] == x;
      assert s[i + 1] == x && s[j + 1] == x;
    }
  }

  lemma TwiceMeans(s: seq<Ref>, i: nat, j: nat)
    requires i < j < |s| && s[i] == s[j]
    ensures multiset(s)[s[i]] >= 2
  {
    assert s == s[..i] + [s[i]] + s[i + 1..j] + [s[j]] + s[j + 1..];
  }

  lemma DistinctPermute(s: seq<Ref>, t: seq<Ref>)
    requires multiset(s) == multiset(t) && DistinctObjects(s)
    ensures DistinctObjects(t)
  {
    forall k | 0 <= k < |t|
      ensures t[k] in s
    {
      assert t[k] in multiset(s);
    }
    forall i, j | 0 <= i < j < |t|
      ensures t[i].id != t[j].id
    {
      if t[i] == t[j] {
        TwiceMeans(t, i, j);
        Twice(s, t[i]);
      }
    }
  }

  /**
   * For distinct hash objects the tree depends only on which values are given: whatever the
   * two sorts did with the two lists, the leaves are the same.
   */
  lemma Canonical(given: seq<Ref>, other: seq<Ref>, sorted: seq<Ref>, sorted': seq<Ref>)
    requires DistinctObjects(given) && DistinctObjects(other)
    requires multiset(Values(given)) == multiset(Values(other))
    requires multiset(sorted) == multiset(given) && Ascending(Values(sorted))
    requires multiset(sorted') == multiset(other) && Ascending(Values(sorted'))
    ensures Values(Unique(sorted)) == Values(Unique(sorted'))
  {
    DistinctPermute(given, sorted);
    DistinctPermute(other, sorted');
    UniqueKeeps(sorted);
    UniqueKeeps(sorted');
    ValuesPermute(sorted, given);
    ValuesPermute(sorted', other);
    SortedOnce(Values(sorted), Values(sorted'));
  }

  // ---------- differences ----------

  /** Sorts the copied leaves. */
  method SortValues(v: seq<Digest>) returns (r: seq<Digest>)
    ensures Ascending(r) && forall x :: x in r <==> x in v
  {
    var refs := seq(|v|, k requires 0 <= k < |v| => Ref(k, v[k]));
    var s := Sort(refs);
    r := Values(s);
    SameValues(v, refs, s);
  }

  lemma SameValues(v: seq<Digest>, refs: seq<Ref>, s: seq<Ref>)
    requires multiset(s) == multiset(refs) && Values(refs) == v
    ensures forall x :: x in Values(s) <==> x in v
  {
    ValuesPermute(s, refs);
    forall x
      ensures x in Values(s) <==> x in v
    {
      assert x in Values(s) <==> x in multiset(Values(s));
      assert x in v <==> x in multiset(v);
    }
  }

  /** `std::unique_copy` by value on a sorted list. */
  method UniqueCopy(v: seq<Digest>) returns (r: seq<Digest>)
    requires Ascending(v)
    ensures StrictlyAscending(r) && forall x :: x in r <==> x in v
  {
    hide Less;
    r := [];
    for i := 0 to |v|
      invariant forall x :: x in r <==> x in v[..i]
      invariant StrictlyAscending(r)
      invariant if i == 0 then r == [] else r != [] && r[|r| - 1] == v[i - 1]
    {
      if i == 0 || v[i] != v[i - 1] {
        if i > 0 { ExtendAscending(r, v[i - 1], v[i]); }
        r := r + [v[i]];
      }
      assert v[..i + 1] == v[..i] + [v[i]];
    }
    assert v[..|v|] == v;
  }

  lemma ExtendAscending(r: seq<Digest>, last: Digest, x: Digest)
    requires StrictlyAscending(r) && r != [] && r[|r| - 1] == last && last != x && !Less(x, last)
    ensures StrictlyAscending(r + [x])
  {
    hide Less;
    LessTotal(last, x);
    forall i | 0 <= i < |r|
      ensures Less(r[i], x)
    {
      if i < |r| - 1 { LessTransitive(r[i], last, x); }
    }
  }

  /** The symmetric difference of two sorted lists. */
  function Difference(a: seq<Digest>, b: seq<Digest>): seq<Digest>
    decreases |a| + |b|
  {
    if a == [] then b
    else if b == [] then a
    else if Less(a[0], b[0]) then [a[0]] + Difference(a[1..], b)
    else if Less(b[0], a[0]) then [b[0]] + Difference(a, b[1..])
    else Difference(a[1..], b[1..])
  }

  /** `std::set_symmetric_difference`. */
  method SymmetricDifference(a: seq<Digest>, b: seq<Digest>) returns (r: seq<Digest>)
    ensures r == Difference(a, b)
  {
    hide Less;
    r := [];
    var i, j := 0, 0;
    while i < |a| && j < |b|
      invariant 0 <= i <= |a| && 0 <= j <= |b|
      invariant r + Difference(a[i..], b[j..]) == Difference(a, b)
      decreases |a| - i + |b| - j
    {
      assert a[i..][1..] == a[i + 1..] && b[j..][1..] == b[j + 1..];
      if Less(a[i], b[j]) {
        r := r + [a[i]];
        i := i + 1;
      } else if Less(b[j], a[i]) {
        r := r + [b[j]];
        j := j + 1;
      } else {
        i, j := i + 1, j + 1;
      }
    }
    r := r + a[i..] + b[j..];
  }

  ghost predicate Below(x: Digest, s: seq<Digest>) { forall k :: 0 <= k < |s| ==> Less(x, s[k]) }

  lemma HeadBelow(s: seq<Digest>)
    requires s != [] && StrictlyAscending(s)
    ensures Below(s[0], s[1..]) && StrictlyAscending(s[1..]) && s[0] !in s[1..]
  {
    hide Less;
    forall k | 0 <= k < |s| - 1
      ensures s[1..][k] == s[k + 1] && Less(s[0], s[1..][k]) && s[1..][k] != s[0]
    {
      LessTotal(s[0], s[k + 1]);
    }
  }

  lemma BelowAll(x: Digest, s: seq<Digest>)
    requires s != [] && StrictlyAscending(s) && Less(x, s[0])
    ensures Below(x, s) && x !in s
  {
    hide Less;
    forall k | 0 <= k < |s|
      ensures Less(x, s[k]) && x != s[k]
    {
      if k > 0 { LessTransitive(x, s[0], s[k]); }
      LessTotal(x, s[k]);
    }
  }

  lemma Prepend(x: Digest, s: seq<Digest>)
    requires StrictlyAscending(s) && Below(x, s)
    ensures StrictlyAscending([x] + s)
  {
    hide Less;
  }

  /** It is sorted without repetition and holds exactly the values on one side only. */
  lemma {:induction false} DifferenceMeans(a: seq<Digest>, b: seq<Digest>)
    requires StrictlyAscending(a) && StrictlyAscending(b)
    ensures StrictlyAscending(Difference(a, b))
    ensures forall x :: x in Difference(a, b) <==> (x in a) != (x in b)
    decreases |a| + |b|
  {
    hide Less;
    if a != [] && b != [] {
      HeadBelow(a);
      HeadBelow(b);
      LessTotal(a[0], b[0]);
      assert a == [a[0]] + a[1..] && b == [b[0]] + b[1..];
      if Less(a[0], b[0]) {
        BelowAll(a[0], b);
        DifferenceMeans(a[1..], b);
        BelowDifference(a[0], a[1..], b);
        Prepend(a[0], Difference(a[1..], b));
      } else if Less(b[0], a[0]) {
        BelowAll(b[0], a);
        DifferenceMeans(a, b[1..]);
        BelowDifference(b[0], a, b[1..]);
        Prepend(b[0], Difference(a, b[1..]));
      } else {
        DifferenceMeans(a[1..], b[1..]);
      }
    }
  }

  lemma BelowDifference(x: Digest, a: seq<Digest>, b: seq<Digest>)
    requires Below(x, a) && Below(x, b)
    requires forall y :: y in Difference(a, b) <==> (y in a) != (y in b)
    ensures Below(x, Difference(a, b))
  {
    hide Less, Difference;
    var d := Difference(a, b);
    forall k | 0 <= k < |d|
      ensures Less(x, d[k])
    {
      assert d[k] in d;
      assert d[k] in a || d[k] in b;
    }
  }

  // ---------- comparing trees ----------

  lemma FlattenHead(ls: seq<seq<Digest>>)
    requires ls != []
    ensures ls[0] <= Flatten(ls) && Lengths(ls) != [] && Lengths(ls)[0] == |ls[0]|
  {
  }

  /** The leaves come first in the vector, the top hash last. */
  lemma EndsOfTree(hash: Hasher, leaves: seq<Digest>)
    requires leaves != []
    ensures var f, c := Flatten(Levels(hash, leaves)), Lengths(Levels(hash, leaves));
            && f != [] && c != [] && c[0] == |leaves| <= |f| && f[..c[0]] == leaves
            && f[|f| - 1] == Top(hash, leaves)
  {
    hide Levels, Top, Flatten, Lengths;
    var ls := Levels(hash, leaves);
    DepthLeast(hash, leaves);
    FlattenLast(ls);
    FlattenHead(ls);
  }

  /**
   * `getChangedHashes`: whether the top hashes differ, and if so the values that are a leaf
   * of one tree only, in order and each once.  The list is left alone when they agree.
   */
  method GetChangedHashes(tree: HashTree, other: HashTree, given: seq<Digest>,
                          ghost hash: Hasher, ghost mine: seq<Digest>, ghost theirs: seq<Digest>)
    returns (changed: bool, diff: seq<Digest>)
    requires mine != [] && theirs != [] && tree.Holds(hash, mine) && other.Holds(hash, theirs)
    ensures changed <==> Top(hash, mine) != Top(hash, theirs)
    ensures if changed
            then StrictlyAscending(diff) && (forall x :: x in diff <==> (x in mine) != (x in theirs))
            else diff == given
  {
    EndsOfTree(hash, mine);
    EndsOfTree(hash, theirs);
    hide Levels, Flatten, Lengths, Top, Hex;
    var s, t := tree.hashes[|tree.hashes| - 1], other.hashes[|other.hashes| - 1];
    HexFaithful(s, t);
    if Hex(s) == Hex(t) { return false, given; }
    var left := SortValues(other.hashes[..other.elementsPerLevel[0]]);
    var right := SortValues(tree.hashes[..tree.elementsPerLevel[0]]);
    left := UniqueCopy(left);
    right := UniqueCopy(right);
    diff := SymmetricDifference(left, right);
    DifferenceMeans(left, right);
    changed := true;
  }

  lemma DistinctAscending(s: seq<Digest>)
    requires Ascending(s) && Distinct(s)
    ensures StrictlyAscending(s)
  {
    hide Less;
    forall i, j | 0 <= i < j < |s|
      ensures Less(s[i], s[j])
    {
      LessTotal(s[i], s[j]);
    }
  }

  /** Strictly ascending lists of the same values are the same. */
  lemma {:induction false} SameSet(a: seq<Digest>, b: seq<Digest>)
    requires StrictlyAscending(a) && StrictlyAscending(b)
    requires forall x :: x in a <==> x in b
    ensures a == b
  {
    hide Less;
    assert a != [] ==> a[0] in b;
    assert b != [] ==> b[0] in a;
    if a != [] {
      NotBelow(a[0], b);
      NotBelow(b[0], a);
      LessTotal(a[0], b[0]);
      HeadBelow(a);
      HeadBelow(b);
      assert a == [a[0]] + a[1..] && b == [b[0]] + b[1..];
      assert forall x :: x in a[1..] <==> x in a && x != a[0];
      assert forall x :: x in b[1..] <==> x in b && x != b[0];
      SameSet(a[1..], b[1..]);
    }
  }

  lemma NotBelow(x: Digest, s: seq<Digest>)
    requires StrictlyAscending(s) && x in s
    ensures !Less(x, s[0])
  {
    if Less(x, s[0]) { BelowAll(x, s); }
  }

  /** Ascending lists without repetition are the same exactly if they hold the same values. */
  lemma SameValuesSame(a: seq<Digest>, b: seq<Digest>)
    requires Ascending(a) && Ascending(b) && Distinct(a) && Distinct(b)
    ensures a == b <==> forall x :: (x in a) == (x in b)
  {
    DistinctAscending(a);
    DistinctAscending(b);
    if forall x :: (x in a) == (x in b) { SameSet(a, b); }
  }

  /** The leaves of one tree are an inner level of a deeper one, at the height where the depths meet. */
  ghost predicate Inside(hash: Hasher, a: seq<Digest>, b: seq<Digest>) {
    var m, n := |Levels(hash, a)|, |Levels(hash, b)|;
    m < n && a == Levels(hash, b)[n - m]
  }

  /**
   * The root check of trees over duplicate-free sorted leaves, whatever their depths: it misses a
   * difference if and only if the leaves of one tree are an inner level of the other, and it never
   * reports one that is not there.
   */
  lemma RootCheckExact(hash: Hasher, a: seq<Digest>, b: seq<Digest>)
    requires a != [] && b != [] && Ascending(a) && Ascending(b) && Distinct(a) && Distinct(b)
    requires CollisionFree(hash, Texts(hash, a) + Texts(hash, b))
    ensures var same := forall x :: (x in a) == (x in b);
            && (Top(hash, a) == Top(hash, b) <==> same || Inside(hash, a, b) || Inside(hash, b, a))
            && (same ==> !Inside(hash, a, b) && !Inside(hash, b, a))
    ensures |Levels(hash, a)| == |Levels(hash, b)| ==>
              (Top(hash, a) == Top(hash, b) <==> forall x :: (x in a) == (x in b))
  {
    hide Levels, Top, Texts, Ascending, Distinct;
    SameValuesSame(a, b);
    assert Texts(hash, a) + Texts(hash, b) == Texts(hash, b) + Texts(hash, a);
    if |Levels(hash, a)| <= |Levels(hash, b)| {
      SameTop(hash, a, b);
    } else {
      SameTop(hash, b, a);
    }
  }
}
