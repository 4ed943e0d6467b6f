/** Sequence helpers shared by the model: first-seen deduplication and a stable sort. */
module Seqs {

  predicate NoDup<T(==)>(s: seq<T>) {
    forall i, j :: 0 <= i < j < |s| ==> s[i] != s[j]
  }

  /** Index of the first occurrence of x in s. */
  function FirstIndex<T(==)>(s: seq<T>, x: T): (i: nat)
    requires x in s
    ensures i < |s| && s[i] == x
    ensures forall j :: 0 <= j < i ==> s[j] != x
  {
    if s[0] == x then 0 else 1 + FirstIndex(s[1..], x)
  }

  /** "Append each element unless it is already there": the idiom
      `if x not in acc: acc.append(x)`, defined from the right so that it
      follows a loop that appends. */
  function Dedup<T(==)>(s: seq<T>): (r: seq<T>)
    ensures NoDup(r)
    ensures forall i :: 0 <= i < |r| ==> r[i] in s
    ensures forall i :: 0 <= i < |s| ==> s[i] in r
    ensures |r| <= |s|
  {
    if s == [] then []
    else
      var d := Dedup(s[..|s| - 1]);
      if s[|s| - 1] in d then d else d + [s[|s| - 1]]
  }

  lemma DedupSnoc<T>(s: seq<T>, x: T)
    ensures Dedup(s + [x]) == if x in Dedup(s) then Dedup(s) else Dedup(s) + [x]
  {
    assert (s + [x])[..|s|] == s;
  }

  lemma {:induction false} FirstIndexPrefix<T>(p: seq<T>, q: seq<T>, x: T)
    requires x in p
    ensures FirstIndex(p + q, x) == FirstIndex(p, x)
  {
    if p[0] != x {
      assert (p + q)[1..] == p[1..] + q;
      FirstIndexPrefix(p[1..], q, x);
    }
  }

  /** Dedup keeps first-seen order: earlier entries were seen first. */
  lemma {:induction false} DedupFirstSeen<T>(s: seq<T>, i: nat, j: nat)
    requires i < j < |Dedup(s)|
    ensures Dedup(s)[i] in s && Dedup(s)[j] in s
    ensures FirstIndex(s, Dedup(s)[i]) < FirstIndex(s, Dedup(s)[j])
  {
    var n := |s|;
    var p := s[..n - 1];
    var d := Dedup(p);
    assert s == p + [s[n - 1]];
    if s[n - 1] in d {
      DedupFirstSeen(p, i, j);
      FirstIndexPrefix(p, [s[n - 1]], d[i]);
      FirstIndexPrefix(p, [s[n - 1]], d[j]);
    } else {
      FirstIndexPrefix(p, [s[n - 1]], d[i]);
      if j < |d| {
        DedupFirstSeen(p, i, j);
        FirstIndexPrefix(p, [s[n - 1]], d[j]);
      } else {
        assert Dedup(s)[j] == s[n - 1] && s[n - 1] !in p;
        assert FirstIndex(s, s[n - 1]) == n - 1;
      }
    }
  }

  /** A list that has no duplicates is left as it is. */
  lemma {:induction false} DedupOfNoDup<T>(s: seq<T>)
    requires NoDup(s)
    ensures Dedup(s) == s
  {
    if s != [] {
      var p := s[..|s| - 1];
      DedupOfNoDup(p);
      assert s[|s| - 1] !in p;
      assert p + [s[|s| - 1]] == s;
    }
  }

  /** Running the deduplication twice gives the same list as running it once. */
  lemma DedupIdempotent<T>(s: seq<T>)
    ensures Dedup(Dedup(s)) == Dedup(s)
  {
    DedupOfNoDup(Dedup(s));
  }

  // ---------------------------------------------------------------------
  // Stable sort by a real-valued key (Python's list.sort / sorted, which are stable)

  predicate SortedBy<T>(s: seq<T>, key: T -> real) {
    forall i, j :: 0 <= i < j < |s| ==> key(s[i]) <= key(s[j])
  }

  /** Inserts x before the first element whose key is not below x's key. */
  function InsertBy<T>(x: T, s: seq<T>, key: T -> real): (r: seq<T>)
    ensures |r| == |s| + 1
  {
    if s == [] || key(x) <= key(s[0]) then [x] + s
    else [s[0]] + InsertBy(x, s[1..], key)
  }

  /** Inserting adds x and keeps every element of s. */
  lemma {:induction false} InsertByPerm<T>(x: T, s: seq<T>, key: T -> real)
    ensures multiset(InsertBy(x, s, key)) == multiset(s) + multiset{x}
  {
    if !(s == [] || key(x) <= key(s[0])) {
      InsertByPerm(x, s[1..], key);
      assert s == [s[0]] + s[1..];
    }
  }

  /** A bound below x's key and every key of s is below every key of the
      result. */
  lemma {:induction false} InsertByBound<T>(x: T, s: seq<T>, key: T -> real, b: real)
    requires b <= key(x)
    requires forall k :: 0 <= k < |s| ==> b <= key(s[k])
    ensures forall k :: 0 <= k < |InsertBy(x, s, key)| ==> b <= key(InsertBy(x, s, key)[k])
  {
    var r := InsertBy(x, s, key);
    if s == [] || key(x) <= key(s[0]) {
      forall k | 0 <= k < |r| ensures b <= key(r[k]) {
        if k > 0 {
          assert r[k] == s[k - 1];
        }
      }
    } else {
      var t := InsertBy(x, s[1..], key);
      InsertByBound(x, s[1..], key, b);
      forall k | 0 <= k < |r| ensures b <= key(r[k]) {
        if k > 0 {
          assert r[k] == t[k - 1];
        }
      }
    }
  }

  lemma {:induction false} InsertBySorted<T>(x: T, s: seq<T>, key: T -> real)
    requires SortedBy(s, key)
    ensures SortedBy(InsertBy(x, s, key), key)
  {
    if s == [] || key(x) <= key(s[0]) {
      var r := [x] + s;
      forall i, j | 0 <= i < j < |r| ensures key(r[i]) <= key(r[j]) {
        if i > 0 {
          assert r[i] == s[i - 1] && r[j] == s[j - 1];
        } else {
          assert r[j] == s[j - 1];
          assert key(s[0]) <= key(s[j - 1]);
        }
      }
    } else {
      var t := InsertBy(x, s[1..], key);
      InsertBySorted(x, s[1..], key);
      assert forall k :: 0 <= k < |s[1..]| ==> key(s[0]) <= key(s[1..][k]) by {
        forall k | 0 <= k < |s[1..]| ensures key(s[0]) <= key(s[1..][k]) {
          assert s[1..][k] == s[k + 1];
        }
      }
      InsertByBound(x, s[1..], key, key(s[0]));
      var r := [s[0]] + t;
      forall i, j | 0 <= i < j < |r| ensures key(r[i]) <= key(r[j]) {
        if i > 0 {
          assert r[i] == t[i - 1] && r[j] == t[j - 1];
        } else {
          assert r[j] == t[j - 1];
        }
      }
    }
  }

  /** Ascending stable sort by key; equal keys keep their original order. */
  function SortBy<T>(s: seq<T>, key: T -> real): (r: seq<T>)
    ensures |r| == |s|
  {
    if s == [] then []
    else InsertBy(s[0], SortBy(s[1..], key), key)
  }

  /** Sorting keeps every element, as often as it occurs. */
  lemma {:induction false} SortByPerm<T>(s: seq<T>, key: T -> real)
    ensures multiset(SortBy(s, key)) == multiset(s)
  {
    if s != [] {
      SortByPerm(s[1..], key);
      InsertByPerm(s[0], SortBy(s[1..], key), key);
      assert s == [s[0]] + s[1..];
    }
  }

  lemma {:induction false} SortBySorted<T>(s: seq<T>, key: T -> real)
    ensures SortedBy(SortBy(s, key), key)
  {
    if s != [] {
      SortBySorted(s[1..], key);
      InsertBySorted(s[0], SortBy(s[1..], key), key);
    }
  }

  /** The elements of s whose key is k, in their order in s. */
  function WithKey<T>(s: seq<T>, key: T -> real, k: real): seq<T>
  {
    if s == [] then []
    else (if key(s[0]) == k then [s[0]] else []) + WithKey(s[1..], key, k)
  }

  lemma {:induction false} InsertByWithKey<T>(x: T, s: seq<T>, key: T -> real, k: real)
    ensures WithKey(InsertBy(x, s, key), key, k)
         == (if key(x) == k then [x] else []) + WithKey(s, key, k)
  {
    if s == [] || key(x) <= key(s[0]) {
      var r := [x] + s;
      assert r[0] == x && r[1..] == s;
    } else {
      var t := InsertBy(x, s[1..], key);
      InsertByWithKey(x, s[1..], key, k);
      var r := [s[0]] + t;
      assert r[0] == s[0] && r[1..] == t;
      assert WithKey(r, key, k) == (if key(s[0]) == k then [s[0]] else []) + WithKey(t, key, k);
      assert WithKey(s, key, k) == (if key(s[0]) == k then [s[0]] else []) + WithKey(s[1..], key, k);
    }
  }

  /** Stability: among the elements with any one key, the sort keeps their order. */
  lemma {:induction false} SortByStable<T>(s: seq<T>, key: T -> real, k: real)
    ensures WithKey(SortBy(s, key), key, k) == WithKey(s, key, k)
  {
    if s != [] {
      SortByStable(s[1..], key, k);
      InsertByWithKey(s[0], SortBy(s[1..], key), key, k);
    }
  }

  /** x occurs strictly before y in s. */
  predicate Before<T(==)>(s: seq<T>, x: T, y: T) {
    exists i, j :: 0 <= i < j < |s| && s[i] == x && s[j] == y
  }

  lemma {:induction false} BeforeWithKey<T>(s: seq<T>, key: T -> real, i: nat, j: nat)
    requires i < j < |s| && key(s[i]) == key(s[j])
    ensures Before(WithKey(s, key, key(s[i])), s[i], s[j])
  {
    var k := key(s[i]);
    var w := WithKey(s[1..], key, k);
    var all := WithKey(s, key, k);
    if i == 0 {
      assert all == [s[0]] + w;
      assert s[1..][j - 1] == s[j];
      WithKeyHas(s[1..], key, j - 1);
      var b :| 0 <= b < |w| && w[b] == s[j];
      assert all[0] == s[i] && all[b + 1] == s[j];
    } else {
      assert s[1..][i - 1] == s[i] && s[1..][j - 1] == s[j];
      BeforeWithKey(s[1..], key, i - 1, j - 1);
      var a, b :| 0 <= a < b < |w| && w[a] == s[i] && w[b] == s[j];
      if key(s[0]) == k {
        assert all == [s[0]] + w;
        assert all[a + 1] == s[i] && all[b + 1] == s[j];
      } else {
        assert all == w;
      }
    }
  }

  lemma {:induction false} WithKeyHas<T>(s: seq<T>, key: T -> real, j: nat)
    requires j < |s|
    ensures s[j] in WithKey(s, key, key(s[j]))
  {
    if j > 0 {
      WithKeyHas(s[1..], key, j - 1);
    }
  }

  lemma {:induction false} BeforeOfWithKey<T>(s: seq<T>, key: T -> real, k: real, x: T, y: T)
    requires Before(WithKey(s, key, k), x, y)
    ensures Before(s, x, y)
  {
    var w := WithKey(s, key, k);
    var a, b :| 0 <= a < b < |w| && w[a] == x && w[b] == y;
    var rest := WithKey(s[1..], key, k);
    if key(s[0]) == k {
      assert w == [s[0]] + rest;
      if a == 0 {
        assert rest[b - 1] == y;
        WithKeyMember(s[1..], key, k, y);
        var j :| 0 <= j < |s[1..]| && s[1..][j] == y;
        assert s[0] == x && s[j + 1] == y;
      } else {
        assert rest[a - 1] == x && rest[b - 1] == y;
        BeforeOfWithKey(s[1..], key, k, x, y);
        var i, j :| 0 <= i < j < |s[1..]| && s[1..][i] == x && s[1..][j] == y;
        assert s[i + 1] == x && s[j + 1] == y;
      }
    } else {
      assert w == rest;
      BeforeOfWithKey(s[1..], key, k, x, y);
      var i, j :| 0 <= i < j < |s[1..]| && s[1..][i] == x && s[1..][j] == y;
      assert s[i + 1] == x && s[j + 1] == y;
    }
  }

  lemma {:induction false} WithKeyMember<T>(s: seq<T>, key: T -> real, k: real, y: T)
    requires y in WithKey(s, key, k)
    ensures y in s
  {
    if key(s[0]) != k || y != s[0] {
      WithKeyMember(s[1..], key, k, y);
    }
  }

  /** Ties keep their input order: two elements with equal keys come out of the
      sort in the order in which they went in. */
  lemma SortByKeepsTies<T>(s: seq<T>, key: T -> real, i: nat, j: nat)
    requires i < j < |SortBy(s, key)|
    requires key(SortBy(s, key)[i]) == key(SortBy(s, key)[j])
    ensures Before(s, SortBy(s, key)[i], SortBy(s, key)[j])
  {
    var r := SortBy(s, key);
    BeforeWithKey(r, key, i, j);
    SortByStable(s, key, key(r[i]));
    BeforeOfWithKey(s, key, key(r[i]), r[i], r[j]);
  }

  // ---------------------------------------------------------------------
  // Sums and means of reals (numpy's mean, with arithmetic taken as exact)

  function Sum(s: seq<real>): real {
    if s == [] then 0.0 else Sum(s[..|s| - 1]) + s[|s| - 1]
  }

  lemma {:induction false} SumBounds(s: seq<real>, lo: real, hi: real)
    requires forall i :: 0 <= i < |s| ==> lo <= s[i] <= hi
    ensures lo * |s| as real <= Sum(s) <= hi * |s| as real
  {
    if s != [] {
      SumBounds(s[..|s| - 1], lo, hi);
      assert lo * |s| as real == lo * (|s| - 1) as real + lo;
      assert hi * |s| as real == hi * (|s| - 1) as real + hi;
    }
  }

  function Mean(s: seq<real>): real
    requires s != []
  {
    Sum(s) / |s| as real
  }

  /** The mean lies between any lower and upper bound of the values. */
  lemma MeanBounds(s: seq<real>, lo: real, hi: real)
    requires s != []
    requires forall i :: 0 <= i < |s| ==> lo <= s[i] <= hi
    ensures lo <= Mean(s) <= hi
  {
    SumBounds(s, lo, hi);
    var n := |s| as real;
    assert lo * n <= Sum(s) <= hi * n;
    assert Sum(s) / n >= lo by {
      assert (lo * n) / n == lo;
    }
    assert Sum(s) / n <= hi by {
      assert (hi * n) / n == hi;
    }
  }
  /** In a sequence without duplicates every value occurs at most once. */
  lemma {:induction false} NoDupCount<T>(s: seq<T>, x: T)
    requires NoDup(s)
    ensures multiset(s)[x] <= 1
  {
    if s != [] {
      var p := s[..|s| - 1];
      assert s == p + [s[|s| - 1]];
      assert NoDup(p);
      NoDupCount(p, x);
    }
  }

  /** A permutation of a sequence without duplicates has none either. */
  lemma NoDupPermutation<T>(s: seq<T>, r: seq<T>)
    requires NoDup(s) && multiset(r) == multiset(s)
    ensures NoDup(r)
  {
    forall i, j | 0 <= i < j < |r| ensures r[i] != r[j] {
      if r[i] == r[j] {
        assert r == r[..j] + r[j..];
        assert r[i] in r[..j];
        assert r[j..][0] == r[j];
        NoDupCount(s, r[i]);
      }
    }
  }

  /** A prefix one longer is the prefix and the next element. */
  lemma TakeSnoc<T>(s: seq<T>, i: nat)
    requires i < |s|
    ensures s[..i + 1] == s[..i] + [s[i]]
  {
  }

  /** A prefix of the next longer prefix is the shorter prefix. */
  lemma TakeTake<T>(s: seq<T>, i: nat)
    requires i < |s|
    ensures s[..i + 1][..i] == s[..i]
  {
  }

  /** The prefix as long as the sequence is the sequence. */
  lemma TakeAll<T>(s: seq<T>, n: nat)
    requires n == |s|
    ensures s[..n] == s
  {
  }

  /** A non-empty sequence is its front and its last element. */
  lemma SplitLast<T>(s: seq<T>)
    requires s != []
    ensures s[..|s| - 1] + [s[|s| - 1]] == s
  {
  }

  lemma TakeDrop<T>(s: seq<T>, m: nat)
    requires m <= |s|
    ensures s[..m] + s[m..] == s
  {
  }

  lemma AppendNil<T>(s: seq<T>)
    ensures s + [] == s
  {
  }

  lemma AppendAssoc<T>(a: seq<T>, b: seq<T>, c: seq<T>)
    ensures (a + b) + c == a + (b + c)
  {
  }

  // ---------------------------------------------------------------------
  // Ordered sub-sequences

  /** xs can be obtained from ys by deleting elements: every element of xs is
      taken from ys, each position of ys at most once, in order. */
  predicate Embeds<T(==)>(xs: seq<T>, ys: seq<T>)
    decreases |ys|
  {
    if xs == [] then true
    else if ys == [] then false
    else (xs[|xs| - 1] == ys[|ys| - 1] && Embeds(xs[..|xs| - 1], ys[..|ys| - 1]))
         || Embeds(xs, ys[..|ys| - 1])
  }

  lemma {:induction false} EmbedsLength<T>(xs: seq<T>, ys: seq<T>)
    requires Embeds(xs, ys)
    ensures |xs| <= |ys|
    decreases |ys|
  {
    if xs != [] {
      if xs[|xs| - 1] == ys[|ys| - 1] && Embeds(xs[..|xs| - 1], ys[..|ys| - 1]) {
        EmbedsLength(xs[..|xs| - 1], ys[..|ys| - 1]);
      } else {
        EmbedsLength(xs, ys[..|ys| - 1]);
      }
    }
  }

  lemma EmbedsGrow<T>(xs: seq<T>, ys: seq<T>, y: T)
    requires Embeds(xs, ys)
    ensures Embeds(xs, ys + [y])
  {
    assert (ys + [y])[..|ys|] == ys;
  }

  lemma EmbedsSnoc<T>(xs: seq<T>, ys: seq<T>, x: T)
    requires Embeds(xs, ys)
    ensures Embeds(xs + [x], ys + [x])
  {
    assert (ys + [x])[..|ys|] == ys;
    assert (xs + [x])[..|xs|] == xs;
  }
  lemma {:induction false} EmbedsExtend<T>(xs: seq<T>, ys: seq<T>, zs: seq<T>)
    requires Embeds(xs, ys)
    ensures Embeds(xs, ys + zs)
    decreases |zs|
  {
    if zs != [] {
      var p := zs[..|zs| - 1];
      EmbedsExtend(xs, ys, p);
      EmbedsGrow(xs, ys + p, zs[|zs| - 1]);
      assert ys + p + [zs[|zs| - 1]] == ys + zs;
    } else {
      assert ys + zs == ys;
    }
  }
}
