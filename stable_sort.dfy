/**
 * The sort step of the recommender: `scoredPosts.sort((a, b) => b.score - a.score)`
 * followed by `.map(({ score, ...post }) => post)`. `Array.prototype.sort` is
 * stable since ECMAScript 2019, so the order is the unique stable descending one.
 * The element type is a parameter: nothing here depends on what a listing holds.
 */
module StableSort {

  /** An element together with its score, `{ ...post, score }`. */
  datatype Scored<T> = Scored(post: T, score: int)

  /** `.map(({ score, ...post }) => post)`. */
  function Strip<T>(s: seq<Scored<T>>): (r: seq<T>)
    ensures |r| == |s|
  {
    seq(|s|, i requires 0 <= i < |s| => s[i].post)
  }

  /** Scores never increase along the sequence. */
  predicate SortedDesc<T>(s: seq<Scored<T>>) {
    forall i, j :: 0 <= i < j < |s| ==> s[i].score >= s[j].score
  }

  /** The elements with score `k`, in order. */
  function WithScore<T>(s: seq<Scored<T>>, k: int): (r: seq<Scored<T>>)
    ensures |r| <= |s|
  {
    if s == [] then [] else (if s[0].score == k then [s[0]] else []) + WithScore(s[1..], k)
  }

  lemma WithScoreCons<T>(y: Scored<T>, t: seq<Scored<T>>, k: int)
    ensures WithScore([y] + t, k) == (if y.score == k then [y] else []) + WithScore(t, k)
  {
    assert ([y] + t)[0] == y && ([y] + t)[1..] == t;
  }

  /** Exactly the elements of score `k` are kept. */
  lemma {:induction false} WithScoreMembers<T>(s: seq<Scored<T>>, k: int, y: Scored<T>)
    ensures y in WithScore(s, k) <==> y in s && y.score == k
  {
    if s != [] {
      WithScoreMembers(s[1..], k, y);
      assert s == [s[0]] + s[1..];
    }
  }

  lemma {:induction false} WithScoreAppend<T>(a: seq<Scored<T>>, b: seq<Scored<T>>, k: int)
    ensures WithScore(a + b, k) == WithScore(a, k) + WithScore(b, k)
  {
    if a == [] {
      assert a + b == b;
    } else {
      WithScoreAppend(a[1..], b, k);
      assert a + b == [a[0]] + (a[1..] + b);
      assert a == [a[0]] + a[1..];
      WithScoreCons(a[0], a[1..] + b, k);
      WithScoreCons(a[0], a[1..], k);
    }
  }

  /** Filtering for a score nothing has leaves nothing. */
  lemma WithScoreNone<T>(s: seq<Scored<T>>, k: int)
    requires forall z :: z in s ==> z.score != k
    ensures WithScore(s, k) == []
  {
    var w := WithScore(s, k);
    if w != [] {
      WithScoreMembers(s, k, w[0]);
    }
  }

  /**
   * Moving an element past elements of other scores changes no score's
   * subsequence: the order a stable sort must keep is only that within a score.
   */
  lemma WithScoreSwap<T>(y: Scored<T>, m: seq<Scored<T>>, k: int)
    requires forall z :: z in m ==> z.score != y.score
    ensures WithScore([y] + m, k) == WithScore(m + [y], k)
  {
    WithScoreCons(y, m, k);
    WithScoreAppend(m, [y], k);
    WithScoreCons(y, [], k);
    assert [y] + [] == [y];
    if y.score == k {
      WithScoreNone(m, k);
    }
  }

  /** Moving the last element forward to position `i`, past elements of other scores, keeps every score's subsequence. */
  lemma WithScoreMoveLast<T>(s: seq<Scored<T>>, i: nat)
    requires i < |s|
    requires forall j :: i <= j < |s| - 1 ==> s[j].score != s[|s| - 1].score
    ensures forall k :: WithScore(s[..i] + [s[|s| - 1]] + s[i..|s| - 1], k) == WithScore(s, k)
  {
    var y := s[|s| - 1];
    var m := s[i..|s| - 1];
    assert s == s[..i] + (m + [y]);
    assert s[..i] + [y] + m == s[..i] + ([y] + m);
    forall z | z in m ensures z.score != y.score {
      var j :| 0 <= j < |m| && m[j] == z;
      assert s[i + j] == z;
    }
    forall k ensures WithScore(s[..i] + ([y] + m), k) == WithScore(s[..i] + (m + [y]), k) {
      WithScoreAppend(s[..i], [y] + m, k);
      WithScoreAppend(s[..i], m + [y], k);
      WithScoreSwap(y, m, k);
    }
  }

  /** The case of five elements, the last moved to the second place. */
  lemma WithScoreLastToSecond<T>(s: seq<Scored<T>>)
    requires |s| == 5 && s[1].score != s[4].score && s[2].score != s[4].score && s[3].score != s[4].score
    ensures forall k :: WithScore([s[0], s[4], s[1], s[2], s[3]], k) == WithScore(s, k)
  {
    WithScoreMoveLast(s, 1);
    assert s[..1] + [s[4]] + s[1..4] == [s[0], s[4], s[1], s[2], s[3]];
  }

  /**
   * Inserts `x` into a descending sequence in front of the first element whose
   * score it reaches, so it stays behind the elements that score more.
   */
  function Insert<T>(x: Scored<T>, s: seq<Scored<T>>): (r: seq<Scored<T>>)
    ensures |r| == |s| + 1 && multiset(r) == multiset(s) + multiset{x}
  {
    if s == [] then [x]
    else if s[0].score <= x.score then [x] + s
    else
      assert s == [s[0]] + s[1..];
      [s[0]] + Insert(x, s[1..])
  }

  /** Inserting keeps a descending sequence descending. */
  lemma {:induction false} InsertSorted<T>(x: Scored<T>, s: seq<Scored<T>>)
    requires SortedDesc(s)
    ensures SortedDesc(Insert(x, s))
  {
    if s != [] && s[0].score > x.score {
      InsertSorted(x, s[1..]);
      var t := Insert(x, s[1..]);
      InsertBounded(x, s[1..], s[0].score);
      ConsSorted(s[0], t);
      assert Insert(x, s) == [s[0]] + t;
    }
  }

  /** Every element of `Insert(x, s)` comes from `s` or is `x`, so a common bound survives. */
  lemma InsertBounded<T>(x: Scored<T>, s: seq<Scored<T>>, m: int)
    requires x.score <= m && forall z :: z in s ==> z.score <= m
    ensures forall z :: z in Insert(x, s) ==> z.score <= m
  {
    forall z | z in Insert(x, s) ensures z.score <= m {
      assert z in multiset(Insert(x, s));
      assert z in multiset(s) || z == x;
    }
  }

  /** A head that bounds a descending tail makes a descending sequence. */
  lemma ConsSorted<T>(h: Scored<T>, t: seq<Scored<T>>)
    requires SortedDesc(t) && forall z :: z in t ==> z.score <= h.score
    ensures SortedDesc([h] + t)
  {
    var r := [h] + t;
    forall i, j | 0 <= i < j < |r| ensures r[i].score >= r[j].score {
      if i > 0 {
        assert r[i] == t[i - 1] && r[j] == t[j - 1];
      } else {
        assert r[j] == t[j - 1];
        assert r[j] in t;
      }
    }
  }

  /** Inserting puts `x` in front of the elements of its own score and leaves the others' order alone. */
  lemma {:induction false} InsertWithScore<T>(x: Scored<T>, s: seq<Scored<T>>, k: int)
    ensures WithScore(Insert(x, s), k) == (if x.score == k then [x] else []) + WithScore(s, k)
  {
    if s == [] {
      WithScoreCons(x, [], k);
    } else if s[0].score <= x.score {
      WithScoreCons(x, s, k);
    } else {
      InsertWithScore(x, s[1..], k);
      var t := Insert(x, s[1..]);
      assert Insert(x, s) == [s[0]] + t;
      WithScoreCons(s[0], t, k);
      assert s == [s[0]] + s[1..];
      WithScoreCons(s[0], s[1..], k);
    }
  }

  lemma InsertWithScoreAll<T>(x: Scored<T>, s: seq<Scored<T>>)
    ensures forall k :: WithScore(Insert(x, s), k) == (if x.score == k then [x] else []) + WithScore(s, k)
  {
    forall k { InsertWithScore(x, s, k); }
  }

  /**
   * The stable descending sort: sorted, a permutation, and for every score the
   * elements with that score keep their input order.
   */
  function SortByScore<T>(s: seq<Scored<T>>): (r: seq<Scored<T>>)
    ensures |r| == |s| && multiset(r) == multiset(s)
    ensures SortedDesc(r)
    ensures forall k :: WithScore(r, k) == WithScore(s, k)
  {
    if s == [] then []
    else
      var t := SortByScore(s[1..]);
      assert s == [s[0]] + s[1..];
      InsertSorted(s[0], t);
      InsertWithScoreAll(s[0], t);
      WithScoreConsAll(s[0], s[1..]);
      Insert(s[0], t)
  }

  lemma WithScoreConsAll<T>(y: Scored<T>, t: seq<Scored<T>>)
    ensures forall k :: WithScore([y] + t, k) == (if y.score == k then [y] else []) + WithScore(t, k)
  {
    forall k { WithScoreCons(y, t, k); }
  }

  /**
   * The stable descending order is unique: any sequence that is sorted by score
   * and keeps every score's elements in input order is the one `SortByScore` gives.
   */
  lemma {:induction false} StableOrderUnique<T>(a: seq<Scored<T>>, b: seq<Scored<T>>)
    requires SortedDesc(a) && SortedDesc(b)
    requires forall k :: WithScore(a, k) == WithScore(b, k)
    ensures a == b
  {
    if a == [] || b == [] {
      FirstScoreKept(a);
      FirstScoreKept(b);
    } else {
      var m := a[0].score;
      assert a == [a[0]] + a[1..] && b == [b[0]] + b[1..];
      WithScoreMembers(a, b[0].score, b[0]);
      WithScoreMembers(b, b[0].score, b[0]);
      WithScoreMembers(a, m, a[0]);
      WithScoreMembers(b, m, a[0]);
      assert b[0].score <= m;
      assert m <= b[0].score;
      WithScoreCons(a[0], a[1..], m);
      WithScoreCons(b[0], b[1..], m);
      assert WithScore(a, m) == WithScore(b, m);
      assert WithScore(a, m)[0] == a[0] && WithScore(b, m)[0] == b[0];
      forall k ensures WithScore(a[1..], k) == WithScore(b[1..], k) {
        WithScoreCons(a[0], a[1..], k);
        WithScoreCons(b[0], b[1..], k);
        var h: seq<Scored<T>> := if a[0].score == k then [a[0]] else [];
        assert WithScore(a, k) == WithScore(b, k);
        assert WithScore(a[1..], k) == WithScore(a, k)[|h|..];
        assert WithScore(b[1..], k) == WithScore(b, k)[|h|..];
      }
      StableOrderUnique(a[1..], b[1..]);
    }
  }

  /** A non-empty sequence keeps its first element under the filter for that element's score. */
  lemma FirstScoreKept<T>(s: seq<Scored<T>>)
    ensures s != [] ==> WithScore(s, s[0].score) != []
  {
    if s != [] {
      assert s == [s[0]] + s[1..];
      WithScoreCons(s[0], s[1..], s[0].score);
    }
  }

  lemma StripAppend<T>(a: seq<Scored<T>>, b: seq<Scored<T>>)
    ensures Strip(a + b) == Strip(a) + Strip(b)
  {
  }

  /** Stripping the scores of a permutation gives a permutation of the stripped elements. */
  lemma {:induction false} StripPermutation<T>(a: seq<Scored<T>>, b: seq<Scored<T>>)
    requires multiset(a) == multiset(b)
    ensures multiset(Strip(a)) == multiset(Strip(b))
    decreases |a|
  {
    if a == [] {
      assert b == [] by { assert |b| == |multiset(b)|; }
    } else {
      assert a[0] in multiset(b);
      var i :| 0 <= i < |b| && b[i] == a[0];
      MultisetRemove(a, b, i);
      StripPermutation(a[1..], b[..i] + b[i + 1..]);
      StripRemove(a, 0);
      StripRemove(b, i);
      assert a[..0] + a[1..] == a[1..];
    }
  }

  lemma MultisetMiddle<U>(p: seq<U>, x: U, q: seq<U>)
    ensures multiset(p + [x] + q) == multiset{x} + multiset(p + q)
  {
  }

  lemma MultisetCancel<U>(x: U, m: multiset<U>, n: multiset<U>)
    requires multiset{x} + m == multiset{x} + n
    ensures m == n
  {
    assert forall y :: m[y] == (multiset{x} + m)[y] - (if y == x then 1 else 0);
    assert forall y :: n[y] == (multiset{x} + n)[y] - (if y == x then 1 else 0);
  }

  /** Taking the same element out of two permutations of each other leaves permutations. */
  lemma MultisetRemove<U>(a: seq<U>, b: seq<U>, i: nat)
    requires multiset(a) == multiset(b) && a != [] && i < |b| && b[i] == a[0]
    ensures multiset(a[1..]) == multiset(b[..i] + b[i + 1..])
  {
    assert b == b[..i] + [b[i]] + b[i + 1..];
    MultisetMiddle(b[..i], b[i], b[i + 1..]);
    assert a == [a[0]] + a[1..];
    assert multiset(a) == multiset{a[0]} + multiset(a[1..]);
    MultisetCancel(a[0], multiset(a[1..]), multiset(b[..i] + b[i + 1..]));
  }

  lemma StripRemove<T>(b: seq<Scored<T>>, i: nat)
    requires i < |b|
    ensures multiset(Strip(b)) == multiset{b[i].post} + multiset(Strip(b[..i] + b[i + 1..]))
  {
    StripSplit(b, i);
    StripAppend(b[..i], b[i + 1..]);
    MultisetMiddle(Strip(b[..i]), b[i].post, Strip(b[i + 1..]));
  }

  lemma StripSplit<T>(b: seq<Scored<T>>, i: nat)
    requires i < |b|
    ensures Strip(b) == Strip(b[..i]) + [b[i].post] + Strip(b[i + 1..])
  {
  }
}
