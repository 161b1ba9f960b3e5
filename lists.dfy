/**
 * The list expressions the React handlers compute their new state with:
 * `xs.filter(y => y !== x)`, the includes-then-filter-or-append toggle,
 * and `xs.filter((_, i) => i !== index)`.
 */
module Lists {

  /** No value occurs twice. */
  predicate NoDuplicates<T(==)>(s: seq<T>) {
    forall i, j :: 0 <= i < j < |s| ==> s[i] != s[j]
  }

  /** `s.filter(y => y !== x)`: every occurrence of `x` dropped, the rest untouched. */
  function RemoveAll<T(==, !new)>(s: seq<T>, x: T): (r: seq<T>)
    ensures |r| <= |s|
  {
    if s == [] then [] else (if s[0] == x then [] else [s[0]]) + RemoveAll(s[1..], x)
  }

  /** Every occurrence of `x` goes, and every other value keeps its number of occurrences. */
  lemma {:induction false} RemoveAllSpec<T(!new)>(s: seq<T>, x: T)
    ensures x !in RemoveAll(s, x)
    ensures forall y :: y != x ==> multiset(RemoveAll(s, x))[y] == multiset(s)[y]
    ensures |RemoveAll(s, x)| == |s| - multiset(s)[x]
  {
    if s != [] {
      RemoveAllSpec(s[1..], x);
      assert s == [s[0]] + s[1..];
    }
  }

  /** Filtering distributes over concatenation, so the kept values stay in their order. */
  lemma {:induction false} RemoveAllAppend<T(!new)>(a: seq<T>, b: seq<T>, x: T)
    ensures RemoveAll(a + b, x) == RemoveAll(a, x) + RemoveAll(b, x)
  {
    if a != [] {
      assert (a + b)[0] == a[0] && (a + b)[1..] == a[1..] + b;
      RemoveAllAppend(a[1..], b, x);
    } else {
      assert a + b == b;
    }
  }

  /** Removing an absent value changes nothing. */
  lemma {:induction false} RemoveAllAbsent<T(!new)>(s: seq<T>, x: T)
    requires x !in s
    ensures RemoveAll(s, x) == s
  {
    if s != [] {
      RemoveAllAbsent(s[1..], x);
    }
  }

  /** Filtering keeps a duplicate-free list duplicate-free. */
  lemma {:induction false} RemoveAllNoDuplicates<T(!new)>(s: seq<T>, x: T)
    requires NoDuplicates(s)
    ensures NoDuplicates(RemoveAll(s, x))
  {
    if s != [] {
      RemoveAllNoDuplicates(s[1..], x);
      RemoveAllSpec(s[1..], x);
      var t := RemoveAll(s[1..], x);
      assert s[0] !in s[1..];
      assert multiset(s[1..])[s[0]] == 0;
      if s[0] != x {
        assert multiset(t)[s[0]] == 0;
        assert RemoveAll(s, x) == [s[0]] + t;
      }
    }
  }

  /**
   * `s.includes(x) ? s.filter(y => y !== x) : [...s, x]`: takes `x` out when it is
   * present and appends it when it is not.
   */
  function Toggle<T(==, !new)>(s: seq<T>, x: T): (r: seq<T>)
    ensures x in s ==> x !in r && forall y :: y != x ==> multiset(r)[y] == multiset(s)[y]
    ensures x !in s ==> r == s + [x]
  {
    if x in s then RemoveAllSpec(s, x); RemoveAll(s, x) else s + [x]
  }

  /** Toggling a value in and out again restores the list. */
  lemma ToggleTwiceAbsent<T(!new)>(s: seq<T>, x: T)
    requires x !in s
    ensures Toggle(Toggle(s, x), x) == s
  {
    RemoveAllAppend(s, [x], x);
    RemoveAllAbsent(s, x);
  }

  /** A toggle never creates a duplicate. */
  lemma ToggleNoDuplicates<T(!new)>(s: seq<T>, x: T)
    requires NoDuplicates(s)
    ensures NoDuplicates(Toggle(s, x))
  {
    if x in s {
      RemoveAllNoDuplicates(s, x);
    }
  }

  /** The toggled value is present afterwards exactly when it was absent before. */
  lemma ToggleFlipsMembership<T(!new)>(s: seq<T>, x: T, y: T)
    ensures x in Toggle(s, x) <==> x !in s
    ensures y != x ==> (y in Toggle(s, x) <==> y in s)
  {
    if x in s && y != x {
      assert multiset(Toggle(s, x))[y] == multiset(s)[y];
    }
  }

  /** Toggling `x` leaves every other value where it was: with `x` filtered out, nothing changed. */
  lemma ToggleKeepsOthers<T(!new)>(s: seq<T>, x: T)
    ensures RemoveAll(Toggle(s, x), x) == RemoveAll(s, x)
  {
    if x in s {
      RemoveAllSpec(s, x);
      RemoveAllAbsent(RemoveAll(s, x), x);
    } else {
      RemoveAllAppend(s, [x], x);
      assert RemoveAll([x], x) == [] + RemoveAll([x][1..], x);
    }
  }

  /** `s.filter((_, i) => i !== index)`: drops the element at `index`, if there is one. */
  function RemoveIndex<T>(s: seq<T>, index: int): (r: seq<T>)
    ensures 0 <= index < |s| ==> r == s[..index] + s[index + 1..]
    ensures !(0 <= index < |s|) ==> r == s
  {
    if s == [] then []
    else (if index == 0 then [] else [s[0]]) + RemoveIndex(s[1..], index - 1)
  }

  /** Position of the first occurrence of `x` in `s`. */
  function FirstIndex<T(==)>(s: seq<T>, x: T): (k: nat)
    requires x in s
    ensures k < |s| && s[k] == x
    ensures forall i :: 0 <= i < k ==> s[i] != x
  {
    if s[0] == x then 0 else 1 + FirstIndex(s[1..], x)
  }

  /** `Array.from(new Set(s))`: each value once, at the place it first occurs. */
  function Dedup<T(==)>(s: seq<T>): (r: seq<T>)
    ensures |r| <= |s|
  {
    if s == [] then []
    else
      var p := s[..|s| - 1];
      Dedup(p) + (if s[|s| - 1] in p then [] else [s[|s| - 1]])
  }

  /**
   * The deduplicated list has no repeats, holds exactly the values of `s`, and
   * lists them in the order of their first occurrences in `s`.
   */
  lemma {:induction false} DedupSpec<T>(s: seq<T>)
    ensures NoDuplicates(Dedup(s))
    ensures forall x :: x in Dedup(s) <==> x in s
    ensures forall i, j :: 0 <= i < j < |Dedup(s)| ==> FirstIndex(s, Dedup(s)[i]) < FirstIndex(s, Dedup(s)[j])
  {
    if s != [] {
      var p := s[..|s| - 1];
      var y := s[|s| - 1];
      DedupSpec(p);
      assert s == p + [y];
      forall x | x in p ensures FirstIndex(s, x) == FirstIndex(p, x) {
        FirstIndexPrefix(p, [y], x);
      }
      var d := Dedup(p);
      if y !in p {
        var r := d + [y];
        assert FirstIndex(s, y) == |p|;
        forall i, j | 0 <= i < j < |r| ensures FirstIndex(s, r[i]) < FirstIndex(s, r[j]) {
          assert r[i] == d[i] && d[i] in d;
          if j < |d| {
            assert r[j] == d[j];
          }
        }
      }
    }
  }

  /** A first occurrence inside a prefix is the first occurrence in the whole list. */
  lemma {:induction false} FirstIndexPrefix<T>(p: seq<T>, q: seq<T>, x: T)
    requires x in p
    ensures FirstIndex(p + q, x) == FirstIndex(p, x)
  {
    if p[0] != x {
      assert (p + q)[1..] == p[1..] + q;
      FirstIndexPrefix(p[1..], q, x);
    }
  }
}
