/**
  The order-preserving de-duplication of asset-group ids used when a
  purge request is built. The list is filtered against itself: an element
  is kept exactly when its position is the first position at which its
  value occurs in the whole list.
 */
module IdLists {

  /** True iff no value occurs twice in `s`. */
  predicate NoDuplicates(s: seq<int>)
  {
    forall i, j :: 0 <= i < j < |s| ==> s[i] != s[j]
  }

  /** JavaScript's `Array.prototype.indexOf` on numbers: the first index
      holding `v`, or -1 when `v` does not occur. */
  function IndexOf(s: seq<int>, v: int): (i: int)
    ensures -1 <= i < |s|
    ensures i == -1 <==> v !in s
    ensures 0 <= i ==> s[i] == v
    ensures forall k :: 0 <= k < |s| && s[k] == v ==> 0 <= i <= k
  {
    if |s| == 0 then -1
    else if s[0] == v then 0
    else
      var j := IndexOf(s[1..], v);
      assert forall k :: 1 <= k < |s| ==> s[k] == s[1..][k - 1];
      if j == -1 then -1 else j + 1
  }

  /** The elements of `r` appear in the order of their first occurrence in `s`. */
  predicate FirstOccurrenceOrder(s: seq<int>, r: seq<int>)
  {
    forall i, j :: 0 <= i < j < |r| ==> IndexOf(s, r[i]) < IndexOf(s, r[j])
  }

  /** The filter applied to the first `n` elements of `arr`, visited from
      left to right as `Array.prototype.filter` does: `arr[k]` is kept iff the
      first index of its value in the whole of `arr` is `k`. */
  function KeepFirst(arr: seq<int>, n: nat): seq<int>
    requires n <= |arr|
  {
    if n == 0 then []
    else KeepFirst(arr, n - 1) + (if IndexOf(arr, arr[n - 1]) == n - 1 then [arr[n - 1]] else [])
  }

  /** `dedupe` from the request builder. */
  function Dedupe(arr: seq<int>): seq<int>
  {
    KeepFirst(arr, |arr|)
  }

  /** What the filter keeps of the first `n` elements: each value of the
      prefix exactly once, in the order of first occurrence. */
  lemma KeepFirstSpec(arr: seq<int>, n: nat)
    requires n <= |arr|
    ensures var r := KeepFirst(arr, n);
      && |r| <= n
      && (forall x :: x in r <==> x in arr[..n])
      && NoDuplicates(r)
      && FirstOccurrenceOrder(arr, r)
  {
    KeepFirstLength(arr, n);
    KeepFirstElements(arr, n);
    KeepFirstOrdered(arr, n);
    OrderedHasNoDuplicates(arr, KeepFirst(arr, n));
  }

  lemma {:induction false} KeepFirstLength(arr: seq<int>, n: nat)
    requires n <= |arr|
    ensures |KeepFirst(arr, n)| <= n
  {
    if n > 0 {
      KeepFirstLength(arr, n - 1);
    }
  }

  lemma {:induction false} KeepFirstElements(arr: seq<int>, n: nat)
    requires n <= |arr|
    ensures forall x :: x in KeepFirst(arr, n) <==> x in arr[..n]
  {
    if n > 0 {
      KeepFirstElements(arr, n - 1);
      var v := arr[n - 1];
      assert arr[..n] == arr[..n - 1] + [v];
      if IndexOf(arr, v) != n - 1 {
        assert v in arr[..n - 1] by {
          assert arr[IndexOf(arr, v)] == v;
        }
      }
    }
  }

  /** Every value in a prefix of `arr` first occurs inside that prefix. */
  lemma FirstIndexInPrefix(arr: seq<int>, n: nat, x: int)
    requires n <= |arr| && x in arr[..n]
    ensures 0 <= IndexOf(arr, x) < n
  {
    var k :| 0 <= k < n && arr[..n][k] == x;
    assert arr[k] == x;
  }

  lemma {:induction false} KeepFirstOrdered(arr: seq<int>, n: nat)
    requires n <= |arr|
    ensures FirstOccurrenceOrder(arr, KeepFirst(arr, n))
  {
    if n > 0 {
      KeepFirstOrdered(arr, n - 1);
      var prefix, v := KeepFirst(arr, n - 1), arr[n - 1];
      if IndexOf(arr, v) == n - 1 {
        KeepFirstElements(arr, n - 1);
        var r := prefix + [v];
        forall i | 0 <= i < |prefix|
          ensures IndexOf(arr, r[i]) < IndexOf(arr, v)
        {
          assert r[i] == prefix[i] && prefix[i] in prefix;
          FirstIndexInPrefix(arr, n - 1, prefix[i]);
        }
        assert FirstOccurrenceOrder(arr, r) by {
          forall i, j | 0 <= i < j < |r|
            ensures IndexOf(arr, r[i]) < IndexOf(arr, r[j])
          {
            if j < |prefix| {
              assert r[i] == prefix[i] && r[j] == prefix[j];
            }
          }
        }
      }
    }
  }

  /** A sequence strictly ordered by first index in `s` has no duplicates. */
  lemma OrderedHasNoDuplicates(s: seq<int>, r: seq<int>)
    requires FirstOccurrenceOrder(s, r)
    ensures NoDuplicates(r)
  {
  }

  /** `dedupe` keeps every value of its input exactly once, in the order of
      first occurrence, and never lengthens the list. */
  lemma DedupeSpec(arr: seq<int>)
    ensures var r := Dedupe(arr);
      && |r| <= |arr|
      && (forall x :: x in r <==> x in arr)
      && NoDuplicates(r)
      && FirstOccurrenceOrder(arr, r)
  {
    KeepFirstSpec(arr, |arr|);
    assert arr[..|arr|] == arr;
  }

  /** The three properties above pin the result down: any duplicate-free
      sequence with the same elements as `s`, listed in order of first
      occurrence in `s`, is `Dedupe(s)`. */
  lemma {:induction false} DedupeUnique(s: seq<int>, t: seq<int>)
    requires NoDuplicates(t)
    requires forall x :: x in t <==> x in s
    requires FirstOccurrenceOrder(s, t)
    ensures t == Dedupe(s)
  {
    var r := Dedupe(s);
    DedupeSpec(s);
    SameOrderedElementsEqual(s, r, t);
  }

  /** Two sequences drawn from `s`, both strictly ordered by first index in
      `s` and holding the same elements, are equal. */
  lemma {:induction false} SameOrderedElementsEqual(s: seq<int>, r: seq<int>, t: seq<int>)
    requires forall x :: x in r ==> x in s
    requires forall x :: x in r <==> x in t
    requires FirstOccurrenceOrder(s, r) && FirstOccurrenceOrder(s, t)
    ensures r == t
    decreases |r|
  {
    if r == [] {
      assert forall x :: x !in t;
      NonEmptyHasHead(t);
    } else {
      assert r[0] in r;
      assert t != [];
      assert t[0] in t;
      OrderedTail(s, r);
      OrderedTail(s, t);
      assert r[0] == t[0] by {
        assert s[IndexOf(s, r[0])] == r[0];
        assert s[IndexOf(s, t[0])] == t[0];
      }
      assert r == [r[0]] + r[1..] && t == [t[0]] + t[1..];
      SameOrderedElementsEqual(s, r[1..], t[1..]);
    }
  }

  lemma NonEmptyHasHead(t: seq<int>)
    ensures t != [] ==> t[0] in t
  {
  }

  /** Dropping the head of an ordered sequence leaves an ordered sequence
      whose elements all come after the head. */
  lemma OrderedTail(s: seq<int>, r: seq<int>)
    requires FirstOccurrenceOrder(s, r)
    requires r != []
    ensures FirstOccurrenceOrder(s, r[1..])
    ensures forall x :: x in r <==> x == r[0] || x in r[1..]
    ensures forall x :: x in r[1..] ==> IndexOf(s, r[0]) < IndexOf(s, x)
  {
    assert r == [r[0]] + r[1..];
    forall x | x in r[1..] ensures IndexOf(s, r[0]) < IndexOf(s, x) {
      var i :| 0 <= i < |r[1..]| && r[1..][i] == x;
      assert r[i + 1] == x;
    }
  }

  /** A list without duplicates passes through `dedupe` unchanged. */
  lemma {:induction false} DedupeOfDistinct(s: seq<int>)
    requires NoDuplicates(s)
    ensures Dedupe(s) == s
  {
    KeepFirstOfDistinct(s, |s|);
    assert s[..|s|] == s;
  }

  lemma {:induction false} KeepFirstOfDistinct(s: seq<int>, n: nat)
    requires NoDuplicates(s)
    requires n <= |s|
    ensures KeepFirst(s, n) == s[..n]
  {
    if n > 0 {
      KeepFirstOfDistinct(s, n - 1);
      var i := IndexOf(s, s[n - 1]);
      assert i == n - 1 by {
        assert 0 <= i <= n - 1 && s[i] == s[n - 1];
      }
      assert s[..n] == s[..n - 1] + [s[n - 1]];
    }
  }

  /** De-duplicating twice is the same as de-duplicating once. */
  lemma DedupeIdempotent(s: seq<int>)
    ensures Dedupe(Dedupe(s)) == Dedupe(s)
  {
    DedupeSpec(s);
    DedupeOfDistinct(Dedupe(s));
  }
}
