/**
 * Sequence operations shared by the SQL queries and the route handlers:
 * a WHERE clause (`Filter`), an `ORDER BY key DESC` (`SortDesc`), and the
 * "first row per key wins" dedup that the source writes as a loop filling
 * a JavaScript `Map` (`DedupFirst`, specified by `FirstByKey`).
 */
module SeqUtils {
  import opened Wrappers

  /** Rows of `s` satisfying `p`, in their original order. */
  function Filter<T>(s: seq<T>, p: T -> bool): (r: seq<T>)
    ensures |r| <= |s|
    ensures forall i :: 0 <= i < |r| ==> r[i] in s && p(r[i])
    ensures forall i :: 0 <= i < |s| && p(s[i]) ==> s[i] in r
    ensures multiset(r) <= multiset(s)
  {
    if s == [] then []
    else
      assert s == [s[0]] + s[1..];
      (if p(s[0]) then [s[0]] else []) + Filter(s[1..], p)
  }

  lemma {:induction false} FilterAppend<T>(s: seq<T>, x: T, p: T -> bool)
    ensures Filter(s + [x], p) == Filter(s, p) + (if p(x) then [x] else [])
  {
    if s == [] {
      assert s + [x] == [x];
    } else {
      var t := s + [x];
      assert t[0] == s[0];
      assert t[1..] == s[1..] + [x];
      FilterAppend(s[1..], x, p);
      assert Filter(t, p) == (if p(s[0]) then [s[0]] else []) + Filter(t[1..], p);
    }
  }

  /** An element is in the filtered rows exactly when it is in the rows and satisfies `p`. */
  lemma FilterMembers<T>(s: seq<T>, p: T -> bool)
    ensures forall x :: x in Filter(s, p) <==> x in s && p(x)
  {
    var r := Filter(s, p);
    forall x | x in r ensures x in s && p(x) {
      var i :| 0 <= i < |r| && r[i] == x;
    }
    forall x | x in s && p(x) ensures x in r {
      var i :| 0 <= i < |s| && s[i] == x;
    }
  }

  /** Two sequences holding the same multiset have the same members. */
  lemma SameMembers<T>(a: seq<T>, b: seq<T>)
    requires multiset(a) == multiset(b)
    ensures forall x :: x in a <==> x in b
  {
    forall x ensures x in a <==> x in b {
      assert x in a <==> x in multiset(a);
      assert x in b <==> x in multiset(b);
    }
  }

  /** Filtering with a predicate that holds everywhere keeps every row. */
  lemma {:induction false} FilterAll<T>(s: seq<T>, p: T -> bool)
    requires forall x :: x in s ==> p(x)
    ensures Filter(s, p) == s
  {
    if s != [] {
      FilterAll(s[1..], p);
    }
  }

  /** Index of the first element satisfying `p`: what a `LIMIT 1` lookup or a linear search returns. */
  function FirstIndex<T>(s: seq<T>, p: T -> bool): (r: Option<nat>)
    ensures r.Some? ==> r.value < |s| && p(s[r.value]) && forall j :: 0 <= j < r.value ==> !p(s[j])
    ensures r.None? <==> forall j :: 0 <= j < |s| ==> !p(s[j])
  {
    if s == [] then None
    else if p(s[0]) then Some(0)
    else
      match FirstIndex(s[1..], p)
      case None => None
      case Some(i) => Some(i + 1)
  }

  /** The present values of `xs` in order: a `.map(...)` to nullable values followed by `.filter(x => x !== null)`. */
  function KeepSome<T>(xs: seq<Option<T>>): (r: seq<T>)
    ensures |r| <= |xs|
    ensures forall i :: 0 <= i < |r| ==> Some(r[i]) in xs
    ensures forall i :: 0 <= i < |xs| && xs[i].Some? ==> xs[i].value in r
    ensures (forall i :: 0 <= i < |xs| ==> xs[i].Some?) ==> |r| == |xs|
    decreases |xs|
  {
    if xs == [] then []
    else
      assert xs == [xs[0]] + xs[1..];
      (if xs[0].Some? then [xs[0].value] else []) + KeepSome(xs[1..])
  }

  /** Unwrapping distributes over appending one more element. */
  lemma {:induction false} KeepSomeAppend<T>(xs: seq<Option<T>>, x: Option<T>)
    ensures KeepSome(xs + [x]) == KeepSome(xs) + (if x.Some? then [x.value] else [])
    decreases |xs|
  {
    var t := xs + [x];
    if xs == [] {
      assert t[1..] == [];
    } else {
      assert t[0] == xs[0];
      assert t[1..] == xs[1..] + [x];
      KeepSomeAppend(xs[1..], x);
    }
  }

  /**
   * A loop that applies `f` to each element in order, appends the present
   * results, skips the absent ones, and is aborted by the first error.
   */
  function CollectPresent<T, U, E>(xs: seq<T>, f: T -> Result<Option<U>, E>): (r: Result<seq<U>, E>)
    decreases |xs|
  {
    if xs == [] then Ok([])
    else
      var n := |xs| - 1;
      var prev := CollectPresent(xs[..n], f);
      if prev.Err? then prev
      else
        match f(xs[n])
        case Err(e) => Err(e)
        case Ok(None) => prev
        case Ok(Some(u)) => Ok(prev.value + [u])
  }

  /** The results of `f` on each element, when none is an error. */
  function Outcomes<T, U, E>(xs: seq<T>, f: T -> Result<Option<U>, E>): (r: seq<Option<U>>)
    requires forall k :: 0 <= k < |xs| ==> f(xs[k]).Ok?
    ensures |r| == |xs|
    ensures forall k :: 0 <= k < |xs| ==> r[k] == f(xs[k]).value
  {
    seq(|xs|, k requires 0 <= k < |xs| => f(xs[k]).value)
  }

  /** The loop fails iff some element fails, and then with the error of the first one. */
  lemma {:induction false} CollectPresentFailsFirst<T, U, E>(xs: seq<T>, f: T -> Result<Option<U>, E>)
    ensures CollectPresent(xs, f).Ok? <==> forall k :: 0 <= k < |xs| ==> f(xs[k]).Ok?
    ensures CollectPresent(xs, f).Err? ==>
      exists k :: (0 <= k < |xs| && f(xs[k]) == Err(CollectPresent(xs, f).error) &&
                   forall k' :: 0 <= k' < k ==> f(xs[k']).Ok?)
    decreases |xs|
  {
    if xs != [] {
      var n := |xs| - 1;
      var init := xs[..n];
      assert forall k :: 0 <= k < n ==> init[k] == xs[k];
      CollectPresentFailsFirst(init, f);
    }
  }

  /** When no element fails, the loop yields the present results in element order. */
  lemma {:induction false} CollectPresentKeepsSome<T, U, E>(xs: seq<T>, f: T -> Result<Option<U>, E>)
    requires forall k :: 0 <= k < |xs| ==> f(xs[k]).Ok?
    ensures CollectPresent(xs, f) == Ok(KeepSome(Outcomes(xs, f)))
    decreases |xs|
  {
    if xs != [] {
      var n := |xs| - 1;
      var init := xs[..n];
      assert forall k :: 0 <= k < n ==> init[k] == xs[k];
      CollectPresentKeepsSome(init, f);
      var all, prev := Outcomes(xs, f), Outcomes(init, f);
      assert all == prev + [f(xs[n]).value];
      KeepSomeAppend(prev, f(xs[n]).value);
      var before := KeepSome(prev);
      assert CollectPresent(init, f) == Ok(before);
      match f(xs[n]) {
        case Ok(None) =>
          assert CollectPresent(xs, f) == Ok(before);
          assert KeepSome(all) == before + [] == before;
        case Ok(Some(u)) =>
          assert CollectPresent(xs, f) == Ok(before + [u]);
      }
    }
  }

  /** The first `n` rows, or all of them when there are fewer: SQL `LIMIT n`. */
  function Take<T>(s: seq<T>, n: nat): (r: seq<T>)
    ensures |r| == if |s| <= n then |s| else n
    ensures r <= s
  {
    if |s| <= n then s else s[..n]
  }

  /** Nonincreasing in `key`: the order of `ORDER BY key DESC`. */
  ghost predicate SortedDesc<T>(s: seq<T>, key: T -> int) {
    forall i, j :: 0 <= i < j < |s| ==> key(s[i]) >= key(s[j])
  }

  /**
   * `LIMIT n` after `ORDER BY key DESC`: the kept rows are some of the
   * input's, and no row left out has a larger key than any kept row.
   */
  lemma TakeSortedKeepsTop<T>(s: seq<T>, n: nat, key: T -> int)
    requires SortedDesc(s, key)
    ensures multiset(Take(s, n)) <= multiset(s)
    ensures forall x, k :: x in multiset(s) - multiset(Take(s, n)) && 0 <= k < |Take(s, n)| ==>
      key(x) <= key(Take(s, n)[k])
  {
    var r := Take(s, n);
    if |s| > n {
      assert s == s[..n] + s[n..];
      assert multiset(s) == multiset(s[..n]) + multiset(s[n..]);
      assert multiset(s) - multiset(r) == multiset(s[n..]);
      forall x, k | x in multiset(s) - multiset(r) && 0 <= k < |r| ensures key(x) <= key(r[k]) {
        assert x in s[n..];
        var j :| 0 <= j < |s[n..]| && s[n..][j] == x;
        assert s[n + j] == x && r[k] == s[k];
      }
    } else {
      assert multiset(s) - multiset(r) == multiset{};
    }
  }

  /** Nondecreasing in `key`: the order of `ORDER BY key`. */
  ghost predicate SortedAsc<T>(s: seq<T>, key: T -> int) {
    forall i, j :: 0 <= i < j < |s| ==> key(s[i]) <= key(s[j])
  }

  function InsertDesc<T>(x: T, s: seq<T>, key: T -> int): (r: seq<T>)
    requires SortedDesc(s, key)
    ensures |r| == |s| + 1
    ensures r[0] == x || (|s| > 0 && r[0] == s[0])
    ensures SortedDesc(r, key)
    ensures multiset(r) == multiset(s) + multiset{x}
  {
    if s == [] || key(x) >= key(s[0]) then
      ConsSorted(x, s, key);
      [x] + s
    else
      var rest := InsertDesc(x, s[1..], key);
      ConsSorted(s[0], rest, key);
      assert s == [s[0]] + s[1..];
      [s[0]] + rest
  }

  /** A row no smaller than the head of a sorted sequence can go in front of it. */
  lemma ConsSorted<T>(y: T, s: seq<T>, key: T -> int)
    requires SortedDesc(s, key) && (s == [] || key(y) >= key(s[0]))
    ensures SortedDesc([y] + s, key)
  {
    var r := [y] + s;
    forall i, j | 0 <= i < j < |r| ensures key(r[i]) >= key(r[j]) {
      assert r[j] == s[j - 1];
      if i == 0 {
        assert key(s[0]) >= key(s[j - 1]) || j == 1;
      } else {
        assert r[i] == s[i - 1];
      }
    }
  }

  /** `ORDER BY key DESC`: a permutation of the rows, newest (largest key) first. */
  function SortDesc<T>(s: seq<T>, key: T -> int): (r: seq<T>)
    ensures SortedDesc(r, key)
    ensures multiset(r) == multiset(s)
    ensures |r| == |s|
  {
    if s == [] then []
    else
      assert s == [s[0]] + s[1..];
      InsertDesc(s[0], SortDesc(s[1..], key), key)
  }

  /** Some row of `s` has key `k`. */
  predicate HasKey<T, K(==)>(s: seq<T>, key: T -> K, k: K) {
    exists j :: 0 <= j < |s| && key(s[j]) == k
  }

  /**
   * First row per key, in order of first occurrence: what iterating `s`
   * into a `Map` with `if (!m.has(k)) m.set(k, row)` and reading back
   * `m.values()` yields.
   */
  function FirstByKey<T, K(==)>(s: seq<T>, key: T -> K): (r: seq<T>)
    decreases |s|
  {
    if s == [] then []
    else
      var prev := FirstByKey(s[..|s| - 1], key);
      var last := s[|s| - 1];
      if HasKey(prev, key, key(last)) then prev else prev + [last]
  }

  lemma {:induction false} FirstByKeyStep<T, K>(s: seq<T>, x: T, key: T -> K)
    ensures FirstByKey(s + [x], key) ==
            if HasKey(FirstByKey(s, key), key, key(x)) then FirstByKey(s, key)
            else FirstByKey(s, key) + [x]
  {
    assert (s + [x])[..|s + [x]| - 1] == s;
  }

  /**
   * The dedup keeps distinct keys, keeps only input rows, and keeps a row
   * for every key that occurs in the input.
   */
  lemma {:induction false} FirstByKeyProperties<T, K>(s: seq<T>, key: T -> K)
    ensures var r := FirstByKey(s, key);
      && |r| <= |s|
      && (forall i, j :: 0 <= i < j < |r| ==> key(r[i]) != key(r[j]))
      && (forall j :: 0 <= j < |r| ==> r[j] in s)
      && (forall i :: 0 <= i < |s| ==> HasKey(r, key, key(s[i])))
    decreases |s|
  {
    if s != [] {
      var init := s[..|s| - 1];
      var last := s[|s| - 1];
      assert s == init + [last];
      FirstByKeyProperties(init, key);
      var prev := FirstByKey(init, key);
      var r := FirstByKey(s, key);
      if HasKey(prev, key, key(last)) {
        assert r == prev;
      } else {
        assert r == prev + [last];
        forall i, j | 0 <= i < j < |r| ensures key(r[i]) != key(r[j]) {
          if j == |r| - 1 {
            assert r[i] == prev[i];
          } else {
            assert r[i] == prev[i] && r[j] == prev[j];
          }
        }
        forall i | 0 <= i < |s| ensures HasKey(r, key, key(s[i])) {
          var x := s[i];
          if x == last {
            assert r[|r| - 1] == last;
          } else {
            assert x in init;
            var j :| 0 <= j < |prev| && key(prev[j]) == key(x);
            assert r[j] == prev[j];
          }
        }
      }
    }
  }

  /** Index of the first row of `s` with key `k`. */
  function FirstPos<T, K(==)>(s: seq<T>, key: T -> K, k: K): (i: nat)
    requires HasKey(s, key, k)
    ensures i < |s| && key(s[i]) == k
    ensures forall i' :: 0 <= i' < i ==> key(s[i']) != k
  {
    if key(s[0]) == k then 0
    else
      var j :| 0 <= j < |s| && key(s[j]) == k;
      assert key(s[1..][j - 1]) == k;
      1 + FirstPos(s[1..], key, k)
  }

  /** An index holding `k` with no earlier `k` is the first position of `k`. */
  lemma FirstPosAt<T, K>(s: seq<T>, key: T -> K, k: K, i: nat)
    requires i < |s| && key(s[i]) == k
    requires forall i' :: 0 <= i' < i ==> key(s[i']) != k
    ensures HasKey(s, key, k) && FirstPos(s, key, k) == i
  {
    var p := FirstPos(s, key, k);
  }

  /**
   * The row kept for each key is the FIRST input row with that key, and
   * the kept rows follow the order in which their keys first occur.
   */
  lemma {:induction false} FirstByKeyKeepsFirst<T, K>(s: seq<T>, key: T -> K)
    ensures var r := FirstByKey(s, key);
      && (forall j :: 0 <= j < |r| ==>
            HasKey(s, key, key(r[j])) && r[j] == s[FirstPos(s, key, key(r[j]))])
      && (forall j1, j2 :: 0 <= j1 < j2 < |r| ==>
            HasKey(s, key, key(r[j1])) && HasKey(s, key, key(r[j2])) &&
            FirstPos(s, key, key(r[j1])) < FirstPos(s, key, key(r[j2])))
    decreases |s|
  {
    if s != [] {
      var init := s[..|s| - 1];
      var last := s[|s| - 1];
      assert s == init + [last];
      FirstByKeyKeepsFirst(init, key);
      FirstByKeyProperties(init, key);
      var prev := FirstByKey(init, key);
      var r := FirstByKey(s, key);
      // Keys already kept have the same first position in `s` as in `init`.
      forall j | 0 <= j < |prev|
        ensures HasKey(s, key, key(prev[j]))
        ensures FirstPos(s, key, key(prev[j])) == FirstPos(init, key, key(prev[j]))
        ensures prev[j] == s[FirstPos(s, key, key(prev[j]))]
      {
        var p := FirstPos(init, key, key(prev[j]));
        assert s[p] == init[p];
        forall i' | 0 <= i' < p ensures key(s[i']) != key(prev[j]) {
          assert s[i'] == init[i'];
        }
        FirstPosAt(s, key, key(prev[j]), p);
      }
      if !HasKey(prev, key, key(last)) {
        assert r == prev + [last];
        forall i' | 0 <= i' < |s| - 1 ensures key(s[i']) != key(last) {
          assert s[i'] == init[i'];
          assert HasKey(prev, key, key(init[i']));
        }
        FirstPosAt(s, key, key(last), |s| - 1);
        forall j | 0 <= j < |r|
          ensures HasKey(s, key, key(r[j])) && r[j] == s[FirstPos(s, key, key(r[j]))]
        {
          if j < |prev| { assert r[j] == prev[j]; }
        }
        forall j1, j2 | 0 <= j1 < j2 < |r|
          ensures HasKey(s, key, key(r[j1])) && HasKey(s, key, key(r[j2]))
          ensures FirstPos(s, key, key(r[j1])) < FirstPos(s, key, key(r[j2]))
        {
          assert r[j1] == prev[j1];
          if j2 < |prev| { assert r[j2] == prev[j2]; }
        }
      } else {
        assert r == prev;
      }
    }
  }

  /**
   * When the input is ordered by `rank` descending, the row kept for each
   * key has the largest rank among the input rows with that key: on a
   * newest-first input, first-seen wins means newest wins.
   */
  lemma {:induction false} FirstByKeyKeepsTop<T, K>(s: seq<T>, key: T -> K, rank: T -> int)
    requires SortedDesc(s, rank)
    ensures var r := FirstByKey(s, key);
      forall j, i :: 0 <= j < |r| && 0 <= i < |s| && key(s[i]) == key(r[j]) ==> rank(r[j]) >= rank(s[i])
    decreases |s|
  {
    if s != [] {
      var init := s[..|s| - 1];
      var last := s[|s| - 1];
      assert s == init + [last];
      assert SortedDesc(init, rank);
      FirstByKeyKeepsTop(init, key, rank);
      FirstByKeyProperties(init, key);
      var prev := FirstByKey(init, key);
      var r := FirstByKey(s, key);
      forall j, i | 0 <= j < |r| && 0 <= i < |s| && key(s[i]) == key(r[j])
        ensures rank(r[j]) >= rank(s[i])
      {
        var y, x := r[j], s[i];
        if y in prev {
          assert y in init;
          if x == last {
            var i :| 0 <= i < |init| && init[i] == y;
            assert s[i] == y && s[|s| - 1] == last;
          }
        } else {
          assert !HasKey(prev, key, key(last)) && y == last;
          if x != last {
            assert false;
          }
        }
      }
    }
  }

  /** Every key of a rank-descending input keeps a row ranked at least as high as any input row with that key. */
  lemma FirstByKeyNewest<T, K>(s: seq<T>, key: T -> K, rank: T -> int)
    requires SortedDesc(s, rank)
    ensures var r := FirstByKey(s, key);
      forall x :: x in s ==> exists i :: 0 <= i < |r| && key(r[i]) == key(x) && rank(r[i]) >= rank(x)
  {
    var r := FirstByKey(s, key);
    FirstByKeyProperties(s, key);
    FirstByKeyKeepsTop(s, key, rank);
    forall x | x in s ensures exists i :: 0 <= i < |r| && key(r[i]) == key(x) && rank(r[i]) >= rank(x) {
      var k :| 0 <= k < |s| && s[k] == x;
      assert HasKey(r, key, key(s[k]));
      var i :| 0 <= i < |r| && key(r[i]) == key(s[k]);
      assert rank(r[i]) >= rank(s[k]);
    }
  }

  /**
   * The loop of the source: iterate once, remember the keys already seen,
   * and keep a row only when its key is new.
   */
  method DedupFirst<T, K(==)>(s: seq<T>, key: T -> K) returns (r: seq<T>)
    ensures r == FirstByKey(s, key)
  {
    var seen: set<K> := {};
    r := [];
    var i := 0;
    while i < |s|
      invariant 0 <= i <= |s|
      invariant r == FirstByKey(s[..i], key)
      invariant forall k :: k in seen <==> HasKey(r, key, k)
    {
      FirstByKeyStep(s[..i], s[i], key);
      assert s[..i + 1] == s[..i] + [s[i]];
      var k := key(s[i]);
      ghost var before := r;
      assert (k in seen) == HasKey(before, key, k);
      if k !in seen {
        seen := seen + {k};
        r := r + [s[i]];
        assert forall k' :: HasKey(r, key, k') <==> HasKey(before, key, k') || k' == k by {
          forall k' | HasKey(r, key, k') ensures HasKey(before, key, k') || k' == k {
            var j :| 0 <= j < |r| && key(r[j]) == k';
            if j < |before| { assert r[j] == before[j]; }
          }
          forall k' | HasKey(before, key, k') ensures HasKey(r, key, k') {
            var j :| 0 <= j < |before| && key(before[j]) == k';
            assert r[j] == before[j];
          }
          assert r[|r| - 1] == s[i];
        }
      }
      assert r == FirstByKey(s[..i + 1], key);
      i := i + 1;
    }
    assert s[..|s|] == s;
  }
}
