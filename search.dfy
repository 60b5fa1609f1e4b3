/**
 * Queries over tables kept in creation order (index 0 is the oldest row).
 * The models order their rows by `-created_at`, so `.afirst()` on a filtered
 * query is the LAST matching row of the table.
 */
module Search {
  import opened Wrappers

  /** The most recently created row satisfying `p` (`filter(p).afirst()`). */
  function LatestWhere<T>(s: seq<T>, p: T -> bool): (r: Option<nat>)
    ensures r.Some? ==> r.value < |s| && p(s[r.value])
    ensures r.Some? ==> forall j :: r.value < j < |s| ==> !p(s[j])
    ensures r.None? ==> forall j :: 0 <= j < |s| ==> !p(s[j])
    decreases |s|
  {
    if |s| == 0 then None
    else if p(s[|s| - 1]) then Some(|s| - 1)
    else LatestWhere(s[..|s| - 1], p)
  }

  /** The first element satisfying `p`, in sequence order (a `for ... break` scan). */
  function FirstWhere<T>(s: seq<T>, p: T -> bool): (r: Option<nat>)
    ensures r.Some? ==> r.value < |s| && p(s[r.value])
    ensures r.Some? ==> forall j :: 0 <= j < r.value ==> !p(s[j])
    ensures r.None? ==> forall j :: 0 <= j < |s| ==> !p(s[j])
    decreases |s|
  {
    if |s| == 0 then None
    else if p(s[0]) then Some(0)
    else match FirstWhere(s[1..], p)
      case None => None
      case Some(k) => Some(k + 1)
  }

  /** The number of rows satisfying `p` (`filter(p).acount()`). */
  function CountWhere<T>(s: seq<T>, p: T -> bool): (n: nat)
    ensures n <= |s|
    decreases |s|
  {
    if |s| == 0 then 0
    else CountWhere(s[..|s| - 1], p) + (if p(s[|s| - 1]) then 1 else 0)
  }

  /** The indices of the rows satisfying `p`. */
  function MatchingIndices<T>(s: seq<T>, p: T -> bool): set<nat> {
    set i: nat | i < |s| && p(s[i])
  }

  /** The count is the number of matching rows. */
  lemma {:induction false} CountWhereSpec<T>(s: seq<T>, p: T -> bool)
    ensures CountWhere(s, p) == |MatchingIndices(s, p)|
    ensures CountWhere(s, p) == 0 <==> forall i :: 0 <= i < |s| ==> !p(s[i])
    decreases |s|
  {
    if |s| == 0 {
      assert MatchingIndices(s, p) == {};
    } else {
      var r := s[..|s| - 1];
      CountWhereSpec(r, p);
      if p(s[|s| - 1]) {
        assert MatchingIndices(s, p) == MatchingIndices(r, p) + {|s| - 1};
        assert |s| - 1 in MatchingIndices(s, p);
      } else {
        assert MatchingIndices(s, p) == MatchingIndices(r, p);
      }
    }
  }

  /** Appending a row adds one to the count exactly when the new row satisfies `p`. */
  lemma CountWhereAppend<T>(s: seq<T>, x: T, p: T -> bool)
    ensures CountWhere(s + [x], p) == CountWhere(s, p) + (if p(x) then 1 else 0)
  {
    assert (s + [x])[..|s|] == s;
  }

  /**
   * Changing rows so that no row newly satisfies `p` cannot raise the count;
   * if every row keeps its verdict, the count is unchanged.
   */
  lemma {:induction false} CountWhereMonotone<T>(s: seq<T>, t: seq<T>, p: T -> bool)
    requires |s| == |t|
    requires forall i :: 0 <= i < |s| ==> p(t[i]) ==> p(s[i])
    ensures CountWhere(t, p) <= CountWhere(s, p)
    ensures (forall i :: 0 <= i < |s| ==> p(t[i]) == p(s[i])) ==> CountWhere(t, p) == CountWhere(s, p)
    decreases |s|
  {
    if |s| > 0 {
      CountWhereMonotone(s[..|s| - 1], t[..|t| - 1], p);
    }
  }

  /** Changing one row that satisfied `p` into one that does not lowers the count by one. */
  lemma {:induction false} CountWhereDrop<T>(s: seq<T>, i: nat, x: T, p: T -> bool)
    requires i < |s| && p(s[i]) && !p(x)
    ensures CountWhere(s[i := x], p) + 1 == CountWhere(s, p)
    decreases |s|
  {
    var t := s[i := x];
    if i == |s| - 1 {
      assert t[..|t| - 1] == s[..|s| - 1];
    } else {
      assert t[..|t| - 1] == s[..|s| - 1][i := x];
      CountWhereDrop(s[..|s| - 1], i, x, p);
    }
  }

  /**
   * The indices of the rows satisfying `p`, newest first: the rows an async
   * iteration over `filter(p)` visits, in the order it visits them.
   */
  function NewestFirst<T>(s: seq<T>, p: T -> bool): (r: seq<nat>)
    ensures forall k :: 0 <= k < |r| ==> r[k] < |s|
    decreases |s|
  {
    if |s| == 0 then []
    else (if p(s[|s| - 1]) then [|s| - 1] else []) + NewestFirst(s[..|s| - 1], p)
  }

  /** Every index in `r` is a row of `s` satisfying `p`. */
  predicate OnlyMatching<T>(s: seq<T>, p: T -> bool, r: seq<nat>) {
    forall k :: 0 <= k < |r| ==> r[k] < |s| && p(s[r[k]])
  }

  /** Every row of `s` satisfying `p` has its index in `r`. */
  predicate EveryMatching<T>(s: seq<T>, p: T -> bool, r: seq<nat>) {
    forall i :: 0 <= i < |s| && p(s[i]) ==> i in r
  }

  predicate StrictlyDecreasing(r: seq<nat>) {
    forall k, l :: 0 <= k < l < |r| ==> r[k] > r[l]
  }

  /** The visited rows are exactly the matching ones, each once, in strictly decreasing index order. */
  lemma NewestFirstSpec<T>(s: seq<T>, p: T -> bool)
    ensures OnlyMatching(s, p, NewestFirst(s, p))
    ensures EveryMatching(s, p, NewestFirst(s, p))
    ensures StrictlyDecreasing(NewestFirst(s, p))
  {
    NewestFirstMatches(s, p);
    NewestFirstComplete(s, p);
    NewestFirstDescending(s, p);
  }

  lemma {:induction false} NewestFirstMatches<T>(s: seq<T>, p: T -> bool)
    ensures OnlyMatching(s, p, NewestFirst(s, p))
    decreases |s|
  {
    if |s| > 0 {
      var n := |s| - 1;
      var init := s[..n];
      var rest := NewestFirst(init, p);
      NewestFirstMatches(init, p);
      assert OnlyMatching(s, p, rest) by {
        forall k | 0 <= k < |rest| ensures rest[k] < |s| && p(s[rest[k]]) {
          assert rest[k] < n && s[rest[k]] == init[rest[k]];
        }
      }
      if p(s[n]) {
        var r := [n] + rest;
        assert NewestFirst(s, p) == r;
        forall k | 0 < k < |r| ensures r[k] < |s| && p(s[r[k]]) {
          assert r[k] == rest[k - 1];
        }
      } else {
        assert NewestFirst(s, p) == rest;
      }
    }
  }

  lemma {:induction false} NewestFirstComplete<T>(s: seq<T>, p: T -> bool)
    ensures EveryMatching(s, p, NewestFirst(s, p))
    decreases |s|
  {
    if |s| > 0 {
      var n := |s| - 1;
      var init := s[..n];
      var rest := NewestFirst(init, p);
      NewestFirstComplete(init, p);
      forall i | 0 <= i < n && p(s[i]) ensures i in rest {
        assert init[i] == s[i];
      }
      if p(s[n]) {
        assert NewestFirst(s, p) == [n] + rest;
      } else {
        assert NewestFirst(s, p) == rest;
      }
    }
  }

  lemma {:induction false} NewestFirstDescending<T>(s: seq<T>, p: T -> bool)
    ensures StrictlyDecreasing(NewestFirst(s, p))
    decreases |s|
  {
    if |s| > 0 {
      var n := |s| - 1;
      var rest := NewestFirst(s[..n], p);
      NewestFirstDescending(s[..n], p);
      if p(s[n]) {
        var r := [n] + rest;
        assert NewestFirst(s, p) == r;
        forall k, l | 0 <= k < l < |r| ensures r[k] > r[l] {
          assert r[l] == rest[l - 1] && rest[l - 1] < n;
          if k > 0 {
            assert r[k] == rest[k - 1];
          }
        }
      } else {
        assert NewestFirst(s, p) == rest;
      }
    }
  }
}
