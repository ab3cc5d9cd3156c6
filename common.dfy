/** Shared vocabulary of the dashboard model: optional values, calendar dates,
    and the order-preserving filter that every list view is built from
    (JavaScript's Array.prototype.filter). */
module Common {

  /** A value that may be absent (`T | null`, `T | undefined`, an optional field). */
  datatype Option<T> = None | Some(value: T)

  /** A JavaScript Date as the components read it: local calendar fields plus
      `getTime()`. Months are 0-based as in JavaScript; only equality and
      comparison are used. */
  datatype Date = Date(year: int, month: int, day: int, timestamp: int)

  /** `s` occurs in `t` in order, possibly with gaps. */
  ghost predicate IsSubsequence<T>(s: seq<T>, t: seq<T>)
    decreases |t|
  {
    if s == [] then true
    else if t == [] then false
    else (s[0] == t[0] && IsSubsequence(s[1..], t[1..])) || IsSubsequence(s, t[1..])
  }

  /** Every sequence is a subsequence of itself. */
  lemma {:induction false} SubsequenceReflexive<T>(s: seq<T>)
    ensures IsSubsequence(s, s)
  {
    if s != [] {
      SubsequenceReflexive(s[1..]);
    }
  }

  /** A subsequence is no longer than the sequence it is taken from. */
  lemma {:induction false} SubsequenceLength<T>(s: seq<T>, t: seq<T>)
    requires IsSubsequence(s, t)
    ensures |s| <= |t|
    decreases |t|
  {
    if s != [] {
      if s[0] == t[0] && IsSubsequence(s[1..], t[1..]) {
        SubsequenceLength(s[1..], t[1..]);
      } else {
        SubsequenceLength(s, t[1..]);
      }
    }
  }

  /** Number of elements of `s` that satisfy `keep`. */
  function Count<T>(s: seq<T>, keep: T -> bool): (n: nat)
    ensures n <= |s|
  {
    if s == [] then 0
    else (if keep(s[0]) then 1 else 0) + Count(s[1..], keep)
  }

  /** No element passes exactly when the count is zero. */
  lemma {:induction false} CountZero<T>(s: seq<T>, keep: T -> bool)
    ensures Count(s, keep) == 0 <==> forall i :: 0 <= i < |s| ==> !keep(s[i])
  {
    if s != [] {
      CountZero(s[1..], keep);
      assert forall i :: 1 <= i < |s| ==> s[i] == s[1..][i - 1];
    }
  }

  /** The elements of `s` that satisfy `keep`, in their original order. */
  function Filter<T>(s: seq<T>, keep: T -> bool): (r: seq<T>)
    ensures |r| == Count(s, keep)
    ensures forall i :: 0 <= i < |r| ==> keep(r[i])
  {
    if s == [] then []
    else if keep(s[0]) then [s[0]] + Filter(s[1..], keep)
    else Filter(s[1..], keep)
  }

  /** The filtered list keeps the relative order of the original. */
  lemma {:induction false} FilterIsSubsequence<T>(s: seq<T>, keep: T -> bool)
    ensures IsSubsequence(Filter(s, keep), s)
  {
    if s != [] {
      FilterIsSubsequence(s[1..], keep);
      var rest := Filter(s[1..], keep);
      if keep(s[0]) {
        assert Filter(s, keep) == [s[0]] + rest;
        assert ([s[0]] + rest)[1..] == rest;
      }
    }
  }

  /** Every element that passes is in the filtered list. */
  lemma {:induction false} FilterKeepsMatches<T>(s: seq<T>, keep: T -> bool)
    ensures forall i :: 0 <= i < |s| && keep(s[i]) ==> s[i] in Filter(s, keep)
  {
    if s != [] {
      FilterKeepsMatches(s[1..], keep);
      assert forall i :: 1 <= i < |s| ==> s[i] == s[1..][i - 1];
    }
  }

  /** Filtering distributes over concatenation: the filter looks at each
      element on its own. */
  lemma {:induction false} FilterAppend<T>(a: seq<T>, b: seq<T>, keep: T -> bool)
    ensures Filter(a + b, keep) == Filter(a, keep) + Filter(b, keep)
  {
    if a == [] {
      assert a + b == b;
    } else {
      var x, rest := a[0], a[1..];
      assert a == [x] + rest;
      assert a + b == [x] + (rest + b);
      FilterAppend(rest, b, keep);
      FilterCons(x, rest + b, keep);
      FilterCons(x, rest, keep);
    }
  }

  /** One step of the filter: the head is kept or dropped. */
  lemma FilterCons<T>(x: T, s: seq<T>, keep: T -> bool)
    ensures Filter([x] + s, keep) == (if keep(x) then [x] else []) + Filter(s, keep)
  {
    assert ([x] + s)[0] == x && ([x] + s)[1..] == s;
  }

  /** When every element passes, the filter returns the list unchanged. */
  lemma {:induction false} FilterAllKept<T>(s: seq<T>, keep: T -> bool)
    requires forall i :: 0 <= i < |s| ==> keep(s[i])
    ensures Filter(s, keep) == s
  {
    if s != [] {
      FilterAllKept(s[1..], keep);
    }
  }

  /** When no element passes, the filter returns the empty list. */
  lemma FilterNoneKept<T>(s: seq<T>, keep: T -> bool)
    requires forall i :: 0 <= i < |s| ==> !keep(s[i])
    ensures Filter(s, keep) == []
  {
  }

  /** `i` is the position of the first element of `s` that satisfies `p`. */
  ghost predicate IsFirstMatch<T>(s: seq<T>, p: T -> bool, i: int)
  {
    0 <= i < |s| && p(s[i]) && forall j :: 0 <= j < i ==> !p(s[j])
  }

  /** Array.prototype.find: the first element that satisfies `p`, if any. */
  function Find<T>(s: seq<T>, p: T -> bool): (r: Option<T>)
    ensures r.None? <==> forall i :: 0 <= i < |s| ==> !p(s[i])
    ensures r.Some? ==> exists i :: IsFirstMatch(s, p, i) && s[i] == r.value
  {
    if s == [] then None
    else if p(s[0]) then
      assert IsFirstMatch(s, p, 0);
      Some(s[0])
    else
      var r := Find(s[1..], p);
      assert r.Some? ==> exists i :: IsFirstMatch(s, p, i) && s[i] == r.value by {
        if r.Some? {
          var i :| IsFirstMatch(s[1..], p, i) && s[1..][i] == r.value;
          assert IsFirstMatch(s, p, i + 1);
        }
      }
      r
  }

  /** Appending an element changes what Find returns only when nothing
      earlier matched. */
  lemma {:induction false} FindAppend<T>(s: seq<T>, x: T, p: T -> bool)
    ensures Find(s + [x], p) ==
      if Find(s, p).Some? then Find(s, p)
      else if p(x) then Some(x)
      else None
  {
    if s == [] {
      assert s + [x] == [x];
    } else {
      assert (s + [x])[1..] == s[1..] + [x];
      FindAppend(s[1..], x, p);
    }
  }
}
