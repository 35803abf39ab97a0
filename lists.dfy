/** The array operations of the JavaScript runtime that the core's filter chains use. */
module Lists {
  import opened Wrappers

  predicate Distinct<T(==)>(s: seq<T>) {
    forall i, j :: 0 <= i < j < |s| ==> s[i] != s[j]
  }

  /** `s.slice(0, n)`. */
  function Take<T>(s: seq<T>, n: nat): (r: seq<T>)
    ensures |r| == if |s| < n then |s| else n
    ensures r == s[..|r|]
  {
    if |s| <= n then s else s[..n]
  }

  /** `s[0]`, `undefined` for an empty array. */
  function Head<T>(s: seq<T>): (r: Option<T>)
    ensures r.Some? <==> |s| > 0
    ensures r.Some? ==> r.value == s[0]
  {
    if |s| == 0 then None else Some(s[0])
  }

  /** `s.filter(p)`. */
  function Filter<T>(p: T -> bool, s: seq<T>): (r: seq<T>)
    ensures |r| <= |s|
    ensures forall i :: 0 <= i < |r| ==> r[i] in s && p(r[i])
    ensures forall i :: 0 <= i < |s| && p(s[i]) ==> s[i] in r
  {
    if s == [] then []
    else Filter(p, s[..|s| - 1]) + (if p(s[|s| - 1]) then [s[|s| - 1]] else [])
  }

  /** `s.map(f)`. */
  function Map<T, U>(f: T -> U, s: seq<T>): (r: seq<U>)
    ensures |r| == |s|
    ensures forall i :: 0 <= i < |s| ==> r[i] == f(s[i])
  {
    seq(|s|, i requires 0 <= i < |s| => f(s[i]))
  }

  /** The concatenation of all the lists, in order (`push(...matches)` repeated). */
  function Flatten<T>(ss: seq<seq<T>>): seq<T> {
    if ss == [] then [] else Flatten(ss[..|ss| - 1]) + ss[|ss| - 1]
  }

  lemma {:induction false} FlattenMember<T>(ss: seq<seq<T>>, x: T)
    ensures x in Flatten(ss) <==> exists k :: 0 <= k < |ss| && x in ss[k]
  {
    if ss != [] {
      var init := ss[..|ss| - 1];
      FlattenMember(init, x);
      assert forall k :: 0 <= k < |init| ==> init[k] == ss[k];
    }
  }

  /** `s.indexOf(x)`: the first position of `x`, or -1. */
  function IndexOf<T(==)>(s: seq<T>, x: T): (r: int)
    ensures -1 <= r < |s|
    ensures r == -1 <==> x !in s
    ensures r >= 0 ==> s[r] == x && x !in s[..r]
  {
    if s == [] then -1
    else if s[0] == x then 0
    else
      var k := IndexOf(s[1..], x);
      assert k >= 0 ==> s[1..][..k] == s[1..k + 1];
      if k < 0 then -1 else k + 1
  }

  /** Appending an element does not move the first position of anything already present. */
  lemma IndexOfAppend<T>(init: seq<T>, last: T, x: T)
    requires x in init
    ensures IndexOf(init + [last], x) == IndexOf(init, x)
  {
    var s := init + [last];
    var r' := IndexOf(init, x);
    assert s[r'] == x;
  }

  lemma IndexOfAppendAll<T>(init: seq<T>, last: T)
    ensures forall x :: x in init ==> IndexOf(init + [last], x) == IndexOf(init, x)
  {
    forall x | x in init ensures IndexOf(init + [last], x) == IndexOf(init, x) {
      IndexOfAppend(init, last, x);
    }
  }

  /** An element appended to a list it is not in sits at the end. */
  lemma IndexOfAppendNew<T>(init: seq<T>, x: T)
    requires x !in init
    ensures IndexOf(init + [x], x) == |init|
  {
    var s := init + [x];
    assert s[|init|] == x;
    assert s[..|init|] == init;
  }

  /** Filtering a list extended by one element. */
  lemma FilterAppend<T>(p: T -> bool, init: seq<T>, last: T)
    ensures Filter(p, init + [last]) == Filter(p, init) + (if p(last) then [last] else [])
  {
    assert (init + [last])[..|init|] == init;
  }

  /** `s[k]` satisfies `p` and `f` maps it to `x`. */
  predicate KeptAt<T, U(==)>(p: T -> bool, f: T -> U, s: seq<T>, k: int, x: U) {
    0 <= k < |s| && p(s[k]) && f(s[k]) == x
  }

  /** `x` is the image under `f` of some element of `s` that satisfies `p`. */
  predicate Sourced<T, U(==)>(p: T -> bool, f: T -> U, s: seq<T>, x: U) {
    exists k | 0 <= k < |s| :: KeptAt(p, f, s, k, x)
  }

  /** `r` holds the image under `f` of every element of `s` that satisfies `p`, and nothing else. */
  predicate Keeps<T, U(==)>(p: T -> bool, f: T -> U, s: seq<T>, r: seq<U>) {
    && (forall i :: 0 <= i < |r| ==> Sourced(p, f, s, r[i]))
    && (forall k :: 0 <= k < |s| && p(s[k]) ==> f(s[k]) in r)
  }

  /** `s.forEach(x => { if (p(x)) out.push(f(x)); })`: the images of the elements that satisfy `p`, in order. */
  function MapWhere<T, U(==)>(p: T -> bool, f: T -> U, s: seq<T>): (r: seq<U>)
    ensures Keeps(p, f, s, r)
  {
    if s == [] then []
    else
      var init, last := s[..|s| - 1], s[|s| - 1];
      var pre := MapWhere(p, f, init);
      var r := pre + (if p(last) then [f(last)] else []);
      assert forall k :: 0 <= k < |init| ==> init[k] == s[k];
      forall i | 0 <= i < |r| ensures Sourced(p, f, s, r[i]) {
        if i < |pre| {
          var k :| 0 <= k < |init| && KeptAt(p, f, init, k, pre[i]);
          assert s[k] == init[k] && r[i] == pre[i];
          assert KeptAt(p, f, s, k, r[i]);
        } else {
          assert KeptAt(p, f, s, |s| - 1, r[i]);
        }
      }
      r
  }

  /** Mapping distributes over concatenation. */
  lemma MapConcat<T, U>(f: T -> U, a: seq<T>, b: seq<T>)
    ensures Map(f, a + b) == Map(f, a) + Map(f, b)
  {
    var l, r := Map(f, a + b), Map(f, a) + Map(f, b);
    assert |l| == |r|;
    forall i | 0 <= i < |l| ensures l[i] == r[i] {
      if i < |a| {
        assert (a + b)[i] == a[i];
      } else {
        assert (a + b)[i] == b[i - |a|];
      }
    }
  }

  /** Pushing the images of the kept elements is `s.filter(p).map(f)`. */
  lemma {:induction false} MapWhereFilter<T, U>(p: T -> bool, f: T -> U, s: seq<T>)
    ensures MapWhere(p, f, s) == Map(f, Filter(p, s))
    decreases |s|
  {
    if s != [] {
      var init, last := s[..|s| - 1], s[|s| - 1];
      MapWhereFilter(p, f, init);
      var tail := if p(last) then [last] else [];
      MapConcat(f, Filter(p, init), tail);
      assert Map(f, tail) == if p(last) then [f(last)] else [];
    }
  }

  /** Removing repeats from such a list keeps `Keeps`. */
  lemma DedupeKeeps<T, U>(p: T -> bool, f: T -> U, s: seq<T>, m: seq<U>, r: seq<U>)
    requires Keeps(p, f, s, m) && IsDedupe(m, r)
    ensures Keeps(p, f, s, r)
  {
    forall i | 0 <= i < |r| ensures Sourced(p, f, s, r[i]) {
      assert r[i] in m;
      var j :| 0 <= j < |m| && m[j] == r[i];
      assert Sourced(p, f, s, m[j]);
      var w :| 0 <= w < |s| && KeptAt(p, f, s, w, m[j]);
      assert KeptAt(p, f, s, w, r[i]);
    }
    forall k | 0 <= k < |s| && p(s[k]) ensures f(s[k]) in r {
      assert f(s[k]) in m;
      var j :| 0 <= j < |m| && m[j] == f(s[k]);
    }
  }

  /** Filtering distributes over concatenation. */
  lemma {:induction false} FilterConcat<T>(p: T -> bool, a: seq<T>, b: seq<T>)
    ensures Filter(p, a + b) == Filter(p, a) + Filter(p, b)
    decreases |b|
  {
    if b == [] {
      assert a + b == a;
    } else {
      var init, last := b[..|b| - 1], b[|b| - 1];
      assert b == init + [last];
      assert a + b == (a + init) + [last];
      FilterAppend(p, a + init, last);
      FilterAppend(p, init, last);
      FilterConcat(p, a, init);
    }
  }

  /** Filtering a list that starts with `x`. */
  lemma FilterCons<T>(p: T -> bool, x: T, s: seq<T>)
    ensures Filter(p, [x] + s) == (if p(x) then [x] else []) + Filter(p, s)
  {
    FilterConcat(p, [x], s);
    FilterAppend(p, [], x);
    assert [] + [x] == [x];
  }

  /** Filtering keeps the order of first occurrences. */
  lemma {:induction false} FilterKeepsOrder<T>(p: T -> bool, s: seq<T>, x: T, y: T)
    requires x in Filter(p, s) && y in Filter(p, s)
    requires IndexOf(Filter(p, s), x) < IndexOf(Filter(p, s), y)
    ensures IndexOf(s, x) < IndexOf(s, y)
  {
    assert |s| > 0;
    var init, last := s[..|s| - 1], s[|s| - 1];
    assert s == init + [last];
    FilterAppend(p, init, last);
    var fi := Filter(p, init);
    if x in fi && y in fi {
      if p(last) {
        IndexOfAppend(fi, last, x);
        IndexOfAppend(fi, last, y);
      } else {
        assert Filter(p, s) == fi;
      }
      assert IndexOf(fi, x) < IndexOf(fi, y);
      FilterKeepsOrder(p, init, x, y);
      IndexOfAppend(init, last, x);
      IndexOfAppend(init, last, y);
    } else if x in fi {
      assert y == last;
      assert y !in init;
      IndexOfAppendNew(init, last);
      IndexOfAppend(init, last, x);
    } else {
      assert x == last;
      IndexOfAppendNew(fi, last);
      assert false;
    }
  }

  /** Filtering a list without repeats gives a list without repeats, in the same order. */
  lemma {:induction false} FilterDistinctOrder<T>(p: T -> bool, s: seq<T>)
    ensures Distinct(s) ==> Distinct(Filter(p, s))
    ensures Distinct(s) ==> forall i, j :: 0 <= i < j < |Filter(p, s)| ==>
      IndexOf(s, Filter(p, s)[i]) < IndexOf(s, Filter(p, s)[j])
  {
    if Distinct(s) && s != [] {
      var init, last := s[..|s| - 1], s[|s| - 1];
      assert s == init + [last];
      assert Distinct(init);
      FilterDistinctOrder(p, init);
      FilterAppend(p, init, last);
      assert last !in Filter(p, init);
      var r := Filter(p, s);
      assert Distinct(r);
      forall i, j | 0 <= i < j < |r| ensures IndexOf(s, r[i]) < IndexOf(s, r[j]) {
        assert IndexOf(r, r[i]) == i && IndexOf(r, r[j]) == j;
        FilterKeepsOrder(p, s, r[i], r[j]);
      }
    }
  }

  /** `r` holds the elements of `s`, each once, in the order of their first occurrences. */
  predicate IsDedupe<T(==)>(s: seq<T>, r: seq<T>) {
    && |r| <= |s|
    && Distinct(r)
    && (forall i :: 0 <= i < |r| ==> r[i] in s)
    && (forall i :: 0 <= i < |s| ==> s[i] in r)
    && (forall i, j :: 0 <= i < j < |r| ==> IndexOf(s, r[i]) < IndexOf(s, r[j]))
  }

  /** An element already present adds nothing. */
  lemma DedupeSeen<T>(init: seq<T>, last: T, d: seq<T>)
    requires IsDedupe(init, d) && last in init
    ensures IsDedupe(init + [last], d)
  {
    IndexOfAppendAll(init, last);
    var s := init + [last];
    assert forall i :: 0 <= i < |s| ==> s[i] in init;
  }

  /** A new element goes to the end. */
  lemma DedupeNew<T>(init: seq<T>, last: T, d: seq<T>)
    requires IsDedupe(init, d) && last !in init
    ensures IsDedupe(init + [last], d + [last])
  {
    IndexOfAppendAll(init, last);
    IndexOfAppendNew(init, last);
  }

  /** `s.filter((x, i, a) => a.indexOf(x) === i)`: keeps the first occurrence of every element.
      Written from the end: the last element survives exactly when it does not occur before. */
  function Dedupe<T(==)>(s: seq<T>): (r: seq<T>)
    ensures |r| <= |s|
    ensures Distinct(r)
    ensures forall i :: 0 <= i < |r| ==> r[i] in s
    ensures forall i :: 0 <= i < |s| ==> s[i] in r
    ensures forall i, j :: 0 <= i < j < |r| ==> IndexOf(s, r[i]) < IndexOf(s, r[j])
  {
    if s == [] then []
    else
      var init, last := s[..|s| - 1], s[|s| - 1];
      var d := Dedupe(init);
      assert s == init + [last];
      assert IsDedupe(init, d);
      if last in init then
        DedupeSeen(init, last, d);
        d
      else
        DedupeNew(init, last, d);
        d + [last]
  }

  /** The first element survives removing repeats. */
  lemma DedupeHead<T>(s: seq<T>)
    requires |s| > 0
    ensures |Dedupe(s)| > 0 && Dedupe(s)[0] == s[0]
  {
    var d := Dedupe(s);
    assert s[0] in d;
    assert IndexOf(s, s[0]) == 0;
  }

  /** `s.findIndex(p)`: the first position whose element satisfies `p`, or -1. */
  function FindIndex<T>(s: seq<T>, p: T -> bool): (r: int)
    ensures -1 <= r < |s|
    ensures r >= 0 ==> p(s[r]) && forall i :: 0 <= i < r ==> !p(s[i])
    ensures r == -1 ==> forall i :: 0 <= i < |s| ==> !p(s[i])
  {
    if s == [] then -1
    else if p(s[0]) then 0
    else
      var k := FindIndex(s[1..], p);
      if k < 0 then -1 else k + 1
  }

  /** `s.findIndex(p)` over a list extended by one element. */
  lemma FindIndexAppend<T>(s: seq<T>, x: T, p: T -> bool)
    ensures FindIndex(s + [x], p) == if FindIndex(s, p) >= 0 then FindIndex(s, p) else if p(x) then |s| else -1
  {
    var t := s + [x];
    assert forall i :: 0 <= i < |s| ==> t[i] == s[i];
    assert t[|s|] == x;
  }

  /** The head of `s.filter(p)` is the element at `s.findIndex(p)`. */
  lemma {:induction false} FilterHead<T>(p: T -> bool, s: seq<T>)
    ensures |Filter(p, s)| > 0 <==> FindIndex(s, p) >= 0
    ensures |Filter(p, s)| > 0 ==> Filter(p, s)[0] == s[FindIndex(s, p)]
  {
    if s != [] {
      var init, last := s[..|s| - 1], s[|s| - 1];
      assert s == init + [last];
      FilterHead(p, init);
      FilterAppend(p, init, last);
      FindIndexAppend(init, last, p);
      if FindIndex(init, p) >= 0 {
        assert s[FindIndex(s, p)] == init[FindIndex(init, p)];
      }
    }
  }

  /** The first `n` distinct elements of `s` that satisfy `p`, as the chain
      `filter(p).filter(firstOccurrence).slice(0, n)` computes them. */
  function FirstDistinct<T(==)>(p: T -> bool, s: seq<T>, n: nat): (r: seq<T>)
    ensures |r| <= n
    ensures Distinct(r)
    ensures forall i :: 0 <= i < |r| ==> r[i] in s && p(r[i])
    ensures forall i, j :: 0 <= i < j < |r| ==> IndexOf(s, r[i]) < IndexOf(s, r[j])
    ensures forall k :: 0 <= k < |s| && p(s[k]) && s[k] !in r ==>
      |r| == n && forall i :: 0 <= i < |r| ==> IndexOf(s, r[i]) < IndexOf(s, s[k])
  {
    FirstDistinctOrder(p, s, n);
    FirstDistinctFirst(p, s, n);
    Take(Dedupe(Filter(p, s)), n)
  }

  /** The first element kept is the first element of `s` that satisfies `p`, when there is one. */
  lemma FirstDistinctHead<T>(p: T -> bool, s: seq<T>, n: nat)
    requires n > 0
    ensures |FirstDistinct(p, s, n)| > 0 <==> FindIndex(s, p) >= 0
    ensures |FirstDistinct(p, s, n)| > 0 ==> FirstDistinct(p, s, n)[0] == s[FindIndex(s, p)]
  {
    FilterHead(p, s);
    if |Filter(p, s)| > 0 {
      DedupeHead(Filter(p, s));
    }
  }

  lemma FirstDistinctOrder<T>(p: T -> bool, s: seq<T>, n: nat)
    ensures var r := Take(Dedupe(Filter(p, s)), n);
      forall i, j :: 0 <= i < j < |r| ==> IndexOf(s, r[i]) < IndexOf(s, r[j])
  {
    var r := Take(Dedupe(Filter(p, s)), n);
    forall i, j | 0 <= i < j < |r| ensures IndexOf(s, r[i]) < IndexOf(s, r[j]) {
      FilterKeepsOrder(p, s, r[i], r[j]);
    }
  }

  lemma FirstDistinctFirst<T>(p: T -> bool, s: seq<T>, n: nat)
    ensures var r := Take(Dedupe(Filter(p, s)), n);
      forall k :: 0 <= k < |s| && p(s[k]) && s[k] !in r ==>
        |r| == n && forall i :: 0 <= i < |r| ==> IndexOf(s, r[i]) < IndexOf(s, s[k])
  {
    var f := Filter(p, s);
    var d := Dedupe(f);
    var r := Take(d, n);
    forall k | 0 <= k < |s| && p(s[k]) && s[k] !in r
      ensures |r| == n && forall i :: 0 <= i < |r| ==> IndexOf(s, r[i]) < IndexOf(s, s[k])
    {
      var x := s[k];
      assert x in f && x in d;
      var m :| 0 <= m < |d| && d[m] == x;
      assert m >= |r|;
      forall i | 0 <= i < |r| ensures IndexOf(s, r[i]) < IndexOf(s, x) {
        assert d[i] == r[i];
        FilterKeepsOrder(p, s, r[i], x);
      }
    }
  }
  /** The first defined result of `y` along `s` (a loop that returns at the first success). */
  function FirstSome<T, U(==)>(y: T -> Option<U>, s: seq<T>): (r: Option<U>)
    ensures r.None? <==> forall k :: 0 <= k < |s| ==> y(s[k]).None?
    ensures r.Some? ==> exists k :: 0 <= k < |s| && y(s[k]) == r && forall j :: 0 <= j < k ==> y(s[j]).None?
  {
    if s == [] then None
    else if y(s[0]).Some? then y(s[0])
    else
      var r := FirstSome(y, s[1..]);
      assert forall k :: 0 < k < |s| ==> s[k] == s[1..][k - 1];
      if r.Some? then
        var k :| 0 <= k < |s[1..]| && y(s[1..][k]) == r && forall j :: 0 <= j < k ==> y(s[1..][j]).None?;
        assert y(s[k + 1]) == r;
        r
      else r
  }
  /** One step of the loop that computes `FirstSome`. */
  lemma FirstSomeStep<T, U>(y: T -> Option<U>, s: seq<T>, k: int)
    requires 0 <= k < |s|
    ensures FirstSome(y, s[k..]) == if y(s[k]).Some? then y(s[k]) else FirstSome(y, s[k + 1..])
  {
    assert s[k..][0] == s[k];
    assert s[k..][1..] == s[k + 1..];
  }
}
