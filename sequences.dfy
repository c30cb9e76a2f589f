/** The array operations the two screens use, over sequences:
    `Array.prototype.filter`, `splice(start, 1)` and the order-preserving
    de-duplication `Array.from(new Set(xs))`. */
module Sequences {

  /** `r` is obtained from `s` by deleting elements, keeping the order of the
      rest. */
  predicate IsSubsequence<T(==)>(r: seq<T>, s: seq<T>)
    decreases |s|
  {
    r == [] ||
    (s != [] && ((r[0] == s[0] && IsSubsequence(r[1..], s[1..])) || IsSubsequence(r, s[1..])))
  }

  /** `s.filter(keep)`: the elements of `s` that satisfy `keep`, in their
      order. */
  function Filter<T(==)>(s: seq<T>, keep: T -> bool): (r: seq<T>)
    ensures |r| <= |s|
    ensures forall i :: 0 <= i < |r| ==> r[i] in s && keep(r[i])
    ensures forall i :: 0 <= i < |s| && keep(s[i]) ==> s[i] in r
    ensures IsSubsequence(r, s)
    ensures (forall i :: 0 <= i < |s| ==> keep(s[i])) <==> r == s
    ensures multiset(r) <= multiset(s)
    ensures forall i :: 0 <= i < |s| && keep(s[i]) ==> multiset(r)[s[i]] == multiset(s)[s[i]]
    decreases |s|
  {
    assert s != [] ==> s == [s[0]] + s[1..];
    if s == [] then []
    else if keep(s[0]) then [s[0]] + Filter(s[1..], keep)
    else Filter(s[1..], keep)
  }

  /** Filtering by `f` and then by `g` is filtering once by their
      conjunction. */
  lemma {:induction false} FilterConjunction<T>(s: seq<T>, f: T -> bool, g: T -> bool, both: T -> bool)
    requires forall x :: both(x) == (f(x) && g(x))
    ensures Filter(Filter(s, f), g) == Filter(s, both)
    decreases |s|
  {
    if s != [] {
      FilterConjunction(s[1..], f, g, both);
      if f(s[0]) {
        assert Filter(s, f) == [s[0]] + Filter(s[1..], f);
        assert ([s[0]] + Filter(s[1..], f))[1..] == Filter(s[1..], f);
      }
    }
  }

  /** Where `splice(start, 1)` starts deleting: a negative start counts back
      from the end (and stops at 0), a start past the end is the end. */
  function SpliceStart(len: nat, start: int): (k: nat)
    ensures k <= len
    ensures 0 <= start ==> k == if start <= len then start else len
    ensures start < 0 ==> k == if len + start >= 0 then len + start else 0
  {
    if start < 0 then (if len + start >= 0 then len + start else 0)
    else if start <= len then start else len
  }

  /** `copy.splice(start, 1)` applied to a copy of `s`: removes the element
      at the start position when there is one; otherwise `s` is unchanged. */
  function Splice<T>(s: seq<T>, start: int): (r: seq<T>)
    ensures var k := SpliceStart(|s|, start);
      if k < |s| then
        |r| == |s| - 1 &&
        (forall j :: 0 <= j < k ==> r[j] == s[j]) &&
        (forall j :: k <= j < |r| ==> r[j] == s[j + 1])
      else r == s
  {
    var k := SpliceStart(|s|, start);
    if k < |s| then s[..k] + s[k + 1..] else s
  }

  /** Splicing twice at the same non-negative index removes the element that
      was there and the one that followed it. */
  lemma SpliceTwice<T>(s: seq<T>, i: nat)
    requires i + 1 < |s|
    ensures Splice(Splice(s, i), i) == s[..i] + s[i + 2..]
  {
    var once := Splice(s, i);
    assert once == s[..i] + s[i + 1..];
  }

  predicate NoDuplicates<T(==)>(s: seq<T>) {
    forall i, j :: 0 <= i < j < |s| ==> s[i] != s[j]
  }

  /** The position of the first occurrence of `x` in `s`. */
  function FirstIndex<T(==)>(s: seq<T>, x: T): (k: nat)
    requires x in s
    ensures k < |s| && s[k] == x
    ensures forall j :: 0 <= j < k ==> s[j] != x
  {
    if s[0] == x then 0 else 1 + FirstIndex(s[1..], x)
  }

  /** Appending can only add a first occurrence at the end. */
  lemma FirstIndexAppend<T>(s: seq<T>, x: T, y: T)
    requires y in s
    ensures FirstIndex(s + [x], y) == FirstIndex(s, y)
  {
    var k := FirstIndex(s, y);
    var k' := FirstIndex(s + [x], y);
    assert (s + [x])[k] == y;
    assert k' <= k;
    assert s[k'] == y;
  }

  /** `Array.from(new Set(s))`: the elements of `s` without repetitions, each
      where it first occurs. A `Set` remembers insertion order and ignores
      an element it already has. */
  function Distinct<T(==)>(s: seq<T>): (r: seq<T>)
    ensures NoDuplicates(r)
    ensures forall i :: 0 <= i < |r| ==> r[i] in s
    ensures forall i :: 0 <= i < |s| ==> s[i] in r
    ensures forall i, j :: 0 <= i < j < |r| ==> FirstIndex(s, r[i]) < FirstIndex(s, r[j])
    decreases |s|
  {
    if s == [] then []
    else
      var init := s[..|s| - 1];
      var last := s[|s| - 1];
      var d := Distinct(init);
      assert s == init + [last];
      FirstIndexOrder(init, last, d);
      if last in d then d else d + [last]
  }

  /** The step of `Distinct`: first occurrences in `init` keep their
      positions in `init + [last]`, and a new `last` comes after all of
      them. */
  lemma FirstIndexOrder<T>(init: seq<T>, last: T, d: seq<T>)
    requires forall i :: 0 <= i < |d| ==> d[i] in init
    requires forall i :: 0 <= i < |init| ==> init[i] in d
    requires forall i, j :: 0 <= i < j < |d| ==> FirstIndex(init, d[i]) < FirstIndex(init, d[j])
    ensures last in d ==>
      forall i, j :: 0 <= i < j < |d| ==> FirstIndex(init + [last], d[i]) < FirstIndex(init + [last], d[j])
    ensures last !in d ==>
      var e := d + [last];
      forall i, j :: 0 <= i < j < |e| ==> FirstIndex(init + [last], e[i]) < FirstIndex(init + [last], e[j])
  {
    var s := init + [last];
    forall x | x in init ensures FirstIndex(s, x) == FirstIndex(init, x) {
      FirstIndexAppend(init, last, x);
    }
    if last !in d {
      var e := d + [last];
      assert FirstIndex(s, last) == |init|;
      forall i, j | 0 <= i < j < |e|
        ensures FirstIndex(s, e[i]) < FirstIndex(s, e[j])
      {
        assert e[i] == d[i] && d[i] in init;
        if j < |d| {
          assert e[j] == d[j];
        }
      }
    }
  }
}
