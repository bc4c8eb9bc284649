/**
 * Array.prototype.filter and the order-preservation it promises, and the
 * bookkeeping of a loop that walks two equally long inputs side by side.
 */
module Seqs {
  import opened Wrappers

  /** Keeps, in order, the elements that satisfy `p`. */
  function Filter<T>(s: seq<T>, p: T -> bool): (r: seq<T>)
    ensures |r| <= |s|
    ensures forall x :: x in r ==> x in s && p(x)
    ensures forall x :: x in s && p(x) ==> x in r
  {
    if s == [] then [] else (if p(s[0]) then [s[0]] else []) + Filter(s[1..], p)
  }

  /** `r` is `s` with some elements dropped and the rest in their original order. */
  predicate IsSubsequence<T(==)>(r: seq<T>, s: seq<T>)
    decreases |s|
  {
    if r == [] then true
    else if s == [] then false
    else if r[0] == s[0] then IsSubsequence(r[1..], s[1..])
    else IsSubsequence(r, s[1..])
  }

  lemma {:induction false} SubsequenceOfTail<T>(r: seq<T>, s: seq<T>)
    requires |s| > 0 && IsSubsequence(r, s[1..])
    ensures IsSubsequence(r, s)
    decreases |s|, 0
  {
    if r != [] && r[0] == s[0] {
      DropHead(r, s[1..]);
    }
  }

  lemma {:induction false} DropHead<T>(r: seq<T>, t: seq<T>)
    requires r != [] && IsSubsequence(r, t)
    ensures IsSubsequence(r[1..], t)
    decreases |t|, 1
  {
    if r[0] == t[0] {
      if r[1..] != [] {
        SubsequenceOfTail(r[1..], t);
      }
    } else {
      DropHead(r, t[1..]);
      SubsequenceOfTail(r[1..], t);
    }
  }

  /** Filtering preserves the relative order of the kept elements. */
  lemma {:induction false} FilterIsSubsequence<T>(s: seq<T>, p: T -> bool)
    ensures IsSubsequence(Filter(s, p), s)
  {
    if s != [] {
      FilterIsSubsequence(s[1..], p);
      if p(s[0]) {
        assert Filter(s, p) == [s[0]] + Filter(s[1..], p);
        assert (Filter(s, p))[1..] == Filter(s[1..], p);
      } else {
        assert Filter(s, p) == Filter(s[1..], p);
        SubsequenceOfTail(Filter(s, p), s);
      }
    }
  }

  /** Filtering keeps every copy of a kept value and no copy of a dropped one. */
  lemma {:induction false} FilterMultiplicity<T>(s: seq<T>, p: T -> bool)
    ensures forall x :: multiset(Filter(s, p))[x] == if p(x) then multiset(s)[x] else 0
  {
    if s != [] {
      FilterMultiplicity(s[1..], p);
      assert s == [s[0]] + s[1..];
      assert multiset(s) == multiset([s[0]]) + multiset(s[1..]);
      var head := if p(s[0]) then [s[0]] else [];
      assert Filter(s, p) == head + Filter(s[1..], p);
      assert multiset(Filter(s, p)) == multiset(head) + multiset(Filter(s[1..], p));
    }
  }

  /** A predicate every element satisfies keeps the whole sequence. */
  lemma {:induction false} FilterKeepsAll<T>(s: seq<T>, p: T -> bool)
    requires forall i :: 0 <= i < |s| ==> p(s[i])
    ensures Filter(s, p) == s
  {
    if s != [] {
      FilterKeepsAll(s[1..], p);
      assert [s[0]] + s[1..] == s;
    }
  }

  /** A predicate no element satisfies keeps nothing. */
  lemma {:induction false} FilterKeepsNone<T>(s: seq<T>, p: T -> bool)
    requires forall i :: 0 <= i < |s| ==> !p(s[i])
    ensures Filter(s, p) == []
  {
    if s != [] {
      FilterKeepsNone(s[1..], p);
    }
  }

  /** Number of elements satisfying `p`. */
  function Count<T>(s: seq<T>, p: T -> bool): nat {
    if s == [] then 0 else (if p(s[0]) then 1 else 0) + Count(s[1..], p)
  }

  lemma {:induction false} FilterLength<T>(s: seq<T>, p: T -> bool)
    ensures |Filter(s, p)| == Count(s, p)
  {
    if s != [] {
      FilterLength(s[1..], p);
    }
  }

  /** Elements satisfying `p` and elements failing it add up to the whole. */
  lemma {:induction false} CountComplement<T>(s: seq<T>, p: T -> bool)
    ensures Count(s, p) + Count(s, x => !p(x)) == |s|
  {
    if s != [] {
      CountComplement(s[1..], p);
    }
  }

  /** The outputs `f(xs[i], ys[i])` of a loop over paired inputs, concatenated in order. */
  function Gather<A, B, U>(xs: seq<A>, ys: seq<B>, f: (A, B) -> seq<U>): seq<U>
    requires |xs| == |ys|
  {
    if |xs| == 0 then []
    else
      var n := |xs| - 1;
      Gather(xs[..n], ys[..n], f) + f(xs[n], ys[n])
  }

  /** One more iteration appends that iteration's output. */
  lemma GatherStep<A, B, U>(xs: seq<A>, ys: seq<B>, f: (A, B) -> seq<U>, i: nat)
    requires |xs| == |ys| && i < |xs|
    ensures Gather(xs[..i + 1], ys[..i + 1], f) == Gather(xs[..i], ys[..i], f) + f(xs[i], ys[i])
  {
    assert xs[..i + 1][..i] == xs[..i] && ys[..i + 1][..i] == ys[..i];
  }

  /** Running the loop over two stretches of input is running it over each in turn. */
  lemma {:induction false} GatherAppend<A, B, U>(x1: seq<A>, y1: seq<B>, x2: seq<A>, y2: seq<B>, f: (A, B) -> seq<U>)
    requires |x1| == |y1| && |x2| == |y2|
    ensures Gather(x1 + x2, y1 + y2, f) == Gather(x1, y1, f) + Gather(x2, y2, f)
    decreases |x2|
  {
    if |x2| == 0 {
      assert x1 + x2 == x1 && y1 + y2 == y1;
    } else {
      var n := |x2| - 1;
      var xs, ys := x1 + x2, y1 + y2;
      assert xs[..|xs| - 1] == x1 + x2[..n] && xs[|xs| - 1] == x2[n];
      assert ys[..|ys| - 1] == y1 + y2[..n] && ys[|ys| - 1] == y2[n];
      GatherAppend(x1, y1, x2[..n], y2[..n], f);
      calc {
        Gather(xs, ys, f);
        Gather(x1 + x2[..n], y1 + y2[..n], f) + f(x2[n], y2[n]);
        (Gather(x1, y1, f) + Gather(x2[..n], y2[..n], f)) + f(x2[n], y2[n]);
        Gather(x1, y1, f) + (Gather(x2[..n], y2[..n], f) + f(x2[n], y2[n]));
        Gather(x1, y1, f) + Gather(x2, y2, f);
      }
    }
  }

  /** At most one output per iteration gives at most one per input. */
  lemma {:induction false} GatherLength<A, B, U>(xs: seq<A>, ys: seq<B>, f: (A, B) -> seq<U>)
    requires |xs| == |ys|
    requires forall a, b :: |f(a, b)| <= 1
    ensures |Gather(xs, ys, f)| <= |xs|
  {
    if |xs| > 0 {
      GatherLength(xs[..|xs| - 1], ys[..|ys| - 1], f);
    }
  }

  /** What holds of every iteration's output holds of the whole. */
  lemma {:induction false} GatherAll<A, B, U>(xs: seq<A>, ys: seq<B>, f: (A, B) -> seq<U>, p: U -> bool)
    requires |xs| == |ys|
    requires forall a, b, u :: u in f(a, b) ==> p(u)
    ensures forall u :: u in Gather(xs, ys, f) ==> p(u)
  {
    if |xs| > 0 {
      GatherAll(xs[..|xs| - 1], ys[..|ys| - 1], f, p);
    }
  }

  /** The last value some iteration of a loop over paired inputs set, if any did. */
  function LastSome<A, B, U>(xs: seq<A>, ys: seq<B>, f: (A, B) -> Option<U>): Option<U>
    requires |xs| == |ys|
  {
    if |xs| == 0 then None
    else
      var n := |xs| - 1;
      if f(xs[n], ys[n]).Some? then f(xs[n], ys[n]) else LastSome(xs[..n], ys[..n], f)
  }

  /** One more iteration overrides the value when it sets one. */
  lemma LastSomeStep<A, B, U>(xs: seq<A>, ys: seq<B>, f: (A, B) -> Option<U>, i: nat)
    requires |xs| == |ys| && i < |xs|
    ensures LastSome(xs[..i + 1], ys[..i + 1], f) ==
              if f(xs[i], ys[i]).Some? then f(xs[i], ys[i]) else LastSome(xs[..i], ys[..i], f)
  {
    assert xs[..i + 1][..i] == xs[..i] && ys[..i + 1][..i] == ys[..i];
  }

  /**
   * The loop leaves no value exactly when no iteration set one; otherwise
   * it leaves the value of an iteration after which none set a value.
   */
  lemma {:induction false} LastSomeIsLast<A, B, U>(xs: seq<A>, ys: seq<B>, f: (A, B) -> Option<U>)
    requires |xs| == |ys|
    ensures LastSome(xs, ys, f).None? <==> forall i :: 0 <= i < |xs| ==> f(xs[i], ys[i]).None?
    ensures LastSome(xs, ys, f).Some? ==>
              exists i :: 0 <= i < |xs| && LastSome(xs, ys, f) == f(xs[i], ys[i]) &&
                          forall j :: i < j < |xs| ==> f(xs[j], ys[j]).None?
  {
    if |xs| > 0 {
      var n := |xs| - 1;
      var xi, yi := xs[..n], ys[..n];
      LastSomeIsLast(xi, yi, f);
      assert forall i :: 0 <= i < n ==> xi[i] == xs[i] && yi[i] == ys[i];
      if f(xs[n], ys[n]).None? && LastSome(xi, yi, f).Some? {
        var i :| 0 <= i < n && LastSome(xi, yi, f) == f(xi[i], yi[i]) &&
                 forall j :: i < j < n ==> f(xi[j], yi[j]).None?;
        assert LastSome(xs, ys, f) == f(xs[i], ys[i]);
      }
    }
  }
}
