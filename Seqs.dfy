/** `Array.prototype.filter` and the facts about it that the page filters,
    the difficulty counts and the delete update rely on; and
    `Array.prototype.map` with a callback that may throw. */
module Seqs {
  import opened Maybe

  /** `xs` is `ys` with some elements left out and the rest in their order. */
  ghost predicate IsSubsequence<T>(xs: seq<T>, ys: seq<T>)
    decreases |ys|
  {
    if xs == [] then true
    else if ys == [] then false
    else (xs[0] == ys[0] && IsSubsequence(xs[1..], ys[1..])) || IsSubsequence(xs, ys[1..])
  }

  /** `s.filter(keep)`: the elements of `s` that `keep` accepts, in order. */
  function Filter<T>(s: seq<T>, keep: T -> bool): (r: seq<T>)
    ensures |r| <= |s|
    ensures forall i :: 0 <= i < |r| ==> r[i] in s && keep(r[i])
    ensures forall i :: 0 <= i < |s| && keep(s[i]) ==> s[i] in r
  {
    if s == [] then []
    else if keep(s[0]) then [s[0]] + Filter(s[1..], keep)
    else Filter(s[1..], keep)
  }

  /** Both predicates at once, as two chained `filter` calls apply them. */
  function Both<T>(a: T -> bool, b: T -> bool): T -> bool {
    x => a(x) && b(x)
  }

  /** Either predicate, for counting two disjoint filters together. */
  function Either<T>(a: T -> bool, b: T -> bool): T -> bool {
    x => a(x) || b(x)
  }

  lemma {:induction false} FilterIsSubsequence<T>(s: seq<T>, keep: T -> bool)
    ensures IsSubsequence(Filter(s, keep), s)
  {
    if s != [] {
      FilterIsSubsequence(s[1..], keep);
      var rest := Filter(s[1..], keep);
      if keep(s[0]) {
        assert Filter(s, keep) == [s[0]] + rest;
        assert ([s[0]] + rest)[1..] == rest;
      } else {
        SkipHead(rest, s);
      }
    }
  }

  /** Dropping the head of `ys` never stops `xs` from being a subsequence of it. */
  lemma SkipHead<T>(xs: seq<T>, ys: seq<T>)
    requires ys != [] && IsSubsequence(xs, ys[1..])
    ensures IsSubsequence(xs, ys)
  {
  }

  /** A filter that accepts every element returns its input unchanged. */
  lemma {:induction false} FilterKeepsAll<T>(s: seq<T>, keep: T -> bool)
    requires forall x :: x in s ==> keep(x)
    ensures Filter(s, keep) == s
  {
    if s != [] {
      FilterKeepsAll(s[1..], keep);
    }
  }

  /** A filter that accepts no element returns the empty list. */
  lemma FilterKeepsNone<T>(s: seq<T>, keep: T -> bool)
    requires forall x :: x in s ==> !keep(x)
    ensures Filter(s, keep) == []
  {
  }

  /** Two predicates that agree on the elements of `s` filter it alike. */
  lemma {:induction false} FilterAgree<T>(s: seq<T>, a: T -> bool, b: T -> bool)
    requires forall x :: x in s ==> a(x) == b(x)
    ensures Filter(s, a) == Filter(s, b)
  {
    if s != [] {
      FilterAgree(s[1..], a, b);
    }
  }

  /** Filtering twice is filtering once by both predicates. */
  lemma {:induction false} FilterTwice<T>(s: seq<T>, a: T -> bool, b: T -> bool)
    ensures Filter(Filter(s, a), b) == Filter(s, Both(a, b))
  {
    if s != [] {
      FilterTwice(s[1..], a, b);
      if a(s[0]) {
        assert Filter(s, a) == [s[0]] + Filter(s[1..], a);
        assert (Filter(s, a))[1..] == Filter(s[1..], a);
      }
    }
  }

  /** Two filters that never both accept an element together keep no more
      than the filter that accepts either. */
  lemma {:induction false} FilterDisjointCount<T>(s: seq<T>, a: T -> bool, b: T -> bool)
    requires forall x :: x in s ==> !(a(x) && b(x))
    ensures |Filter(s, a)| + |Filter(s, b)| == |Filter(s, Either(a, b))|
  {
    if s != [] {
      FilterDisjointCount(s[1..], a, b);
    }
  }

  /** Filtering `s + [x]` filters `s` and then keeps or drops `x`. */
  lemma {:induction false} FilterSnoc<T>(s: seq<T>, x: T, keep: T -> bool)
    ensures Filter(s + [x], keep) == Filter(s, keep) + (if keep(x) then [x] else [])
  {
    if s != [] {
      assert (s + [x])[1..] == s[1..] + [x];
      FilterSnoc(s[1..], x, keep);
    }
  }

  /** The positions of `s` whose element `keep` accepts. */
  ghost function Positions<T>(s: seq<T>, keep: T -> bool): set<int> {
    set i | 0 <= i < |s| && keep(s[i])
  }

  /** The positions of `s + [x]` are those of `s`, and the last one when
      `keep` accepts `x`. */
  lemma PositionsSnoc<T>(s: seq<T>, x: T, keep: T -> bool)
    ensures keep(x) ==> Positions(s + [x], keep) == Positions(s, keep) + {|s|}
    ensures !keep(x) ==> Positions(s + [x], keep) == Positions(s, keep)
    ensures |s| !in Positions(s, keep)
  {
    assert forall i :: 0 <= i < |s| ==> (s + [x])[i] == s[i];
  }

  /** The filter keeps as many elements as there are positions of `s` whose
      element `keep` accepts. */
  lemma {:induction false} FilterCountsPositions<T>(s: seq<T>, keep: T -> bool)
    ensures |Filter(s, keep)| == |Positions(s, keep)|
    decreases |s|
  {
    if s == [] {
      assert Positions(s, keep) == {};
    } else {
      var init, x := s[..|s| - 1], s[|s| - 1];
      assert s == init + [x];
      FilterSnoc(init, x, keep);
      FilterCountsPositions(init, keep);
      PositionsSnoc(init, x, keep);
    }
  }

  /** `xs.map(f)` with a callback that may throw: `f` gets each element with
      its index (`offset + k` for `xs[k]`), and the first `Err` stops the map
      with that error. */
  function MapOrFail<A, B, E>(xs: seq<A>, f: (A, nat) -> Result<B, E>, offset: nat): (r: Result<seq<B>, E>)
    ensures r.Ok? ==> |r.value| == |xs|
    decreases |xs|
  {
    if xs == [] then Ok([])
    else
      match f(xs[0], offset)
      case Err(e) => Err(e)
      case Ok(y) =>
        match MapOrFail(xs[1..], f, offset + 1)
        case Err(e) => Err(e)
        case Ok(ys) => Ok([y] + ys)
  }

  /** The map succeeds exactly when the callback succeeds on every element,
      and then each result element is the callback's value there. */
  lemma {:induction false} MapOrFailSucceeds<A, B, E>(xs: seq<A>, f: (A, nat) -> Result<B, E>, offset: nat)
    ensures MapOrFail(xs, f, offset).Ok? <==> forall k :: 0 <= k < |xs| ==> f(xs[k], offset + k).Ok?
    ensures MapOrFail(xs, f, offset).Ok? ==>
      forall k :: 0 <= k < |xs| ==> f(xs[k], offset + k) == Ok(MapOrFail(xs, f, offset).value[k])
    decreases |xs|
  {
    if xs != [] {
      MapOrFailSucceeds(xs[1..], f, offset + 1);
      assert forall k :: 1 <= k < |xs| ==> xs[k] == xs[1..][k - 1];
    }
  }

  /** A failing map fails with the callback's error on the first element it
      rejects. */
  lemma {:induction false} MapOrFailStopsAtFirst<A, B, E>(xs: seq<A>, f: (A, nat) -> Result<B, E>, offset: nat)
    requires MapOrFail(xs, f, offset).Err?
    ensures exists k :: 0 <= k < |xs| && f(xs[k], offset + k) == Err(MapOrFail(xs, f, offset).error)
                        && (forall j :: 0 <= j < k ==> f(xs[j], offset + j).Ok?)
    decreases |xs|
  {
    if f(xs[0], offset).Ok? {
      var tail := xs[1..];
      MapOrFailStopsAtFirst(tail, f, offset + 1);
      var k :| 0 <= k < |tail| && f(tail[k], offset + 1 + k) == Err(MapOrFail(tail, f, offset + 1).error)
               && (forall j :: 0 <= j < k ==> f(tail[j], offset + 1 + j).Ok?);
      assert xs[k + 1] == tail[k];
      forall j | 0 <= j < k + 1
        ensures f(xs[j], offset + j).Ok?
      {
        if j > 0 {
          assert xs[j] == tail[j - 1];
        }
      }
    } else {
      assert f(xs[0], offset + 0) == Err(MapOrFail(xs, f, offset).error);
    }
  }
}
