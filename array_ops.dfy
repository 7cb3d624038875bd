/**
 * The MongoDB array update operator `$pull` on a stored array: every element
 * equal to the given value is removed and the others keep their order.
 * (`$push` is plain concatenation, `s + [x]`.)
 */
module ArrayOps {

  function Pull<T(==, !new)>(s: seq<T>, x: T): (r: seq<T>)
    ensures x !in r
    ensures forall y :: y != x ==> multiset(r)[y] == multiset(s)[y]
    ensures |r| == |s| - multiset(s)[x]
  {
    if s == [] then []
    else
      assert s == [s[0]] + s[1..];
      var rest := Pull(s[1..], x);
      if s[0] == x then rest else [s[0]] + rest
  }

  /** Pulling a value that is not there changes nothing. */
  lemma {:induction false} PullAbsent<T(!new)>(s: seq<T>, x: T)
    requires x !in s
    ensures Pull(s, x) == s
  {
    if s != [] {
      PullAbsent(s[1..], x);
    }
  }

  /** Pulling distributes over concatenation, so the kept elements stay in order. */
  lemma {:induction false} PullConcat<T(!new)>(a: seq<T>, b: seq<T>, x: T)
    ensures Pull(a + b, x) == Pull(a, x) + Pull(b, x)
  {
    if a == [] {
      assert a + b == b;
    } else {
      assert (a + b)[1..] == a[1..] + b;
      PullConcat(a[1..], b, x);
    }
  }

  /** Pulling what was just pushed restores an array that did not hold it. */
  lemma PullUndoesPush<T(!new)>(s: seq<T>, x: T)
    requires x !in s
    ensures Pull(s + [x], x) == s
  {
    PullConcat(s, [x], x);
    PullAbsent(s, x);
  }
}
