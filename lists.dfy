/** Sequence facts shared by the list-keeping components. */
module Lists {

  /** `a` is obtained from `b` by deleting elements, keeping the order of the
      rest (what `Array.prototype.filter` produces). */
  predicate IsSubsequence<T(==)>(a: seq<T>, b: seq<T>)
    decreases |b|
  {
    if a == [] then true
    else if b == [] then false
    else if a[0] == b[0] then IsSubsequence(a[1..], b[1..])
    else IsSubsequence(a, b[1..])
  }

  /** Keeping the head of both sequences preserves the subsequence relation. */
  lemma SubsequenceKeep<T>(x: T, a: seq<T>, b: seq<T>)
    requires IsSubsequence(a, b)
    ensures IsSubsequence([x] + a, [x] + b)
  {
    assert ([x] + a)[1..] == a;
    assert ([x] + b)[1..] == b;
  }

  /** Putting an element in front of the larger sequence preserves the
      subsequence relation. */
  lemma {:induction false} SubsequenceSkip<T>(x: T, a: seq<T>, b: seq<T>)
    requires IsSubsequence(a, b)
    ensures IsSubsequence(a, [x] + b)
    decreases |b|, |a|, 1
  {
    assert ([x] + b)[1..] == b;
    if a != [] && a[0] == x {
      DropFirst(a, b);
    }
  }

  /** Dropping the first element of a subsequence keeps it a subsequence. */
  lemma {:induction false} DropFirst<T>(a: seq<T>, b: seq<T>)
    requires a != [] && IsSubsequence(a, b)
    ensures IsSubsequence(a[1..], b)
    decreases |b|, |a|, 0
  {
    assert b != [];
    if a[0] == b[0] {
      SubsequenceSkip(b[0], a[1..], b[1..]);
      assert [b[0]] + b[1..] == b;
    } else {
      DropFirst(a, b[1..]);
      SubsequenceSkip(b[0], a[1..], b[1..]);
      assert [b[0]] + b[1..] == b;
    }
  }
}
