/** Concatenating a function's results over a sequence, as the scans do. */
module Sequences {
  /** The concatenation of `f` over `xs`, in order. */
  function Flatten<T, U>(xs: seq<T>, f: T -> seq<U>): seq<U> {
    if xs == [] then [] else f(xs[0]) + Flatten(xs[1..], f)
  }

  lemma {:induction false} FlattenAppend<T, U>(a: seq<T>, b: seq<T>, f: T -> seq<U>)
    ensures Flatten(a + b, f) == Flatten(a, f) + Flatten(b, f)
  {
    if a == [] {
      assert a + b == b;
    } else {
      FlattenAppend(a[1..], b, f);
      assert (a + b)[1..] == a[1..] + b;
    }
  }

  lemma FlattenSingleton<T, U>(x: T, f: T -> seq<U>)
    ensures Flatten([x], f) == f(x)
  {
    assert [x][1..] == [];
  }

  /** An element `f` maps to nothing can be dropped from the middle of the sequence. */
  lemma FlattenSkip<T, U>(before: seq<T>, x: T, after: seq<T>, f: T -> seq<U>)
    requires f(x) == []
    ensures Flatten(before + [x] + after, f) == Flatten(before, f) + Flatten(after, f)
  {
    FlattenAppend(before + [x], after, f);
    FlattenAppend(before, [x], f);
    FlattenSingleton(x, f);
  }

  /** Appending `f(x)` to a prefix of `acc` followed by the flattening of `xs` gives the one of `xs + [x]`. */
  lemma FlattenStep<T, U>(acc: seq<U>, xs: seq<T>, x: T, f: T -> seq<U>, before: seq<U>, after: seq<U>)
    requires before == acc + Flatten(xs, f)
    requires after == before + f(x)
    ensures after == acc + Flatten(xs + [x], f)
  {
    FlattenAppend(xs, [x], f);
    FlattenSingleton(x, f);
    assert acc + Flatten(xs + [x], f) == acc + (Flatten(xs, f) + f(x));
  }
}
