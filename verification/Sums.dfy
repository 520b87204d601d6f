/** Sums of a weight over a list of keys, and the laws that regroup them. */
module Sums {
  import opened Tables

  function Sum<K>(keys: seq<K>, w: K -> int): int {
    if keys == [] then 0 else w(keys[0]) + Sum(keys[1..], w)
  }

  lemma {:induction false} SumSame<K>(keys: seq<K>, f: K -> int, g: K -> int)
    requires forall k :: k in keys ==> f(k) == g(k)
    ensures Sum(keys, f) == Sum(keys, g)
  {
    if keys != [] {
      SumSame(keys[1..], f, g);
    }
  }

  lemma {:induction false} SumAtMost<K>(keys: seq<K>, f: K -> int, g: K -> int)
    requires forall k :: k in keys ==> f(k) <= g(k)
    ensures Sum(keys, f) <= Sum(keys, g)
  {
    if keys != [] {
      SumAtMost(keys[1..], f, g);
    }
  }

  lemma {:induction false} SumPlus<K>(keys: seq<K>, f: K -> int, g: K -> int, h: K -> int)
    requires forall k :: k in keys ==> h(k) == f(k) + g(k)
    ensures Sum(keys, h) == Sum(keys, f) + Sum(keys, g)
  {
    if keys != [] {
      SumPlus(keys[1..], f, g, h);
    }
  }

  lemma {:induction false} SumZero<K>(keys: seq<K>, f: K -> int)
    requires forall k :: k in keys ==> f(k) == 0
    ensures Sum(keys, f) == 0
  {
    if keys != [] {
      SumZero(keys[1..], f);
    }
  }

  lemma {:induction false} SumConcat<K>(a: seq<K>, b: seq<K>, w: K -> int)
    ensures Sum(a + b, w) == Sum(a, w) + Sum(b, w)
  {
    if a == [] {
      assert a + b == b;
    } else {
      assert (a + b)[1..] == a[1..] + b;
      SumConcat(a[1..], b, w);
    }
  }

  lemma SumAppend<K>(keys: seq<K>, k: K, w: K -> int)
    ensures Sum(keys + [k], w) == Sum(keys, w) + w(k)
  {
    SumConcat(keys, [k], w);
  }

  /** Changing the weight of one key shifts the sum by the change. */
  lemma {:induction false} SumChange<K>(keys: seq<K>, k: K, f: K -> int, g: K -> int)
    requires NoDup(keys) && k in keys
    requires forall x :: x in keys && x != k ==> f(x) == g(x)
    ensures Sum(keys, g) == Sum(keys, f) - f(k) + g(k)
  {
    if keys[0] == k {
      assert k !in keys[1..];
      SumSame(keys[1..], f, g);
    } else {
      SumChange(keys[1..], k, f, g);
    }
  }

  lemma {:induction false} SumRemove(keys: seq<string>, k: string, w: string -> int)
    requires NoDup(keys) && k in keys
    ensures Sum(RemoveFirst(keys, k), w) == Sum(keys, w) - w(k)
  {
    if keys[0] != k {
      SumRemove(keys[1..], k, w);
      var r := RemoveFirst(keys[1..], k);
      assert RemoveFirst(keys, k)[1..] == r;
    }
  }

  /** A sum with a single possibly non-zero weight is that weight. */
  lemma SumOnly<K>(keys: seq<K>, k: K, f: K -> int)
    requires NoDup(keys) && k in keys
    requires forall x :: x in keys && x != k ==> f(x) == 0
    ensures Sum(keys, f) == f(k)
  {
    SumZero(keys, (x: K) => 0);
    SumChange(keys, k, (x: K) => 0, f);
  }

  /** Rows first or columns first: a double sum may be regrouped. */
  lemma {:induction false} SumSwap<A, B>(xs: seq<A>, ys: seq<B>, row: A -> (B -> int), col: B -> (A -> int),
                                         byX: A -> int, byY: B -> int)
    requires forall x, y :: x in xs && y in ys ==> row(x)(y) == col(y)(x)
    requires forall x :: x in xs ==> byX(x) == Sum(ys, row(x))
    requires forall y :: y in ys ==> byY(y) == Sum(xs, col(y))
    ensures Sum(xs, byX) == Sum(ys, byY)
  {
    if xs == [] {
      SumZero(ys, byY);
    } else {
      var rest := (y: B) => Sum(xs[1..], col(y));
      SumSwap(xs[1..], ys, row, col, byX, rest);
      SumPlus(ys, row(xs[0]), rest, byY);
    }
  }
}
