/** Types and sequence facts shared by every other module. */
module Primitives {

  datatype Option<+T> = None | Some(value: T)

  datatype Result<+T, +E> = Ok(value: T) | Err(error: E)

  const U32_RANGE := 0x1_0000_0000

  type byte = x: int | 0 <= x < 256
  type u32 = x: int | 0 <= x < U32_RANGE

  function Min(a: int, b: int): int {
    if a < b then a else b
  }

  function Max(a: int, b: int): int {
    if a < b then b else a
  }

  function Lookup<K, V>(m: map<K, V>, k: K): Option<V> {
    if k in m then Some(m[k]) else None
  }

  /** The elements of `xs` that satisfy `p`, in order. */
  function Filter<T>(p: T -> bool, xs: seq<T>): (ys: seq<T>)
    ensures |ys| <= |xs|
  {
    if xs == [] then []
    else
      var rest := Filter(p, xs[..|xs| - 1]);
      if p(xs[|xs| - 1]) then rest + [xs[|xs| - 1]] else rest
  }

  lemma FilterAppend<T>(p: T -> bool, xs: seq<T>, x: T)
    ensures Filter(p, xs + [x]) == Filter(p, xs) + (if p(x) then [x] else [])
  {
    assert (xs + [x])[..|xs|] == xs;
  }

  lemma {:induction false} FilterMember<T>(p: T -> bool, xs: seq<T>, x: T)
    ensures x in Filter(p, xs) <==> x in xs && p(x)
  {
    if xs != [] {
      FilterMember(p, xs[..|xs| - 1], x);
      assert xs == xs[..|xs| - 1] + [xs[|xs| - 1]];
    }
  }

  /** The filtered prefix is a prefix of the filtered whole, and what follows it starts with the next element kept. */
  lemma {:induction false} FilterPrefix<T>(p: T -> bool, xs: seq<T>, n: nat)
    requires n <= |xs|
    ensures Filter(p, xs[..n]) <= Filter(p, xs)
    ensures n < |xs| && p(xs[n]) ==>
              |Filter(p, xs[..n])| < |Filter(p, xs)| && Filter(p, xs)[|Filter(p, xs[..n])|] == xs[n]
  {
    if n == |xs| {
      assert xs[..n] == xs;
    } else {
      var front := xs[..|xs| - 1];
      FilterPrefix(p, front, n);
      assert front[..n] == xs[..n];
    }
  }

  /** Replacing an element without changing whether it is kept replaces it at its rank, or does nothing. */
  lemma {:induction false} FilterUpdate<T>(p: T -> bool, xs: seq<T>, i: nat, x: T)
    requires i < |xs| && p(x) == p(xs[i])
    ensures p(x) ==> |Filter(p, xs[..i])| < |Filter(p, xs)|
    ensures Filter(p, xs[i := x]) ==
            if p(x) then Filter(p, xs)[|Filter(p, xs[..i])| := x] else Filter(p, xs)
  {
    var last := |xs| - 1;
    var front := xs[..last];
    if i == last {
      assert xs[i := x] == front + [x];
      FilterAppend(p, front, x);
    } else {
      FilterUpdate(p, front, i, x);
      assert front[..i] == xs[..i];
      var xs' := xs[i := x];
      assert xs'[..last] == front[i := x] && xs'[last] == xs[last];
      assert Filter(p, xs') == Filter(p, front[i := x]) + (if p(xs[last]) then [xs[last]] else []);
      assert Filter(p, xs) == Filter(p, front) + (if p(xs[last]) then [xs[last]] else []);
    }
  }
}
