/** Small vocabulary shared by every component of the gateway model. */
module Common {
  datatype Option<+T> = None | Some(value: T)

  function Max(a: nat, b: nat): nat { if a >= b then a else b }

  function Min(a: nat, b: nat): nat { if a <= b then a else b }

  /** All inner sequences, one after the other. */
  function Flatten<T>(ss: seq<seq<T>>): seq<T> {
    if ss == [] then [] else ss[0] + Flatten(ss[1..])
  }

  lemma {:induction false} FlattenAppend<T>(ss: seq<seq<T>>, last: seq<T>)
    ensures Flatten(ss + [last]) == Flatten(ss) + last
  {
    if ss == [] {
      assert ss + [last] == [last];
      assert Flatten([last]) == last + Flatten<T>([]);
    } else {
      assert (ss + [last])[1..] == ss[1..] + [last];
      FlattenAppend(ss[1..], last);
    }
  }

  /** What the elements of `xs` produce, in order. */
  function Gather<A, T>(f: A -> seq<T>, xs: seq<A>): seq<T> {
    if xs == [] then [] else f(xs[0]) + Gather(f, xs[1..])
  }

  lemma {:induction false} GatherAppend<A, T>(f: A -> seq<T>, a: seq<A>, b: seq<A>)
    ensures Gather(f, a + b) == Gather(f, a) + Gather(f, b)
  {
    if a == [] {
      assert a + b == b;
    } else {
      assert (a + b)[0] == a[0] && (a + b)[1..] == a[1..] + b;
      GatherAppend(f, a[1..], b);
    }
  }

  lemma OneGathered<A, T>(f: A -> seq<T>, x: A)
    ensures Gather(f, [x]) == f(x) && Gather(f, []) == []
  {
    assert [x][1..] == [];
  }

  function GatherAt<A, T>(f: A -> seq<T>, xs: seq<A>, i: nat): seq<T> { if i < |xs| then f(xs[i]) else [] }

  lemma {:induction false} GatherShort<A, T>(f: A -> seq<T>, xs: seq<A>)
    requires |xs| <= 3
    ensures Gather(f, xs) == GatherAt(f, xs, 0) + GatherAt(f, xs, 1) + GatherAt(f, xs, 2)
    decreases |xs|
  {
    if xs != [] {
      GatherShort(f, xs[1..]);
    }
  }
}
