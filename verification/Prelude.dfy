/** Shared datatypes with no counterpart of their own in the repository. */
module Prelude {

  datatype Option<+T> = None | Some(value: T)

  type Byte = x: nat | x < 256

  lemma Assoc<T>(a: seq<T>, b: seq<T>, c: seq<T>)
    ensures (a + b) + c == a + (b + c)
  {}

  lemma SameHalves<T>(a: seq<T>, b: seq<T>, c: seq<T>, d: seq<T>)
    requires |a| == |c| && a + b == c + d
    ensures a == c && b == d
  {
    assert (a + b)[..|a|] == a && (c + d)[..|c|] == c;
    assert (a + b)[|a|..] == b && (c + d)[|c|..] == d;
  }

  lemma CutBehind<T>(a: seq<T>, b: seq<T>, n: nat)
    requires |a| <= n <= |a| + |b|
    ensures (a + b)[..n] == a + b[..n - |a|] && (a + b)[n..] == b[n - |a|..]
  {}

  lemma CutInFront<T>(a: seq<T>, b: seq<T>, n: nat)
    requires n <= |a|
    ensures (a + b)[..n] == a[..n] && (a + b)[n..] == a[n..] + b
  {}

  lemma EmptyFront<T>(a: seq<T>)
    ensures [] + a == a
  {}

  /** The concatenation of a sequence of strings. */
  function Concat(parts: seq<string>): string {
    if parts == [] then "" else parts[0] + Concat(parts[1..])
  }

  lemma {:induction false} ConcatSnoc(parts: seq<string>, last: string)
    ensures Concat(parts + [last]) == Concat(parts) + last
  {
    if parts == [] {
    } else {
      assert (parts + [last])[1..] == parts[1..] + [last];
      ConcatSnoc(parts[1..], last);
    }
  }

  lemma {:induction false} ConcatAppend(a: seq<string>, b: seq<string>)
    ensures Concat(a + b) == Concat(a) + Concat(b)
  {
    if a == [] {
      assert a + b == b;
    } else {
      assert (a + b)[1..] == a[1..] + b;
      ConcatAppend(a[1..], b);
    }
  }

  /** Some groups, one after the other. */
  function Flat<T>(groups: seq<seq<T>>): seq<T> {
    if groups == [] then [] else Flat(groups[..|groups| - 1]) + groups[|groups| - 1]
  }

  lemma {:induction false} FlatSnoc<T>(groups: seq<seq<T>>, last: seq<T>)
    ensures Flat(groups + [last]) == Flat(groups) + last
  {
    assert (groups + [last])[..|groups|] == groups;
  }

  lemma {:induction false} FlatCons<T>(first: seq<T>, groups: seq<seq<T>>)
    ensures Flat([first] + groups) == first + Flat(groups)
  {
    if groups == [] {
      assert [first] + groups == [] + [first];
      FlatSnoc([], first);
    } else {
      var front, last := groups[..|groups| - 1], groups[|groups| - 1];
      FlatCons(first, front);
      assert [first] + groups == ([first] + front) + [last];
      FlatSnoc([first] + front, last);
      Assoc(first, Flat(front), last);
    }
  }
}
