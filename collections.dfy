/** The java.util list operations the core relies on, over Dafny sequences. */
module Collections {

  /** `List.remove(Object)`: drops the first element equal to `x`; a list
      without `x` is returned unchanged. */
  function RemoveFirst<T(==)>(s: seq<T>, x: T): (r: seq<T>)
  {
    if s == [] then []
    else if s[0] == x then s[1..]
    else [s[0]] + RemoveFirst(s[1..], x)
  }

  /** The index of the first occurrence of `x` in `s`. */
  function FirstIndex<T(==)>(s: seq<T>, x: T): (i: nat)
    requires x in s
    ensures i < |s| && s[i] == x
    ensures forall j :: 0 <= j < i ==> s[j] != x
  {
    if s[0] == x then 0 else 1 + FirstIndex(s[1..], x)
  }

  /** Removing an element that is present cuts exactly its first occurrence
      out and keeps the order of everything else. */
  lemma {:induction false} RemoveFirstPresent<T>(s: seq<T>, x: T)
    requires x in s
    ensures RemoveFirst(s, x) == s[..FirstIndex(s, x)] + s[FirstIndex(s, x) + 1..]
    ensures |RemoveFirst(s, x)| == |s| - 1
  {
    if s[0] != x {
      RemoveFirstPresent(s[1..], x);
      assert s[1..][..FirstIndex(s[1..], x)] == s[1..FirstIndex(s, x)];
      assert [s[0]] + s[1..FirstIndex(s, x)] == s[..FirstIndex(s, x)];
    }
  }

  /** Removing an element that is absent changes nothing. */
  lemma {:induction false} RemoveFirstAbsent<T>(s: seq<T>, x: T)
    requires x !in s
    ensures RemoveFirst(s, x) == s
  {
    if s != [] {
      RemoveFirstAbsent(s[1..], x);
    }
  }

  /** `Collection.removeAll(xs...)`: drops every occurrence of every element
      of `xs`, keeping the order of the rest. */
  function RemoveAll<T(==)>(s: seq<T>, xs: set<T>): (r: seq<T>)
  {
    if s == [] then []
    else if s[0] in xs then RemoveAll(s[1..], xs)
    else [s[0]] + RemoveAll(s[1..], xs)
  }

  /** After `removeAll`, none of the removed values is left, and an element
      survives exactly when it is in the list and not removed. */
  lemma {:induction false} RemoveAllContents<T>(s: seq<T>, xs: set<T>, y: T)
    ensures y in RemoveAll(s, xs) <==> y in s && y !in xs
  {
    if s != [] {
      RemoveAllContents(s[1..], xs, y);
      assert s == [s[0]] + s[1..];
    }
  }

  /** `removeAll` distributes over concatenation. */
  lemma {:induction false} RemoveAllAppend<T>(s: seq<T>, t: seq<T>, xs: set<T>)
    ensures RemoveAll(s + t, xs) == RemoveAll(s, xs) + RemoveAll(t, xs)
  {
    if s == [] {
      assert s + t == t;
    } else {
      RemoveAllAppend(s[1..], t, xs);
      assert (s + t)[0] == s[0];
      assert (s + t)[1..] == s[1..] + t;
    }
  }

  /** A second `removeAll` of the same values finds nothing left to remove. */
  lemma {:induction false} RemoveAllTwice<T>(s: seq<T>, xs: set<T>)
    ensures RemoveAll(RemoveAll(s, xs), xs) == RemoveAll(s, xs)
  {
    if s != [] {
      RemoveAllTwice(s[1..], xs);
      if s[0] !in xs {
        var rest := RemoveAll(s[1..], xs);
        assert ([s[0]] + rest)[0] == s[0];
        assert ([s[0]] + rest)[1..] == rest;
      }
    }
  }

  /** The number of occurrences of `x` in `s`. */
  function Count<T(==)>(s: seq<T>, x: T): (n: nat)
    ensures n <= |s|
    ensures n == 0 <==> x !in s
  {
    if s == [] then 0 else (if s[0] == x then 1 else 0) + Count(s[1..], x)
  }

  lemma {:induction false} CountAppend<T>(s: seq<T>, t: seq<T>, x: T)
    ensures Count(s + t, x) == Count(s, x) + Count(t, x)
  {
    if s == [] {
      assert s + t == t;
    } else {
      CountAppend(s[1..], t, x);
      assert (s + t)[0] == s[0];
      assert (s + t)[1..] == s[1..] + t;
    }
  }

  /** The sum of a sequence of integers. */
  function Sum(s: seq<int>): int
  {
    if s == [] then 0 else Sum(s[..|s| - 1]) + s[|s| - 1]
  }
}
