/** Filtering, searching and mapping sequences of rows. */
module Sequences {
  import opened Wrappers

  // The row a unique column selects.
  function First<T>(s: seq<T>, p: T -> bool): (at: Option<nat>)
    ensures at.Some? ==> at.value < |s| && p(s[at.value])
    ensures at.None? ==> forall i | 0 <= i < |s| :: !p(s[i])
  {
    if s == [] then None
    else
      var front := First(s[..|s| - 1], p);
      if front.Some? then front
      else if p(s[|s| - 1]) then Some(|s| - 1) else None
  }

  function Keep<T>(s: seq<T>, p: T -> bool): (r: seq<T>)
    ensures |r| <= |s|
    ensures forall x | x in r :: x in s && p(x)
    ensures forall x | x in s && p(x) :: x in r
  {
    if s == [] then []
    else if p(s[|s| - 1]) then Keep(s[..|s| - 1], p) + [s[|s| - 1]]
    else Keep(s[..|s| - 1], p)
  }

  /** The count of the kept rows is the count of all rows exactly when every row is kept. */
  lemma {:induction false} KeptAllExactly<T>(s: seq<T>, p: T -> bool)
    ensures |Keep(s, p)| == |s| <==> forall x | x in s :: p(x)
    ensures (forall x | x in s :: p(x)) ==> Keep(s, p) == s
  {
    if s != [] {
      var front := s[..|s| - 1];
      assert s == front + [s[|s| - 1]];
      KeptAllExactly(front, p);
    }
  }

  lemma {:induction false} KeepConcat<T>(s: seq<T>, t: seq<T>, p: T -> bool)
    ensures Keep(s + t, p) == Keep(s, p) + Keep(t, p)
  {
    if t == [] {
      assert s + t == s;
    } else {
      var front, last := t[..|t| - 1], t[|t| - 1];
      assert (s + t)[..|s + t| - 1] == s + front && (s + t)[|s + t| - 1] == last;
      KeepConcat(s, front, p);
      assert Keep(s, p) + (Keep(front, p) + [last]) == Keep(s, p) + Keep(front, p) + [last];
    }
  }

  lemma KeepPush<T>(s: seq<T>, x: T, p: T -> bool)
    ensures Keep(s + [x], p) == Keep(s, p) + (if p(x) then [x] else [])
  {
    assert (s + [x])[..|s|] == s;
  }

  lemma KeepNone<T>(s: seq<T>, p: T -> bool)
    requires forall x | x in s :: !p(x)
    ensures Keep(s, p) == []
  {
    if Keep(s, p) != [] { assert Keep(s, p)[0] in Keep(s, p); }
  }

  function Map<A, B>(f: A -> B, s: seq<A>): (r: seq<B>)
    ensures |r| == |s|
  {
    seq(|s|, i requires 0 <= i < |s| => f(s[i]))
  }

  lemma MapAt<A, B>(f: A -> B, s: seq<A>, i: nat)
    requires i < |s|
    ensures Map(f, s)[i] == f(s[i])
  {
  }

  lemma MapTo<A, B>(f: A -> B, s: seq<A>, t: seq<B>)
    requires |s| == |t| && forall i | 0 <= i < |s| :: f(s[i]) == t[i]
    ensures Map(f, s) == t
  {
  }

  lemma MapPush<A, B>(f: A -> B, s: seq<A>, x: A)
    ensures Map(f, s + [x]) == Map(f, s) + [f(x)]
  {
  }
}
