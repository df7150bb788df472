/** List functions both languages have built in. */
module Sequences {
  import opened Wrappers

  function Filter<T>(s: seq<T>, p: T -> bool): seq<T> {
    if s == [] then []
    else if p(s[0]) then [s[0]] + Filter(s[1..], p)
    else Filter(s[1..], p)
  }

  function Find<T>(s: seq<T>, p: T -> bool): (found: Option<T>)
    ensures found.None? <==> forall x | x in s :: !p(x)
    ensures found.Some? ==> found.value in s && p(found.value)
  {
    if s == [] then None
    else if p(s[0]) then Some(s[0])
    else Find(s[1..], p)
  }

  lemma {:induction false} FindIsFirst<T>(s: seq<T>, p: T -> bool)
    requires Find(s, p).Some?
    ensures exists i | 0 <= i < |s| :: s[i] == Find(s, p).value && forall j | 0 <= j < i :: !p(s[j])
  {
    if !p(s[0]) {
      FindIsFirst(s[1..], p);
      var i :| 0 <= i < |s| - 1 && s[1..][i] == Find(s[1..], p).value && forall j | 0 <= j < i :: !p(s[1..][j]);
      assert s[i + 1] == Find(s, p).value && forall j | 0 < j < i + 1 :: s[j] == s[1..][j - 1];
    } else {
      assert s[0] == Find(s, p).value;
    }
  }

  function IndexOf<T(==)>(s: seq<T>, x: T): (i: nat)
    requires x in s
    ensures i < |s| && s[i] == x && x !in s[..i]
  {
    if s[0] == x then 0 else IndexOf(s[1..], x) + 1
  }

  lemma {:induction false} FilterMember<T>(s: seq<T>, p: T -> bool, x: T)
    ensures x in Filter(s, p) <==> x in s && p(x)
  {
    if s != [] {
      FilterMember(s[1..], p, x);
      assert x in s <==> x == s[0] || x in s[1..];
    }
  }

  lemma {:induction false} FilterFirst<T>(s: seq<T>, p: T -> bool, j: nat)
    requires j < |s| && p(s[j]) && forall i | 0 <= i < j :: !p(s[i])
    ensures Filter(s, p) != [] && Filter(s, p)[0] == s[j]
  {
    if j > 0 {
      FilterFirst(s[1..], p, j - 1);
    }
  }

  lemma {:induction false} FilterTwice<T>(s: seq<T>, p: T -> bool, q: T -> bool)
    requires forall x | x in s && q(x) :: p(x)
    ensures Filter(Filter(s, p), q) == Filter(s, q)
  {
    if s != [] {
      FilterTwice(s[1..], p, q);
      var rest := Filter(s[1..], p);
      assert p(s[0]) ==> Filter(s, p) == [s[0]] + rest && ([s[0]] + rest)[1..] == rest;
    }
  }
}
