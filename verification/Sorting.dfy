/** Sorting as the two languages' libraries promise it, and why a sorted result is canonical. */
module Sorting {
  /** The order is total and transitive on these elements. */
  ghost predicate Orders<T>(le: (T, T) -> bool, s: seq<T>) {
    && (forall x, y | x in s && y in s :: le(x, y) || le(y, x))
    && (forall x, y, z | x in s && y in s && z in s :: le(x, y) && le(y, z) ==> le(x, z))
  }

  ghost predicate Sorted<T>(s: seq<T>, le: (T, T) -> bool) {
    forall i, j | 0 <= i < j < |s| :: le(s[i], s[j])
  }

  function Insert<T>(x: T, s: seq<T>, le: (T, T) -> bool): seq<T> {
    if s == [] || le(x, s[0]) then [x] + s else [s[0]] + Insert(x, s[1..], le)
  }

  function Sort<T>(s: seq<T>, le: (T, T) -> bool): seq<T> {
    if s == [] then [] else Insert(s[0], Sort(s[1..], le), le)
  }

  lemma {:induction false} InsertKeepsElements<T>(x: T, s: seq<T>, le: (T, T) -> bool)
    ensures multiset(Insert(x, s, le)) == multiset(s) + multiset{x}
  {
    if s != [] && !le(x, s[0]) {
      InsertKeepsElements(x, s[1..], le);
      assert s == [s[0]] + s[1..];
    }
  }

  lemma {:induction false} SortKeepsElements<T>(s: seq<T>, le: (T, T) -> bool)
    ensures multiset(Sort(s, le)) == multiset(s)
    ensures |Sort(s, le)| == |s|
  {
    if s != [] {
      SortKeepsElements(s[1..], le);
      InsertKeepsElements(s[0], Sort(s[1..], le), le);
      assert s == [s[0]] + s[1..];
    }
    assert |multiset(Sort(s, le))| == |multiset(s)|;
  }

  lemma SameMembers<T>(s: seq<T>, t: seq<T>, x: T)
    requires multiset(s) == multiset(t)
    ensures x in s <==> x in t
  {
    assert x in s <==> x in multiset(s);
  }

  lemma {:induction false} InsertKeepsOrder<T>(x: T, s: seq<T>, le: (T, T) -> bool)
    requires Orders(le, [x] + s) && Sorted(s, le)
    ensures Sorted(Insert(x, s, le), le)
  {
    if s != [] && !le(x, s[0]) {
      var tail := Insert(x, s[1..], le);
      OrdersFewer(le, [x] + s, [x] + s[1..]);
      InsertKeepsOrder(x, s[1..], le);
      forall y | y in tail ensures le(s[0], y) {
        InsertKeepsElements(x, s[1..], le);
        SameMembers(tail, s[1..] + [x], y);
      }
    }
  }

  lemma OrdersFewer<T>(le: (T, T) -> bool, s: seq<T>, t: seq<T>)
    requires Orders(le, s) && forall x | x in t :: x in s
    ensures Orders(le, t)
  {
  }

  lemma {:induction false} SortSorts<T>(s: seq<T>, le: (T, T) -> bool)
    requires Orders(le, s)
    ensures Sorted(Sort(s, le), le)
  {
    if s != [] {
      OrdersFewer(le, s, s[1..]);
      SortSorts(s[1..], le);
      SortKeepsElements(s[1..], le);
      forall x | x in [s[0]] + Sort(s[1..], le) ensures x in s {
        SameMembers(Sort(s[1..], le), s[1..], x);
      }
      OrdersFewer(le, s, [s[0]] + Sort(s[1..], le));
      InsertKeepsOrder(s[0], Sort(s[1..], le), le);
    }
  }

  /** Ties in the order are ties in the list: two elements that tie are equal. */
  ghost predicate NoTies<T>(s: seq<T>, le: (T, T) -> bool) {
    forall x, y | x in s && y in s && le(x, y) && le(y, x) :: x == y
  }

  lemma SortedHead<T>(s: seq<T>, le: (T, T) -> bool, x: T)
    requires Sorted(s, le) && x in s
    ensures x == s[0] || le(s[0], x)
  {
    var i :| 0 <= i < |s| && s[i] == x;
  }

  lemma SameHead<T>(s: seq<T>, t: seq<T>, le: (T, T) -> bool)
    requires multiset(s) == multiset(t) && Sorted(s, le) && Sorted(t, le) && NoTies(s, le)
    requires s != [] && t != []
    ensures s[0] == t[0]
  {
    SameMembers(s, t, s[0]);
    SameMembers(s, t, t[0]);
    SortedHead(s, le, t[0]);
    SortedHead(t, le, s[0]);
  }

  lemma Behead<T>(s: seq<T>)
    requires s != []
    ensures s == [s[0]] + s[1..]
    ensures multiset(s[1..]) == multiset(s) - multiset{s[0]}
  {
    assert s == [s[0]] + s[1..];
  }

  /** A list without ties has one sorted rearrangement. */
  lemma {:induction false} OneSortedForm<T>(s: seq<T>, t: seq<T>, le: (T, T) -> bool)
    requires multiset(s) == multiset(t) && Sorted(s, le) && Sorted(t, le) && NoTies(s, le)
    ensures s == t
  {
    assert |multiset(s)| == |multiset(t)|;
    if s != [] {
      SameHead(s, t, le);
      Behead(s);
      Behead(t);
      OneSortedForm(s[1..], t[1..], le);
    }
  }

  /** Sorts in place.  Which order elements that tie end in is not promised. */
  method SortSlice<T>(a: array<T>, le: (T, T) -> bool)
    requires Orders(le, a[..])
    modifies a
    ensures multiset(a[..]) == multiset(old(a[..]))
    ensures Sorted(a[..], le)
  {
    hide Sort;
    var sorted := Sort(a[..], le);
    SortKeepsElements(a[..], le);
    SortSorts(a[..], le);
    for i := 0 to a.Length
      invariant a[..i] == sorted[..i] && |sorted| == a.Length
    {
      a[i] := sorted[i];
    }
    assert a[..a.Length] == a[..] && sorted[..a.Length] == sorted;
  }

  // ---- text, in the order of its characters ----

  predicate TextLe(s: string, t: string) {
    s == [] || (t != [] && (s[0] < t[0] || (s[0] == t[0] && TextLe(s[1..], t[1..]))))
  }

  lemma {:induction false} TextLeTotal(s: string, t: string)
    ensures TextLe(s, t) || TextLe(t, s)
    ensures TextLe(s, t) && TextLe(t, s) ==> s == t
  {
    if s != [] && t != [] {
      TextLeTotal(s[1..], t[1..]);
      assert s == [s[0]] + s[1..] && t == [t[0]] + t[1..];
    }
  }

  lemma {:induction false} TextLeTransitive(s: string, t: string, u: string)
    requires TextLe(s, t) && TextLe(t, u)
    ensures TextLe(s, u)
  {
    if s != [] && t != [] && u != [] && s[0] == t[0] == u[0] {
      TextLeTransitive(s[1..], t[1..], u[1..]);
    }
  }

  /** The order of texts: one begins the other, or at the first place where they differ it has the smaller
      character. */
  lemma {:induction false} TextLeMeans(s: string, t: string)
    ensures TextLe(s, t)
       <==> s <= t || exists n | 0 <= n < |s| && n < |t| :: s[..n] == t[..n] && s[n] < t[n]
  {
    if s != [] && t != [] {
      TextLeMeans(s[1..], t[1..]);
      if n :| 0 <= n < |s| - 1 && n < |t| - 1 && s[0] == t[0] && s[1..][..n] == t[1..][..n] && s[1..][n] < t[1..][n] {
        assert s[..n + 1] == [s[0]] + s[1..][..n] && t[..n + 1] == [t[0]] + t[1..][..n];
        assert s[n + 1] < t[n + 1];
      }
      if n :| 0 < n < |s| && n < |t| && s[..n] == t[..n] && s[n] < t[n] {
        assert s[..n][0] == t[..n][0];
        assert s[1..][..n - 1] == s[..n][1..] && t[1..][..n - 1] == t[..n][1..];
        assert s[1..][n - 1] < t[1..][n - 1];
      }
      assert s <= t <==> s[0] == t[0] && s[1..] <= t[1..];
      assert s[0] < t[0] ==> s[..0] == t[..0];
    }
  }

  lemma TextOrder(texts: seq<string>)
    ensures Orders(TextLe, texts)
  {
    forall s, t ensures TextLe(s, t) || TextLe(t, s) { TextLeTotal(s, t); }
    forall s, t, u | TextLe(s, t) && TextLe(t, u) ensures TextLe(s, u) { TextLeTransitive(s, t, u); }
  }

  // ---- sets of numbers as ascending lists ----

  ghost predicate Ascending(s: seq<int>) {
    forall i, j | 0 <= i < j < |s| :: s[i] < s[j]
  }

  function Place(x: int, s: seq<int>): seq<int> {
    if s == [] || x < s[0] then [x] + s
    else if x == s[0] then s
    else [s[0]] + Place(x, s[1..])
  }

  /** `sorted(set(s))`. */
  function SortedSet(s: seq<int>): seq<int> {
    if s == [] then [] else Place(s[0], SortedSet(s[1..]))
  }

  lemma HeadAndTail<T>(s: seq<T>, y: T)
    requires s != []
    ensures y in s <==> y == s[0] || y in s[1..]
  {
    assert s == [s[0]] + s[1..];
  }

  lemma {:induction false} PlaceMembers(x: int, s: seq<int>, y: int)
    ensures y in Place(x, s) <==> y == x || y in s
  {
    if s != [] {
      HeadAndTail(s, y);
      PlaceMembers(x, s[1..], y);
    }
  }

  lemma {:induction false} PlaceAscends(x: int, s: seq<int>)
    requires Ascending(s)
    ensures Ascending(Place(x, s))
  {
    if s != [] && x > s[0] {
      var tail := Place(x, s[1..]);
      PlaceAscends(x, s[1..]);
      forall i | 0 <= i < |tail| ensures s[0] < tail[i] {
        PlaceMembers(x, s[1..], tail[i]);
      }
    }
  }

  lemma {:induction false} SortedSetMembers(s: seq<int>, y: int)
    ensures y in SortedSet(s) <==> y in s
  {
    if s != [] {
      HeadAndTail(s, y);
      SortedSetMembers(s[1..], y);
      PlaceMembers(s[0], SortedSet(s[1..]), y);
    }
  }

  lemma {:induction false} SortedSetAscends(s: seq<int>)
    ensures Ascending(SortedSet(s))
  {
    if s != [] {
      SortedSetAscends(s[1..]);
      PlaceAscends(s[0], SortedSet(s[1..]));
    }
  }

  /** A set of numbers has one ascending list. */
  lemma {:induction false} OneAscendingForm(s: seq<int>, t: seq<int>)
    requires Ascending(s) && Ascending(t) && forall y :: y in s <==> y in t
    ensures s == t
  {
    assert s != [] ==> s[0] in s;
    assert t != [] ==> t[0] in t;
    if s != [] && t != [] {
      assert s[0] == t[0];
      forall y ensures y in s[1..] <==> y in t[1..] {
        HeadAndTail(s, y);
        HeadAndTail(t, y);
      }
      OneAscendingForm(s[1..], t[1..]);
      assert s == [s[0]] + s[1..] && t == [t[0]] + t[1..];
    }
  }
}
