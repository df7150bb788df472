/** The order in which the collector tries its routes: `order_routes`, and what a sequence of
    unsuccessful attempts visits. */
module Rotation {
  import opened Sequences
  import opened Wrappers

  datatype Route = Route(key: string, name: string, url: string)

  /** Where the rotation of one account and credential stands. */
  datatype Position = Position(cursor: nat, lastRoute: Option<string>, preferred: Option<string>)

  const START := Position(0, None, None)

  predicate Generates(r: Route) { "generator:" <= r.key }

  function Rotated(routes: seq<Route>, cursor: nat): seq<Route>
    requires routes != []
  {
    var c := cursor % |routes|;
    routes[c..] + routes[..c]
  }

  /** The preferred route, if it is still in the list. */
  function Favourite(routes: seq<Route>, at: Position): Option<Route> {
    Find(routes, (r: Route) => Some(r.key) == at.preferred)
  }

  function Ranked(routes: seq<Route>, at: Position): seq<Route>
    requires routes != []
  {
    var ordered := Rotated(routes, at.cursor);
    var preferred := Favourite(routes, at);
    var dynamic := Find(routes, Generates);
    if preferred.Some? then [preferred.value] + Filter(ordered, r => r != preferred.value)
    else if dynamic.Some? && Some(dynamic.value.key) != at.lastRoute then
      [dynamic.value] + Filter(ordered, r => r != dynamic.value)
    else ordered
  }

  function OrderRoutes(routes: seq<Route>, at: Position): seq<Route> {
    if routes == [] then []
    else
      var ordered := Ranked(routes, at);
      var unused := if |routes| > 1 then Filter(ordered, (r: Route) => Some(r.key) != at.lastRoute) else ordered;
      if |unused| > 1 then unused[..1] else unused
  }

  ghost predicate Distinct(routes: seq<Route>) {
    forall i, j | 0 <= i < j < |routes| :: routes[i].key != routes[j].key
  }

  // ---- the list of routes ----

  function Interleaved<T>(a: seq<T>, b: seq<T>): seq<T> {
    if a == [] then b else if b == [] then a else [a[0], b[0]] + Interleaved(a[1..], b[1..])
  }

  /** Where the interleaving puts the routes of either source; each source keeps its order. */
  lemma {:induction false} InterleavedAt<T>(a: seq<T>, b: seq<T>, i: nat)
    ensures |Interleaved(a, b)| == |a| + |b|
    ensures i < |a| ==> Interleaved(a, b)[if i <= |b| then 2 * i else i + |b|] == a[i]
    ensures i < |b| ==> Interleaved(a, b)[if i < |a| then 2 * i + 1 else i + |a|] == b[i]
  {
    if a != [] && b != [] {
      InterleavedAt(a[1..], b[1..], if i == 0 then 0 else i - 1);
    }
  }

  function From<T>(s: seq<T>, i: nat): seq<T> { if i <= |s| then s[i..] else [] }

  function Nth<T>(s: seq<T>, i: nat): seq<T> { if i < |s| then [s[i]] else [] }

  lemma TakeOne<T>(a: seq<T>, b: seq<T>, i: nat)
    requires i < |a| || i < |b|
    ensures Interleaved(From(a, i), From(b, i)) == Nth(a, i) + Nth(b, i) + Interleaved(From(a, i + 1), From(b, i + 1))
  {
    var x, y := From(a, i), From(b, i);
    if i < |a| { assert x[0] == a[i] && x[1..] == From(a, i + 1); }
    if i < |b| { assert y[0] == b[i] && y[1..] == From(b, i + 1); }
    assert Interleaved([], From(b, i + 1)) == From(b, i + 1);
    assert Interleaved(From(a, i + 1), []) == From(a, i + 1);
  }

  lemma AllTaken<T>(a: seq<T>, b: seq<T>)
    ensures From(a, 0) == a && From(b, 0) == b
    ensures Interleaved<T>([], []) == []
  {
  }

  /** The merge at the end of `routes_for`. */
  method MergeRoutes(generators: seq<Route>, clash: seq<Route>, ips: seq<Route>) returns (routes: seq<Route>)
    ensures routes == generators + Interleaved(clash, ips)
  {
    hide Interleaved;
    var merged, i := [], 0;
    AllTaken(clash, ips);
    while i < |clash| || i < |ips|
      invariant merged + Interleaved(From(clash, i), From(ips, i)) == Interleaved(clash, ips)
      decreases |clash| + |ips| - i
    {
      ghost var before := merged;
      if i < |clash| {
        merged := merged + [clash[i]];
      }
      if i < |ips| {
        merged := merged + [ips[i]];
      }
      TakeOne(clash, ips, i);
      assert merged == before + Nth(clash, i) + Nth(ips, i);
      i := i + 1;
    }
    assert From(clash, i) == [] && From(ips, i) == [] && merged + [] == merged;
    routes := generators + merged;
  }

  // ---- which route is chosen ----

  lemma RotatedMember(routes: seq<Route>, cursor: nat, r: Route)
    requires routes != []
    ensures r in Rotated(routes, cursor) <==> r in routes
  {
    var c := cursor % |routes|;
    assert routes == routes[..c] + routes[c..];
  }

  lemma RankedMember(routes: seq<Route>, at: Position, r: Route)
    requires routes != []
    ensures r in Ranked(routes, at) <==> r in routes
  {
    RotatedMember(routes, at.cursor, r);
    var preferred := Favourite(routes, at);
    var dynamic := Find(routes, Generates);
    if preferred.Some? {
      FilterMember(Rotated(routes, at.cursor), x => x != preferred.value, r);
    } else if dynamic.Some? {
      FilterMember(Rotated(routes, at.cursor), x => x != dynamic.value, r);
    }
  }

  /** With more than one route the next one is never the last one used, and there always is one. */
  lemma OneRoute(routes: seq<Route>, at: Position)
    requires Distinct(routes) && routes != []
    ensures |OrderRoutes(routes, at)| == 1
    ensures OrderRoutes(routes, at)[0] in routes
    ensures |routes| > 1 ==> Some(OrderRoutes(routes, at)[0].key) != at.lastRoute
  {
    hide Ranked, Filter;
    var ordered := Ranked(routes, at);
    var p := (r: Route) => Some(r.key) != at.lastRoute;
    var other := if Some(routes[0].key) != at.lastRoute || |routes| == 1 then routes[0] else routes[1];
    RankedMember(routes, at, other);
    if |routes| > 1 {
      FilterMember(ordered, p, other);
      var x := Filter(ordered, p)[0];
      FilterMember(ordered, p, x);
      RankedMember(routes, at, x);
    } else {
      RankedMember(routes, at, ordered[0]);
    }
  }

  /** The route that is tried next. */
  ghost function Choice(routes: seq<Route>, at: Position): (r: Route)
    requires Distinct(routes) && routes != []
    ensures r in routes && OrderRoutes(routes, at) == [r]
  {
    OneRoute(routes, at);
    OrderRoutes(routes, at)[0]
  }

  /** The head of the ranking is tried unless it was used last. */
  lemma HeadFirst(routes: seq<Route>, at: Position)
    requires Distinct(routes) && routes != []
    requires Ranked(routes, at) != []
    requires Some(Ranked(routes, at)[0].key) != at.lastRoute || |routes| == 1
    ensures OrderRoutes(routes, at) == [Ranked(routes, at)[0]]
  {
    hide Ranked;
  }

  lemma FavouriteFirst(routes: seq<Route>, at: Position)
    requires Distinct(routes) && Favourite(routes, at).Some? && at.preferred != at.lastRoute
    ensures OrderRoutes(routes, at) == [Favourite(routes, at).value]
  {
    HeadFirst(routes, at);
  }

  /** The route `j` places behind the cursor. */
  function InTurn(routes: seq<Route>, cursor: nat, j: nat): Route
    requires routes != []
  {
    routes[(cursor % |routes| + j) % |routes|]
  }

  lemma RotatedAt(routes: seq<Route>, cursor: nat, j: nat)
    requires j < |routes|
    ensures |Rotated(routes, cursor)| == |routes|
    ensures Rotated(routes, cursor)[j] == InTurn(routes, cursor, j)
  {
    var n := |routes|;
    var k := cursor % n + j;
    if k < n { Remainder(k, n, 0, k); } else { Remainder(k, n, 1, k - n); }
  }

  lemma Remainder(x: int, n: int, q: int, r: int)
    requires n > 0 && x == n * q + r && 0 <= r < n
    ensures x % n == r
  {
    var e := x / n - q;
    assert x == n * (x / n) + x % n;
    assert n * e == r - x % n;
    assert e > 0 ==> n * e >= n;
    assert e < 0 ==> n * e <= -n;
  }

  /** From the cursor on, the first route that was not used last. */
  ghost predicate NextInTurn(routes: seq<Route>, at: Position, r: Route) {
    routes != [] && exists j | 0 <= j < |routes| ::
      && r == InTurn(routes, at.cursor, j) && Some(r.key) != at.lastRoute
      && forall i | 0 <= i < j :: Some(InTurn(routes, at.cursor, i).key) == at.lastRoute
  }

  lemma {:induction false} FirstMatch<T>(s: seq<T>, p: T -> bool) returns (j: nat)
    requires exists x | x in s :: p(x)
    ensures j < |s| && p(s[j]) && forall i | 0 <= i < j :: !p(s[i])
  {
    if p(s[0]) {
      j := 0;
    } else {
      j := FirstMatch(s[1..], p);
      j := j + 1;
      assert forall i | 0 < i < j :: s[i] == s[1..][i - 1];
    }
  }

  lemma TurnOfRotation(routes: seq<Route>, at: Position, r: Route)
    requires Distinct(routes) && |routes| > 1
    requires Filter(Rotated(routes, at.cursor), (x: Route) => Some(x.key) != at.lastRoute) != []
    requires r == Filter(Rotated(routes, at.cursor), (x: Route) => Some(x.key) != at.lastRoute)[0]
    ensures NextInTurn(routes, at, r)
  {
    hide Filter, Rotated, InTurn, Distinct;
    var p := (x: Route) => Some(x.key) != at.lastRoute;
    var ordered := Rotated(routes, at.cursor);
    FilterMember(ordered, p, r);
    var j := FirstMatch(ordered, p);
    FilterFirst(ordered, p, j);
    RotatedAt(routes, at.cursor, 0);
    forall i | 0 <= i <= j ensures ordered[i] == InTurn(routes, at.cursor, i) {
      RotatedAt(routes, at.cursor, i);
    }
  }

  /** Which route is tried next: the preferred one if it is in the list and was not used last; without
      a preferred one, the first generator if it was not used last; otherwise the next in turn.  A list
      of one route leaves no choice. */
  lemma ChoiceExactly(routes: seq<Route>, at: Position)
    requires Distinct(routes) && |routes| > 1
    ensures var r := Choice(routes, at);
      match Favourite(routes, at)
      case Some(p) => if Some(p.key) != at.lastRoute then r == p else NextInTurn(routes, at, r)
      case None =>
        match Find(routes, Generates)
        case Some(g) => if Some(g.key) != at.lastRoute then r == g else NextInTurn(routes, at, r)
        case None => NextInTurn(routes, at, r)
  {
    hide Filter, Rotated, Distinct, NextInTurn;
    var r := Choice(routes, at);
    var p := (x: Route) => Some(x.key) != at.lastRoute;
    var f, g := Favourite(routes, at), Find(routes, Generates);
    if f.Some? {
      if Some(f.value.key) != at.lastRoute {
        HeadFirst(routes, at);
      } else {
        LastIsSkipped(routes, at, f.value);
        TurnOfRotation(routes, at, r);
      }
    } else if g.Some? && Some(g.value.key) != at.lastRoute {
      HeadFirst(routes, at);
    } else {
      assert Ranked(routes, at) == Rotated(routes, at.cursor);
      TurnOfRotation(routes, at, r);
    }
  }

  /** A preferred route that was used last makes no difference. */
  lemma LastIsSkipped(routes: seq<Route>, at: Position, f: Route)
    requires Distinct(routes) && routes != [] && Favourite(routes, at) == Some(f) && Some(f.key) == at.lastRoute
    ensures Filter(Ranked(routes, at), (x: Route) => Some(x.key) != at.lastRoute)
         == Filter(Rotated(routes, at.cursor), (x: Route) => Some(x.key) != at.lastRoute)
  {
    hide Rotated, Distinct;
    var ordered := Rotated(routes, at.cursor);
    var p := (x: Route) => Some(x.key) != at.lastRoute;
    var q := (x: Route) => x != f;
    assert Ranked(routes, at) == [f] + Filter(ordered, q);
    assert ([f] + Filter(ordered, q))[1..] == Filter(ordered, q);
    FilterTwice(ordered, q, p);
  }

  // ---- a sequence of attempts that bring nothing ----

  /** What an attempt without a capture leaves of the rotation. */
  function Missed(routes: seq<Route>, at: Position, r: Route): Position
    requires r in routes
  {
    at.(cursor := (IndexOf(routes, r) + 1) % |routes|,
        lastRoute := Some(r.key),
        preferred := if at.preferred == Some(r.key) then None else at.preferred)
  }

  ghost function Attempts(routes: seq<Route>, at: Position, k: nat): seq<Route>
    requires Distinct(routes) && routes != []
    decreases k
  {
    if k == 0 then []
    else
      var r := Choice(routes, at);
      [r] + Attempts(routes, Missed(routes, at, r), k - 1)
  }

  function After(i: nat, n: nat): nat { if i + 1 < n then i + 1 else 0 }

  lemma AfterIsModulo(i: nat, n: nat)
    requires i < n
    ensures After(i, n) == (i + 1) % n
  {
  }

  /** The last attempt was on route `i` and no preference is pending. */
  ghost predicate Rotating(routes: seq<Route>, at: Position, i: nat) {
    && i < |routes|
    && at.cursor == After(i, |routes|)
    && at.lastRoute == Some(routes[i].key)
    && Favourite(routes, at).None?
  }

  /** An attempt that brings nothing puts the cursor behind its route, remembers it as the last one, and
      drops the preference only if it was for this route. */
  lemma MissedExactly(routes: seq<Route>, at: Position, i: nat)
    requires Distinct(routes) && i < |routes|
    ensures Missed(routes, at, routes[i])
         == Position(if i + 1 == |routes| then 0 else i + 1, Some(routes[i].key),
                     if at.preferred == Some(routes[i].key) then None else at.preferred)
  {
    IndexOfDistinct(routes, i);
    AfterIsModulo(i, |routes|);
  }

  lemma IndexOfDistinct(routes: seq<Route>, i: nat)
    requires Distinct(routes) && i < |routes|
    ensures IndexOf(routes, routes[i]) == i
  {
  }

  lemma MissedRotates(routes: seq<Route>, at: Position, i: nat)
    requires Distinct(routes) && i < |routes|
    requires Favourite(routes, at).None? || at.preferred == Some(routes[i].key)
    ensures Rotating(routes, Missed(routes, at, routes[i]), i)
  {
    IndexOfDistinct(routes, i);
    AfterIsModulo(i, |routes|);
  }

  lemma RotatedHead(routes: seq<Route>, cursor: nat)
    requires cursor < |routes|
    ensures Rotated(routes, cursor) != [] && Rotated(routes, cursor)[0] == routes[cursor]
  {
  }

  lemma RotatingStep(routes: seq<Route>, at: Position, i: nat)
    requires Distinct(routes) && |routes| > 1 && Find(routes, Generates).None?
    requires Rotating(routes, at, i)
    ensures OrderRoutes(routes, at) == [routes[After(i, |routes|)]]
    ensures Rotating(routes, Missed(routes, at, routes[After(i, |routes|)]), After(i, |routes|))
  {
    var j := After(i, |routes|);
    RotatedHead(routes, j);
    HeadFirst(routes, at);
    MissedRotates(routes, at, j);
  }

  /** How far behind `i` route `j` comes up: 1 for the next one, n for `i` itself. */
  function Distance(i: nat, j: nat, n: nat): nat
    requires i < n && j < n
  {
    if j > i then j - i else j + n - i
  }

  lemma AttemptsUnfold(routes: seq<Route>, at: Position, k: nat, r: Route)
    requires Distinct(routes) && k > 0 && r in routes && OrderRoutes(routes, at) == [r]
    ensures Attempts(routes, at, k) == [r] + Attempts(routes, Missed(routes, at, r), k - 1)
  {
    hide OrderRoutes, Missed, Distinct;
  }

  lemma {:induction false} RotatingCovers(routes: seq<Route>, at: Position, i: nat, j: nat, k: nat)
    requires Distinct(routes) && |routes| > 1 && Find(routes, Generates).None?
    requires i < |routes| && j < |routes| && Rotating(routes, at, i) && Distance(i, j, |routes|) <= k
    ensures routes[j] in Attempts(routes, at, k)
    decreases k
  {
    hide OrderRoutes, Missed, Favourite, Rotating, Attempts, Distinct, Find;
    var next := After(i, |routes|);
    RotatingStep(routes, at, i);
    AttemptsUnfold(routes, at, k, routes[next]);
    if next != j {
      RotatingCovers(routes, Missed(routes, at, routes[next]), next, j, k - 1);
    }
  }

  lemma FairFromFavourite(routes: seq<Route>, at: Position, j: nat)
    requires Distinct(routes) && |routes| > 1 && Find(routes, Generates).None?
    requires Favourite(routes, at).Some? && at.preferred != at.lastRoute && j < |routes|
    ensures routes[j] in Attempts(routes, at, |routes|)
  {
    hide OrderRoutes, Missed, Favourite, Rotating, Attempts, Distinct, Find;
    FavouriteKey(routes, at);
    FavouriteFirst(routes, at);
    var p := Favourite(routes, at).value;
    var spot := IndexOf(routes, p);
    AttemptsUnfold(routes, at, |routes|, p);
    MissedRotates(routes, at, spot);
    if spot != j {
      RotatingCovers(routes, Missed(routes, at, p), spot, j, |routes| - 1);
    }
  }

  lemma FairAfterFirst(routes: seq<Route>, at: Position, i: nat, j: nat)
    requires Distinct(routes) && |routes| > 1 && Find(routes, Generates).None?
    requires i < |routes| && j < |routes|
    ensures routes[j] in Attempts(routes, Missed(routes, at, routes[i]), |routes|)
  {
    hide OrderRoutes, Missed, Favourite, Rotating, Attempts, Distinct, Find;
    var next := Missed(routes, at, routes[i]);
    MissedShape(routes, at, i);
    if Favourite(routes, next).None? {
      FavouriteGone(routes, at, i);
      MissedRotates(routes, at, i);
      RotatingCovers(routes, next, i, j, |routes|);
    } else {
      FairFromFavourite(routes, next, j);
    }
  }

  lemma MissedShape(routes: seq<Route>, at: Position, i: nat)
    requires i < |routes|
    ensures Missed(routes, at, routes[i]).lastRoute == Some(routes[i].key)
    ensures Missed(routes, at, routes[i]).preferred != Some(routes[i].key)
  {
  }

  lemma FavouriteKey(routes: seq<Route>, at: Position)
    requires Favourite(routes, at).Some?
    ensures Favourite(routes, at).value in routes && at.preferred == Some(Favourite(routes, at).value.key)
  {
  }

  lemma FavouriteGone(routes: seq<Route>, at: Position, i: nat)
    requires i < |routes| && Favourite(routes, Missed(routes, at, routes[i])).None?
    ensures Favourite(routes, at).None? || at.preferred == Some(routes[i].key)
  {
  }

  /** Rotation fairness: without a generator, from any state, every route is tried within n + 1
      attempts that bring nothing. */
  lemma Fairness(routes: seq<Route>, at: Position, r: Route)
    requires Distinct(routes) && Find(routes, Generates).None? && r in routes
    ensures r in Attempts(routes, at, |routes| + 1)
  {
    hide OrderRoutes, Missed, Find, Distinct;
    OneRoute(routes, at);
    if |routes| > 1 {
      var i := IndexOf(routes, OrderRoutes(routes, at)[0]);
      FairAfterFirst(routes, at, i, IndexOf(routes, r));
    }
  }

  // ---- lists with a generator ----

  lemma GeneratorFirst(routes: seq<Route>, at: Position)
    requires Distinct(routes) && Find(routes, Generates).Some? && Favourite(routes, at).None?
    requires Some(Find(routes, Generates).value.key) != at.lastRoute
    ensures OrderRoutes(routes, at) == [Find(routes, Generates).value]
  {
    HeadFirst(routes, at);
  }

  lemma SameKey(routes: seq<Route>, r: Route, q: Route)
    requires Distinct(routes) && r in routes && q in routes && r.key == q.key
    ensures r == q
  {
  }

  lemma StaysWithoutFavourite(routes: seq<Route>, at: Position, r: Route)
    requires r in routes && Favourite(routes, at).None?
    ensures Favourite(routes, Missed(routes, at, r)).None?
    ensures Missed(routes, at, r).lastRoute == Some(r.key)
  {
  }

  /** Of two consecutive attempts without a preferred route exactly one uses the first generator. */
  lemma GeneratorAlternates(routes: seq<Route>, at: Position)
    requires Distinct(routes) && |routes| > 1
    requires Find(routes, Generates).Some? && Favourite(routes, at).None?
    ensures var g, first := Find(routes, Generates).value, Choice(routes, at);
      (first == g) != (Choice(routes, Missed(routes, at, first)) == g)
  {
    hide OrderRoutes, Missed, Favourite, Choice;
    var r := Choice(routes, at);
    var g := Find(routes, Generates).value;
    OneRoute(routes, at);
    OneRoute(routes, Missed(routes, at, r));
    StaysWithoutFavourite(routes, at, r);
    if at.lastRoute == Some(g.key) {
      if r.key == g.key { SameKey(routes, r, g); }
      GeneratorFirst(routes, Missed(routes, at, r));
    } else {
      GeneratorFirst(routes, at);
    }
  }

  /** Where a list with a generator at index `i` gets stuck. */
  ghost predicate Alternating(routes: seq<Route>, at: Position, i: nat) {
    && i < |routes| && Find(routes, Generates) == Some(routes[i])
    && Favourite(routes, at).None?
    && (at.lastRoute == Some(routes[i].key) ==> at.cursor == After(i, |routes|))
  }

  lemma AlternatingStep(routes: seq<Route>, at: Position, i: nat) returns (r: Route)
    requires Distinct(routes) && |routes| > 1 && Alternating(routes, at, i)
    ensures r in routes && (r == routes[i] || r == routes[After(i, |routes|)])
    ensures OrderRoutes(routes, at) == [r]
    ensures Alternating(routes, Missed(routes, at, r), i)
  {
    hide OrderRoutes;
    var j := After(i, |routes|);
    if at.lastRoute == Some(routes[i].key) {
      r := routes[j];
      RotatedHead(routes, j);
      HeadFirst(routes, at);
    } else {
      r := routes[i];
      GeneratorFirst(routes, at);
      IndexOfDistinct(routes, i);
      AfterIsModulo(i, |routes|);
    }
    StaysWithoutFavourite(routes, at, r);
  }

  lemma {:induction false} AlternatesForever(routes: seq<Route>, at: Position, i: nat, k: nat, r: Route)
    requires Distinct(routes) && |routes| > 1 && i < |routes| && Alternating(routes, at, i)
    requires r != routes[i] && r != routes[After(i, |routes|)]
    ensures r !in Attempts(routes, at, k)
    decreases k
  {
    hide OrderRoutes, Missed, Alternating, Attempts, Distinct;
    if k > 0 {
      var q := AlternatingStep(routes, at, i);
      AttemptsUnfold(routes, at, k, q);
      AlternatesForever(routes, Missed(routes, at, q), i, k - 1, r);
    } else {
      NoAttempts(routes, at);
    }
  }

  lemma NoAttempts(routes: seq<Route>, at: Position)
    requires Distinct(routes) && routes != []
    ensures Attempts(routes, at, 0) == []
  {
  }

  /** With a generator in a list of more than two, a new account never tries a third route, however
      often it misses. */
  lemma GeneratorStarves(routes: seq<Route>, k: nat)
    returns (r: Route)
    requires Distinct(routes) && |routes| > 2 && Find(routes, Generates).Some?
    ensures r in routes && r !in Attempts(routes, START, k)
  {
    hide Attempts;
    var i := IndexOf(routes, Find(routes, Generates).value);
    var spot := After(After(i, |routes|), |routes|);
    r := routes[spot];
    AlternatesForever(routes, START, i, k, r);
  }

  lemma FairPair(routes: seq<Route>, at: Position, r: Route)
    requires Distinct(routes) && 0 < |routes| <= 2 && r in routes
    ensures r in Attempts(routes, at, |routes| + 1)
  {
    hide OrderRoutes, Missed, Attempts;
    OneRoute(routes, at);
    var first := OrderRoutes(routes, at)[0];
    var next := Missed(routes, at, first);
    MissedShape(routes, at, IndexOf(routes, first));
    OneRoute(routes, next);
    var second := OrderRoutes(routes, next)[0];
    AttemptsUnfold(routes, at, |routes| + 1, first);
    AttemptsUnfold(routes, next, |routes|, second);
  }

  /** n + 1 attempts that bring nothing visit every route. */
  ghost predicate Fair(routes: seq<Route>, at: Position)
    requires Distinct(routes) && routes != []
  {
    forall r | r in routes :: r in Attempts(routes, at, |routes| + 1)
  }

  /** Rotation is fair from every state exactly for lists without a generator and for lists of at
      most two routes. */
  lemma FairExactly(routes: seq<Route>)
    requires Distinct(routes) && routes != []
    ensures (forall at :: Fair(routes, at)) <==> Find(routes, Generates).None? || |routes| <= 2
  {
    hide Attempts;
    if Find(routes, Generates).None? || |routes| <= 2 {
      forall at ensures Fair(routes, at) {
        forall r | r in routes ensures r in Attempts(routes, at, |routes| + 1) {
          if |routes| <= 2 { FairPair(routes, at, r); } else { Fairness(routes, at, r); }
        }
      }
    } else {
      var r := GeneratorStarves(routes, |routes| + 1);
      assert !Fair(routes, START);
    }
  }
}
