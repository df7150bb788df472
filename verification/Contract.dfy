/** The plugin contract: when capabilities are valid, and the canonical form of a list of them. */
module Contract {
  import opened Wrappers
  import opened Sorting

  const PROTOCOL_VERSION := 2
  const KINDS := ["hook", "provider", "event_sink", "worker"]
  const MODES := ["fail_closed", "fail_open", "async"]

  datatype Capability = Capability(id: string, kind: string, platform: string, accountType: string,
                                   permissions: seq<string>, timeout: int, mode: string, synchronous: bool)

  datatype Problem =
    | BadId | BadKind | BadTimeout | BadMode | AsyncCall | EventMode
    | BlankPermission | RepeatedPermission
    | BadInfo | RepeatedCapability

  // ---- identifiers: words, at least two, joined by single separators, then .v and a number ----

  predicate WordChar(c: char) { 'a' <= c <= 'z' || '0' <= c <= '9' }

  predicate Separator(c: char) { c == '.' || c == '_' || c == '-' }

  /** Words with single separators between them. */
  predicate IsChain(s: string) {
    && s != [] && WordChar(s[0]) && WordChar(s[|s| - 1])
    && (forall i | 0 <= i < |s| :: WordChar(s[i]) || Separator(s[i]))
    && (forall i | 0 < i < |s| :: Separator(s[i]) ==> WordChar(s[i - 1]))
  }

  predicate IsStem(s: string) { IsChain(s) && exists i | 0 <= i < |s| :: Separator(s[i]) }

  predicate IsNumber(s: string) {
    s != [] && '1' <= s[0] <= '9' && forall i | 0 <= i < |s| :: '0' <= s[i] <= '9'
  }

  predicate LegalId(s: string) {
    exists k | 0 < k <= |s| - 2 :: IsStem(s[..k]) && s[k..k + 2] == ".v" && IsNumber(s[k + 2..])
  }

  function Assembled(words: seq<string>, separators: string): string
    requires |words| == |separators| + 1
  {
    if separators == "" then words[0]
    else words[0] + [separators[0]] + Assembled(words[1..], separators[1..])
  }

  predicate IsWord(w: string) { w != "" && forall i | 0 <= i < |w| :: WordChar(w[i]) }

  ghost predicate Parts(s: string, words: seq<string>, separators: string) {
    && |words| == |separators| + 1 && s == Assembled(words, separators)
    && (forall w | w in words :: IsWord(w)) && (forall c | c in separators :: Separator(c))
  }

  lemma {:induction false} ChainHasParts(s: string) returns (words: seq<string>, separators: string)
    requires IsChain(s)
    ensures Parts(s, words, separators)
    ensures separators == "" ==> IsWord(s)
  {
    if exists k | 0 <= k < |s| :: Separator(s[k]) {
      var k := FirstSeparator(s, 0);
      var rest, others := ChainHasParts(s[k + 1..]);
      words, separators := [s[..k]] + rest, [s[k]] + others;
      assert words[1..] == rest && separators[1..] == others;
      assert s == s[..k] + [s[k]] + s[k + 1..];
    } else {
      words, separators := [s], "";
    }
  }

  lemma FirstSeparator(s: string, n: nat) returns (k: nat)
    requires n <= |s| && (forall i | 0 <= i < n :: !Separator(s[i])) && exists i | 0 <= i < |s| :: Separator(s[i])
    ensures k < |s| && Separator(s[k]) && forall i | 0 <= i < k :: !Separator(s[i])
    decreases |s| - n
  {
    k := n;
    if !Separator(s[n]) { k := FirstSeparator(s, n + 1); }
  }

  lemma {:induction false} PartsChain(s: string, words: seq<string>, separators: string)
    requires Parts(s, words, separators)
    ensures IsChain(s)
    ensures separators != "" ==> exists k | 0 <= k < |s| :: Separator(s[k])
    decreases |separators|
  {
    var w := words[0];
    assert w in words && IsWord(w);
    if separators != "" {
      var rest := Assembled(words[1..], separators[1..]);
      assert separators[0] in separators;
      PartsChain(rest, words[1..], separators[1..]);
      assert s == w + [separators[0]] + rest;
      assert s[|w|] == separators[0];
      forall i | |w| < i < |s| ensures s[i] == rest[i - |w| - 1] { }
    }
  }

  /** Two or more words with single separators between them, then `.v`, then a number without a leading
      zero. */
  ghost predicate Spelled(id: string, words: seq<string>, separators: string, number: string) {
    && |words| >= 2 && |words| == |separators| + 1
    && (forall w | w in words :: IsWord(w)) && (forall c | c in separators :: Separator(c))
    && number != "" && '1' <= number[0] <= '9' && (forall c | c in number :: '0' <= c <= '9')
    && id == Assembled(words, separators) + ".v" + number
  }

  lemma SpelledIsLegal(id: string, words: seq<string>, separators: string, number: string)
    requires Spelled(id, words, separators, number)
    ensures LegalId(id)
  {
    hide Assembled, Separator, WordChar, IsWord, IsChain;
    var stem := Assembled(words, separators);
    var k := |stem|;
    PartsChain(stem, words, separators);
    ChainIsNotEmpty(stem);
    assert id[..k] == stem && id[k..k + 2] == ".v" && id[k + 2..] == number;
    assert IsStem(stem);
    forall i | 0 <= i < |number| ensures '0' <= number[i] <= '9' { assert number[i] in number; }
  }

  lemma ChainIsNotEmpty(s: string)
    requires IsChain(s)
    ensures s != ""
  {
  }

  lemma LegalIdMeans(id: string)
    ensures LegalId(id) <==> exists words, separators, number :: Spelled(id, words, separators, number)
  {
    hide Assembled, Separator, WordChar, IsStem, IsWord;
    if LegalId(id) {
      var k :| 0 < k <= |id| - 2 && IsStem(id[..k]) && id[k..k + 2] == ".v" && IsNumber(id[k + 2..]);
      StemIsNoWord(id[..k]);
      var words, separators := ChainHasParts(id[..k]);
      assert id == id[..k] + ".v" + id[k + 2..];
      assert Spelled(id, words, separators, id[k + 2..]);
    }
    if words, separators, number :| Spelled(id, words, separators, number) {
      SpelledIsLegal(id, words, separators, number);
    }
  }

  lemma StemIsNoWord(s: string)
    requires IsStem(s)
    ensures IsChain(s) && !IsWord(s)
  {
  }

  predicate Space(c: char) {
    c as int in {9, 10, 11, 12, 13, 32, 0x85, 0xA0, 0x1680, 0x2028, 0x2029, 0x202F, 0x205F, 0x3000}
    || 0x2000 <= c as int <= 0x200A
  }

  predicate Blank(s: string) { forall i | 0 <= i < |s| :: Space(s[i]) }

  ghost predicate NoRepeats<T>(s: seq<T>) { forall i, j | 0 <= i < j < |s| :: s[i] != s[j] }

  predicate HeadValid(c: Capability) {
    && LegalId(c.id) && c.kind in KINDS && 1 <= c.timeout <= 120000 && c.mode in MODES
    && !(c.mode == "async" && c.synchronous)
    && (c.kind == "event_sink" ==> c.mode == "async")
  }

  ghost predicate PermissionsValid(ps: seq<string>) {
    NoRepeats(ps) && forall p | p in ps :: !Blank(p)
  }

  ghost predicate ValidCapability(c: Capability) { HeadValid(c) && PermissionsValid(c.permissions) }

  method CheckPermissions(ps: seq<string>) returns (problem: Option<Problem>)
    ensures problem.None? <==> PermissionsValid(ps)
    // The first permission that is blank or was there before decides.
    ensures problem == Some(BlankPermission) <==>
      exists i | 0 <= i < |ps| :: Blank(ps[i]) && PermissionsValid(ps[..i])
    ensures problem == Some(RepeatedPermission) <==>
      exists i | 0 <= i < |ps| :: !Blank(ps[i]) && ps[i] in ps[..i] && PermissionsValid(ps[..i])
    ensures problem == Some(RepeatedPermission) ==> !NoRepeats(ps)
    ensures problem.Some? ==> problem.value.BlankPermission? || problem.value.RepeatedPermission?
  {
    hide Blank;
    var seen := {};
    for i := 0 to |ps|
      invariant seen == set p | p in ps[..i]
      invariant NoRepeats(ps[..i])
      invariant forall p | p in ps[..i] :: !Blank(p)
    {
      if Blank(ps[i]) {
        return Some(BlankPermission);
      }
      if ps[i] in seen {
        var j :| 0 <= j < i && ps[..i][j] == ps[i];
        assert ps[j] == ps[i];
        return Some(RepeatedPermission);
      }
      assert ps[..i + 1] == ps[..i] + [ps[i]];
      seen := seen + {ps[i]};
    }
    assert ps[..|ps|] == ps;
    return None;
  }

  method Validate(c: Capability) returns (problem: Option<Problem>)
    ensures problem.None? <==> ValidCapability(c)
    // The first check that fails decides.
    ensures problem == Some(BadId) <==> !LegalId(c.id)
    ensures problem == Some(BadKind) <==> LegalId(c.id) && c.kind !in KINDS
    ensures problem == Some(BadTimeout) <==> LegalId(c.id) && c.kind in KINDS && !(1 <= c.timeout <= 120000)
    ensures problem in {Some(BadMode), Some(AsyncCall), Some(EventMode)} ==>
      LegalId(c.id) && c.kind in KINDS && 1 <= c.timeout <= 120000
    ensures problem == Some(BadMode) ==> c.mode !in MODES
    ensures problem == Some(AsyncCall) ==> c.mode == "async" && c.synchronous
    ensures problem == Some(EventMode) ==> c.kind == "event_sink" && c.mode in MODES && c.mode != "async"
    ensures problem in {Some(BlankPermission), Some(RepeatedPermission)} ==> HeadValid(c)
    ensures problem == Some(RepeatedPermission) ==> !NoRepeats(c.permissions)
    ensures problem != Some(RepeatedCapability)
  {
    hide LegalId, PermissionsValid, NoRepeats;
    if !LegalId(c.id) { return Some(BadId); }
    if c.kind !in KINDS { return Some(BadKind); }
    if c.timeout < 1 || c.timeout > 120000 { return Some(BadTimeout); }
    if c.mode !in MODES { return Some(BadMode); }
    if c.mode == "async" && c.synchronous { return Some(AsyncCall); }
    if c.kind == "event_sink" && c.mode != "async" { return Some(EventMode); }
    problem := CheckPermissions(c.permissions);
  }

  function Ids(cs: seq<Capability>): seq<string> { seq(|cs|, i requires 0 <= i < |cs| => cs[i].id) }

  /** What the host accepts: every capability valid, no identifier twice. */
  ghost predicate Acceptable(cs: seq<Capability>) {
    (forall c | c in cs :: ValidCapability(c)) && NoRepeats(Ids(cs))
  }

  /** `PluginInfo.Validate`, with its map of identifiers seen. */
  method ValidateInfo(pluginId: string, version: string, protocol: int, cs: seq<Capability>)
    returns (problem: Option<Problem>)
    ensures problem.None? <==>
      !Blank(pluginId) && !Blank(version) && protocol == PROTOCOL_VERSION && cs != [] && Acceptable(cs)
    ensures problem == Some(RepeatedCapability) ==> !NoRepeats(Ids(cs))
  {
    hide Blank, ValidCapability;
    if Blank(pluginId) || Blank(version) || protocol != PROTOCOL_VERSION || cs == [] {
      return Some(BadInfo);
    }
    var seen := {};
    for i := 0 to |cs|
      invariant seen == set id | id in Ids(cs[..i])
      invariant NoRepeats(Ids(cs[..i]))
      invariant forall c | c in cs[..i] :: ValidCapability(c)
    {
      problem := Validate(cs[i]);
      if problem.Some? {
        assert cs[i] in cs;
        return;
      }
      if cs[i].id in seen {
        var j :| 0 <= j < i && Ids(cs[..i])[j] == cs[i].id;
        assert Ids(cs)[j] == Ids(cs)[i];
        return Some(RepeatedCapability);
      }
      assert cs[..i + 1] == cs[..i] + [cs[i]];
      assert Ids(cs[..i + 1]) == Ids(cs[..i]) + [cs[i].id];
      seen := seen + {cs[i].id};
    }
    assert cs[..|cs|] == cs;
    return None;
  }

  // ---- the canonical form ----

  function Normal(c: Capability): Capability { c.(permissions := Sort(c.permissions, TextLe)) }

  function Map<S, T>(f: S -> T, s: seq<S>): seq<T> { seq(|s|, i requires 0 <= i < |s| => f(s[i])) }

  predicate IdLe(c: Capability, d: Capability) { TextLe(c.id, d.id) }

  function Normalized(cs: seq<Capability>): seq<Capability> { Sort(Map(Normal, cs), IdLe) }

  lemma IdOrder(cs: seq<Capability>)
    ensures Orders(IdLe, cs)
  {
    forall c, d ensures IdLe(c, d) || IdLe(d, c) { TextLeTotal(c.id, d.id); }
    forall c, d, e | IdLe(c, d) && IdLe(d, e) ensures IdLe(c, e) { TextLeTransitive(c.id, d.id, e.id); }
  }

  lemma TextHasNoTies(s: seq<string>)
    ensures NoTies(s, TextLe)
  {
    forall x, y | x in s && y in s && TextLe(x, y) && TextLe(y, x) ensures x == y { TextLeTotal(x, y); }
  }

  lemma DistinctIdsHaveNoTies(cs: seq<Capability>)
    requires NoRepeats(Ids(cs))
    ensures NoTies(cs, IdLe)
  {
    forall c, d | c in cs && d in cs && IdLe(c, d) && IdLe(d, c) ensures c == d {
      TextLeTotal(c.id, d.id);
      var i, j :| 0 <= i < |cs| && 0 <= j < |cs| && cs[i] == c && cs[j] == d;
      assert Ids(cs)[i] == Ids(cs)[j];
    }
  }

  /** The check of neighbours after sorting finds every repetition. */
  lemma AdjacentIsEnough(cs: seq<Capability>)
    requires Sorted(cs, IdLe)
    requires forall i | 0 < i < |cs| :: cs[i - 1].id != cs[i].id
    ensures NoRepeats(Ids(cs))
  {
    forall i, j | 0 <= i < j < |cs| ensures Ids(cs)[i] != Ids(cs)[j] {
      if cs[i].id == cs[j].id {
        assert IdLe(cs[i], cs[i + 1]) && (i + 1 < j ==> IdLe(cs[i + 1], cs[j]));
        TextLeTotal(cs[i].id, cs[i + 1].id);
        assert cs[i].id != cs[i + 1].id;
      }
    }
  }

  // ---- the canonical form is one ----

  function Without<T>(s: seq<T>, j: nat): seq<T>
    requires j < |s|
  {
    s[..j] + s[j + 1..]
  }

  lemma Remove<T>(s: seq<T>, j: nat)
    requires j < |s|
    ensures multiset(s) == multiset(Without(s, j)) + multiset{s[j]}
  {
    assert s == s[..j] + [s[j]] + s[j + 1..];
  }

  lemma MapWithout<S, T>(f: S -> T, s: seq<S>, j: nat)
    requires j < |s|
    ensures multiset(Without(s, j)) == multiset(s) - multiset{s[j]}
    ensures multiset(Map(f, s)) == multiset(Map(f, Without(s, j))) + multiset{f(s[j])}
  {
    Remove(s, j);
    Remove(Map(f, s), j);
    assert Without(Map(f, s), j) == Map(f, Without(s, j));
  }

  lemma {:induction false} MapKeepsElements<S, T>(f: S -> T, s: seq<S>, t: seq<S>)
    requires multiset(s) == multiset(t)
    ensures multiset(Map(f, s)) == multiset(Map(f, t))
    decreases |s|
  {
    hide Map, Without;
    assert |multiset(s)| == |multiset(t)|;
    if s != [] {
      SameMembers(s, t, s[0]);
      var j :| 0 <= j < |t| && t[j] == s[0];
      MapWithout(f, s, 0);
      MapWithout(f, t, j);
      WithoutIsShorter(s, 0);
      MapKeepsElements(f, Without(s, 0), Without(t, j));
    } else {
      assert t == s;
    }
  }

  lemma WithoutIsShorter<T>(s: seq<T>, j: nat)
    requires j < |s|
    ensures |Without(s, j)| < |s|
  {
  }

  /** A capability without the order of its permissions. */
  datatype Bag = Bag(head: Capability, permissions: multiset<string>)

  ghost function BagOf(c: Capability): Bag { Bag(c.(permissions := []), multiset(c.permissions)) }

  /** Two lists say the same when they hold the same capabilities with the same permissions, in
      whatever order. */
  ghost predicate SaySame(cs: seq<Capability>, ds: seq<Capability>) {
    multiset(Map(BagOf, cs)) == multiset(Map(BagOf, ds))
  }

  ghost function Listing(b: multiset<string>): (s: seq<string>)
    ensures multiset(s) == b
    decreases |b|
  {
    if b == multiset{} then [] else
      var x :| x in b;
      [x] + Listing(b - multiset{x})
  }

  ghost function Unbag(b: Bag): Capability { b.head.(permissions := Sort(Listing(b.permissions), TextLe)) }

  lemma SortedAlike(s: seq<string>, t: seq<string>)
    requires multiset(s) == multiset(t)
    ensures Sort(s, TextLe) == Sort(t, TextLe)
  {
    TextOrder(s);
    TextOrder(t);
    SortKeepsElements(s, TextLe);
    SortKeepsElements(t, TextLe);
    SortSorts(s, TextLe);
    SortSorts(t, TextLe);
    TextHasNoTies(Sort(s, TextLe));
    OneSortedForm(Sort(s, TextLe), Sort(t, TextLe), TextLe);
  }

  lemma NormalIsUnbag(cs: seq<Capability>)
    ensures Map(Normal, cs) == Map(Unbag, Map(BagOf, cs))
  {
    forall i | 0 <= i < |cs| ensures Normal(cs[i]) == Unbag(BagOf(cs[i])) {
      SortedAlike(cs[i].permissions, Listing(BagOf(cs[i]).permissions));
    }
  }

  lemma NormalKeepsBags(cs: seq<Capability>)
    ensures Map(BagOf, Map(Normal, cs)) == Map(BagOf, cs)
    ensures Ids(Map(Normal, cs)) == Ids(cs)
  {
    forall i | 0 <= i < |cs| ensures BagOf(Normal(cs[i])) == BagOf(cs[i]) {
      SortKeepsElements(cs[i].permissions, TextLe);
    }
  }

  /** The normal form keeps what a list says. */
  lemma NormalizedSaysSame(cs: seq<Capability>)
    ensures SaySame(Normalized(cs), cs)
  {
    hide Normal, Sort, BagOf;
    SortKeepsElements(Map(Normal, cs), IdLe);
    MapKeepsElements(BagOf, Normalized(cs), Map(Normal, cs));
    NormalKeepsBags(cs);
  }

  /** Lists that say the same have the same identifiers. */
  lemma SameIds(cs: seq<Capability>, ds: seq<Capability>)
    requires SaySame(cs, ds)
    ensures multiset(Ids(cs)) == multiset(Ids(ds))
  {
    var id := (b: Bag) => b.head.id;
    MapKeepsElements(id, Map(BagOf, cs), Map(BagOf, ds));
    assert Map(id, Map(BagOf, cs)) == Ids(cs) && Map(id, Map(BagOf, ds)) == Ids(ds);
  }

  /** The canonical form: two lists, the first without repeated identifiers, have the same normal
      form exactly when they say the same. */
  lemma NormalFormIsCanonical(cs: seq<Capability>, ds: seq<Capability>)
    requires NoRepeats(Ids(cs))
    ensures Normalized(cs) == Normalized(ds) <==> SaySame(cs, ds)
  {
    hide Normal, Sort, BagOf, Unbag;
    if SaySame(cs, ds) {
      MapKeepsElements(Unbag, Map(BagOf, cs), Map(BagOf, ds));
      NormalIsUnbag(cs);
      NormalIsUnbag(ds);
      NormalKeepsBags(cs);
      SortUnique(Map(Normal, cs), Map(Normal, ds));
    }
    NormalizedSaysSame(cs);
    NormalizedSaysSame(ds);
  }

  lemma SortUnique(cs: seq<Capability>, ds: seq<Capability>)
    requires multiset(cs) == multiset(ds) && NoRepeats(Ids(cs))
    ensures Sort(cs, IdLe) == Sort(ds, IdLe)
  {
    IdOrder(cs);
    IdOrder(ds);
    SortKeepsElements(cs, IdLe);
    SortKeepsElements(ds, IdLe);
    SortSorts(cs, IdLe);
    SortSorts(ds, IdLe);
    SortIsUnique(cs, Sort(ds, IdLe));
  }

  /** Every sorted rearrangement is the one `Sort` gives. */
  lemma SortIsUnique(cs: seq<Capability>, sorted: seq<Capability>)
    requires multiset(sorted) == multiset(cs) && Sorted(sorted, IdLe) && NoRepeats(Ids(cs))
    ensures sorted == Sort(cs, IdLe)
  {
    hide NoRepeats, Sort;
    IdOrder(cs);
    SortKeepsElements(cs, IdLe);
    SortSorts(cs, IdLe);
    DistinctIdsHaveNoTies(cs);
    SameTies(cs, sorted);
    OneSortedForm(sorted, Sort(cs, IdLe), IdLe);
  }

  lemma SameTies(cs: seq<Capability>, ds: seq<Capability>)
    requires multiset(cs) == multiset(ds) && NoTies(cs, IdLe)
    ensures NoTies(ds, IdLe)
  {
    forall c, d | c in ds && d in ds && IdLe(c, d) && IdLe(d, c) ensures c == d {
      SameMembers(cs, ds, c);
      SameMembers(cs, ds, d);
    }
  }

  lemma NormalizedIds(cs: seq<Capability>)
    ensures multiset(Ids(Normalized(cs))) == multiset(Ids(cs))
    ensures Sorted(Normalized(cs), IdLe)
  {
    NormalizedSaysSame(cs);
    SameIds(Normalized(cs), cs);
    IdOrder(Map(Normal, cs));
    SortSorts(Map(Normal, cs), IdLe);
  }

  /** In the normal form the identifiers ascend, and so do the permissions of each capability. */
  lemma NormalFormAscends(cs: seq<Capability>, i: nat, j: nat)
    requires i < j < |Normalized(cs)|
    ensures TextLe(Normalized(cs)[i].id, Normalized(cs)[j].id)
    ensures forall c, k, l | c in Normalized(cs) && 0 <= k < l < |c.permissions| ::
      TextLe(c.permissions[k], c.permissions[l])
  {
    hide Sort;
    NormalizedIds(cs);
    SortKeepsElements(Map(Normal, cs), IdLe);
    forall c | c in Normalized(cs) ensures Sorted(c.permissions, TextLe) {
      SameMembers(Normalized(cs), Map(Normal, cs), c);
      var n :| 0 <= n < |cs| && Normal(cs[n]) == c;
      TextOrder(cs[n].permissions);
      SortSorts(cs[n].permissions, TextLe);
    }
  }

  lemma TwiceCounted<T>(s: seq<T>, i: nat, j: nat)
    requires i < j < |s| && s[i] == s[j]
    ensures multiset(s)[s[i]] >= 2
  {
    Remove(s, j);
    assert Without(s, j)[i] == s[i];
  }

  lemma OnceCounted<T>(s: seq<T>, x: T)
    requires NoRepeats(s)
    ensures multiset(s)[x] <= 1
  {
    if x in s {
      var i :| 0 <= i < |s| && s[i] == x;
      Remove(s, i);
      assert x !in Without(s, i);
    }
  }

  lemma SameRepeats<T>(s: seq<T>, t: seq<T>)
    requires multiset(s) == multiset(t) && NoRepeats(s)
    ensures NoRepeats(t)
  {
    forall i, j | 0 <= i < j < |t| ensures t[i] != t[j] {
      OnceCounted(s, t[i]);
      if t[i] == t[j] {
        TwiceCounted(t, i, j);
      }
    }
  }

  /** Normalising twice changes nothing. */
  lemma NormalizeIsIdempotent(cs: seq<Capability>)
    requires NoRepeats(Ids(cs))
    ensures Normalized(Normalized(cs)) == Normalized(cs)
  {
    hide Normalized, SaySame, NoRepeats;
    NormalizedSaysSame(cs);
    NormalizedIds(cs);
    SameRepeats(Ids(cs), Ids(Normalized(cs)));
    NormalFormIsCanonical(Normalized(cs), cs);
  }

  lemma IdsAlike(cs: seq<Capability>, sorted: seq<Capability>)
    requires multiset(sorted) == multiset(Map(Normal, cs))
    ensures multiset(Ids(sorted)) == multiset(Ids(cs))
  {
    var id := (c: Capability) => c.id;
    NormalKeepsBags(cs);
    MapKeepsElements(id, sorted, Map(Normal, cs));
    assert Map(id, sorted) == Ids(sorted) && Map(id, Map(Normal, cs)) == Ids(Map(Normal, cs));
  }

  lemma NeighboursFound(cs: seq<Capability>, sorted: seq<Capability>, i: nat)
    requires multiset(sorted) == multiset(Map(Normal, cs))
    requires 0 < i < |sorted| && sorted[i - 1].id == sorted[i].id
    ensures !NoRepeats(Ids(cs))
  {
    IdsAlike(cs, sorted);
    TwiceCounted(Ids(sorted), i - 1, i);
    if NoRepeats(Ids(cs)) {
      OnceCounted(Ids(cs), sorted[i].id);
    }
  }

  lemma NoneFound(cs: seq<Capability>, sorted: seq<Capability>)
    requires multiset(sorted) == multiset(Map(Normal, cs)) && Sorted(sorted, IdLe)
    requires forall i | 0 < i < |sorted| :: sorted[i - 1].id != sorted[i].id
    ensures NoRepeats(Ids(cs)) && sorted == Normalized(cs)
  {
    IdsAlike(cs, sorted);
    AdjacentIsEnough(sorted);
    SameRepeats(Ids(sorted), Ids(cs));
    NormalKeepsBags(cs);
    SortIsUnique(Map(Normal, cs), sorted);
  }
}
