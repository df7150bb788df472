/** `NormalizeCapabilities` on memory the caller may share: it sorts copies, never the caller's lists. */
module Normalize {
  import opened Wrappers
  import opened Sorting
  import opened Contract

  /** A capability as it is held in memory.  Several of them may share one list of permissions. */
  datatype Declared = Declared(id: string, kind: string, platform: string, accountType: string,
                               permissions: array<string>, timeout: int, mode: string, synchronous: bool)

  function With(d: Declared, permissions: seq<string>): Capability {
    Capability(d.id, d.kind, d.platform, d.accountType, permissions, d.timeout, d.mode, d.synchronous)
  }

  function View(d: Declared): Capability
    reads d.permissions
  {
    With(d, d.permissions[..])
  }

  ghost function Lists(ds: seq<Declared>): set<array<string>> { set d | d in ds :: d.permissions }

  ghost function Views(ds: seq<Declared>): seq<Capability>
    reads Lists(ds)
  {
    seq(|ds|, i requires 0 <= i < |ds| reads Lists(ds) => View(ds[i]))
  }

  predicate DeclaredLe(c: Declared, d: Declared) { TextLe(c.id, d.id) }

  lemma DeclaredOrder(ds: seq<Declared>)
    ensures Orders(DeclaredLe, ds)
  {
    forall c, d | c in ds && d in ds ensures DeclaredLe(c, d) || DeclaredLe(d, c) { TextLeTotal(c.id, d.id); }
    forall c, d, e | c in ds && d in ds && e in ds && DeclaredLe(c, d) && DeclaredLe(d, e) ensures DeclaredLe(c, e) {
      TextLeTransitive(c.id, d.id, e.id);
    }
  }

  /** Rearranging the capabilities rearranges what they say. */
  lemma ViewsRearrange(ds: seq<Declared>, es: seq<Declared>)
    requires multiset(ds) == multiset(es)
    ensures multiset(Views(ds)) == multiset(Views(es))
  {
    ghost var contents := map a | a in Lists(ds) :: a[..];
    ghost var f := (d: Declared) => With(d, if d.permissions in contents then contents[d.permissions] else []);
    MapKeepsElements(f, ds, es);
    forall d | d in es ensures d in ds { SameMembers(ds, es, d); }
    assert Map(f, ds) == Views(ds) && Map(f, es) == Views(es);
  }

  /** A sorted copy of a list of permissions. */
  method SortedCopy(permissions: array<string>) returns (copy: array<string>)
    ensures fresh(copy) && copy[..] == Sort(permissions[..], TextLe)
  {
    copy := new string[permissions.Length];
    forall i | 0 <= i < copy.Length { copy[i] := permissions[i]; }
    ghost var unsorted := permissions[..];
    assert copy[..] == unsorted;
    TextOrder(unsorted);
    SortSlice(copy, TextLe);
    SortKeepsElements(unsorted, TextLe);
    SortSorts(unsorted, TextLe);
    TextHasNoTies(copy[..]);
    OneSortedForm(copy[..], Sort(unsorted, TextLe), TextLe);
  }

  /** The loop: every capability is checked, and gets a list of its own, in order. */
  method CloneEach(capabilities: array<Declared>) returns (problem: Option<Problem>, cloned: array<Declared>)
    ensures fresh(cloned) && cloned.Length == capabilities.Length
    ensures problem.None? <==> forall c | c in Views(capabilities[..]) :: ValidCapability(c)
    ensures problem != Some(RepeatedCapability)
    ensures problem.None? ==>
      && (forall i | 0 <= i < cloned.Length :: fresh(cloned[i].permissions))
      && Views(cloned[..]) == Map(Normal, Views(capabilities[..]))
  {
    hide ValidCapability, Sort, TextLe, NoRepeats, LegalId;
    cloned := new Declared[capabilities.Length](
      i requires 0 <= i < capabilities.Length reads capabilities => capabilities[i]);
    for i := 0 to cloned.Length
      invariant forall j | 0 <= j < i ::
        && fresh(cloned[j].permissions)
        && View(cloned[j]) == Normal(View(capabilities[j])) && ValidCapability(View(capabilities[j]))
      invariant forall j | i <= j < cloned.Length :: cloned[j] == capabilities[j]
    {
      problem := Validate(View(cloned[i]));
      if problem.Some? {
        assert Views(capabilities[..])[i] == View(capabilities[i]);
        return;
      }
      var permissions := SortedCopy(cloned[i].permissions);
      cloned[i] := cloned[i].(permissions := permissions);
    }
    problem := None;
  }

  method SortById(cloned: array<Declared>)
    modifies cloned
    ensures multiset(cloned[..]) == old(multiset(cloned[..]))
    ensures multiset(Views(cloned[..])) == old(multiset(Views(cloned[..])))
    ensures Sorted(Views(cloned[..]), IdLe)
  {
    ghost var before := cloned[..];
    ghost var said := Views(before);
    DeclaredOrder(before);
    SortSlice(cloned, DeclaredLe);
    assert Views(before) == said;
    ViewsRearrange(before, cloned[..]);
  }

  method CheckNeighbours(cloned: array<Declared>, ghost cs: seq<Capability>) returns (problem: Option<Problem>)
    requires multiset(Views(cloned[..])) == multiset(Map(Normal, cs)) && Sorted(Views(cloned[..]), IdLe)
    ensures problem.None? <==> NoRepeats(Ids(cs))
    ensures problem.None? ==> Views(cloned[..]) == Normalized(cs)
    ensures problem.None? || problem == Some(RepeatedCapability)
  {
    hide NoRepeats, Ids, Normalized;
    ghost var sorted := Views(cloned[..]);
    var i := 1;
    while i < cloned.Length
      invariant 1 <= i
      invariant forall j | 0 < j < i && j < cloned.Length :: sorted[j - 1].id != sorted[j].id
    {
      if cloned[i - 1].id == cloned[i].id {
        NeighboursFound(cs, sorted, i);
        return Some(RepeatedCapability);
      }
      i := i + 1;
    }
    NoneFound(cs, sorted);
    return None;
  }

  lemma SaysAcceptable(cs: seq<Capability>)
    ensures Acceptable(cs) <==> (forall c | c in cs :: ValidCapability(c)) && NoRepeats(Ids(cs))
  {
  }

  /** The caller's list and the lists of permissions in it keep their contents, whatever they share;
      the result and its lists are memory of their own. */
  method NormalizeCapabilities(capabilities: array<Declared>)
    returns (problem: Option<Problem>, cloned: array<Declared>)
    ensures problem.None? <==> Acceptable(Views(capabilities[..]))
    ensures problem == Some(RepeatedCapability) ==> !NoRepeats(Ids(Views(capabilities[..])))
    ensures capabilities[..] == old(capabilities[..])
    ensures forall i | 0 <= i < capabilities.Length ::
      capabilities[i].permissions[..] == old(capabilities[i].permissions[..])
    ensures fresh(cloned)
    ensures problem.None? ==>
      && Views(cloned[..]) == Normalized(Views(capabilities[..]))
      && forall d | d in cloned[..] :: fresh(d.permissions)
  {
    hide Normalized, Normal, NoRepeats, Acceptable;
    ghost var given, cs := capabilities[..], Views(capabilities[..]);
    assert forall a | a in Lists(given) :: allocated(a);
    problem, cloned := CloneEach(capabilities);
    assert Views(given) == cs;
    SaysAcceptable(cs);
    if problem.None? {
      ghost var clones := cloned[..];
      SortById(cloned);
      assert Views(given) == cs;
      problem := CheckNeighbours(cloned, cs);
      forall d | d in cloned[..] ensures d in clones { SameMembers(clones, cloned[..], d); }
    }
  }
}
