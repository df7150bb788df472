/** The scheduler's reconciliation: the two classification groups of every account, and the accounts
    the plugin protects. */
module Reconcile {
  import opened Wrappers
  import opened Sequences
  import opened Sorting
  import opened Tickets
  import opened Base64
  import opened TicketTexts
  import C = Collector

  datatype Account = Account(id: int, hash: string, eligible: bool, mapping: set<string>)

  /** A row of the query for the two groups: `ready` tells which of the two names it has. */
  datatype Group = Group(id: int, ready: bool)

  datatype Config = Config(accounts: Option<seq<int>>, suspended: Option<seq<int>>, others: string)

  datatype Binding = Binding(accounts: seq<int>, groups: seq<int>, users: seq<int>, rollout: int)

  /** The two groups, once they are found. */
  datatype Pair = Pair(good: int, bad: int)

  predicate IntLe(x: int, y: int) { x <= y }

  // ---- one account ----

  function Desired(current: seq<int>, p: Pair, ready: bool): seq<int> {
    SortedSet(Filter(current, g => g != p.good && g != p.bad) + [if ready then p.good else p.bad])
  }

  predicate Settled(current: seq<int>, p: Pair, ready: bool) {
    Sort(current, IntLe) == Desired(current, p, ready)
  }

  function Classified(current: seq<int>, p: Pair, ready: bool): seq<int> {
    if Settled(current, p, ready) then current else Desired(current, p, ready)
  }

  lemma DesiredMembers(current: seq<int>, p: Pair, ready: bool, g: int)
    requires p.good != p.bad
    ensures g in Desired(current, p, ready) <==>
      if g == p.good then ready else if g == p.bad then !ready else g in current
  {
    var others := Filter(current, x => x != p.good && x != p.bad);
    FilterMember(current, x => x != p.good && x != p.bad, g);
    SortedSetMembers(others + [if ready then p.good else p.bad], g);
  }

  /** After a pass an account is in exactly one of the two groups, in the ready one exactly if it has
      a ticket, and every other membership is as before. */
  lemma ClassifiedMembers(current: seq<int>, p: Pair, ready: bool, g: int)
    requires p.good != p.bad
    ensures g in Classified(current, p, ready) <==>
      if g == p.good then ready else if g == p.bad then !ready else g in current
  {
    hide Desired;
    DesiredMembers(current, p, ready, g);
    if Settled(current, p, ready) {
      SortKeepsElements(current, IntLe);
      SameMembers(Sort(current, IntLe), current, g);
    }
  }

  lemma SortedAscending(s: seq<int>)
    requires Ascending(s)
    ensures Sort(s, IntLe) == s
  {
    SortKeepsElements(s, IntLe);
    SortSorts(s, IntLe);
    OneSortedForm(s, Sort(s, IntLe), IntLe);
  }

  /** An account that has been classified is left alone by the next pass. */
  lemma ClassifiedIsSettled(current: seq<int>, p: Pair, ready: bool)
    requires p.good != p.bad
    ensures Settled(Classified(current, p, ready), p, ready)
  {
    if !Settled(current, p, ready) {
      DesiredIsFixed(current, p, ready);
      SortedSetAscends(Filter(current, g => g != p.good && g != p.bad) + [if ready then p.good else p.bad]);
      SortedAscending(Desired(current, p, ready));
    }
  }

  lemma DesiredIsFixed(current: seq<int>, p: Pair, ready: bool)
    requires p.good != p.bad
    ensures Desired(Desired(current, p, ready), p, ready) == Desired(current, p, ready)
  {
    var first := Desired(current, p, ready);
    var second := Desired(first, p, ready);
    SortedSetAscends(Filter(current, g => g != p.good && g != p.bad) + [if ready then p.good else p.bad]);
    SortedSetAscends(Filter(first, g => g != p.good && g != p.bad) + [if ready then p.good else p.bad]);
    forall g ensures g in second <==> g in first {
      DesiredMembers(current, p, ready, g);
      DesiredMembers(first, p, ready, g);
    }
    OneAscendingForm(second, first);
  }

  // ---- all accounts ----

  /** A ticket of this account for the harvested model, valid for its credentials when read. */
  predicate Serves(t: Ticket, a: Account, now: int) {
    t.account == a.id && t.model == C.MODEL && CollectorValid(t, a.hash, now)
  }

  /** A ticket serves an account if it was issued to it, for the harvested model and the credentials it
      has now, carries its issue time, and is neither more than 30 s ahead nor 3570 s old. */
  lemma ServesMeans(t: Ticket, a: Account, now: int)
    ensures Serves(t, a, now) <==>
      && t.account == a.id && t.model == "gpt-6-astra" && t.hash == a.hash
      && Carries(Lenient, t.value, t.issued)
      && t.issued * 1_000_000_000 <= now + 30_000_000_000 && now < (t.issued + 3570) * 1_000_000_000
  {
    hide CollectorValid, Carries;
    CollectorValidMeans(t, a.hash, now);
  }

  /** Whether the account has a ticket; the clock is read for every ticket looked at. */
  predicate HasTicket(a: Account, tickets: seq<Ticket>, clock: nat -> int) {
    exists j | 0 <= j < |tickets| :: Serves(tickets[j], a, clock(j))
  }

  function Found(accounts: seq<Account>, tickets: seq<Ticket>, clock: nat -> nat -> int): nat -> bool {
    (i: nat) => i < |accounts| && HasTicket(accounts[i], tickets, clock(i))
  }

  function GroupsOf(m: map<int, seq<int>>, id: int): seq<int> { if id in m then m[id] else [] }

  ghost predicate DistinctIds(accounts: seq<Account>) {
    forall i, j | 0 <= i < j < |accounts| :: accounts[i].id != accounts[j].id
  }

  /** The memberships after a pass has dealt with the first `n` accounts. */
  function After(m: map<int, seq<int>>, accounts: seq<Account>, p: Pair, ready: nat -> bool, n: nat)
    : map<int, seq<int>>
    requires n <= |accounts|
  {
    if n == 0 then m
    else
      var prior, id := After(m, accounts, p, ready, n - 1), accounts[n - 1].id;
      if Settled(GroupsOf(prior, id), p, ready(n - 1)) then prior
      else prior[id := Desired(GroupsOf(prior, id), p, ready(n - 1))]
  }

  /** How many of the first `n` accounts a pass has to write. */
  function Unsettled(m: map<int, seq<int>>, accounts: seq<Account>, p: Pair, ready: nat -> bool, n: nat): nat
    requires n <= |accounts|
  {
    if n == 0 then 0
    else
      var current := GroupsOf(After(m, accounts, p, ready, n - 1), accounts[n - 1].id);
      Unsettled(m, accounts, p, ready, n - 1) + if Settled(current, p, ready(n - 1)) then 0 else 1
  }

  /** A pass classifies each of its accounts, and touches no other. */
  lemma {:induction false} AfterClassifies(m: map<int, seq<int>>, accounts: seq<Account>, p: Pair,
                                           ready: nat -> bool, n: nat, id: int)
    requires DistinctIds(accounts) && n <= |accounts|
    ensures forall i | 0 <= i < n && accounts[i].id == id ::
      GroupsOf(After(m, accounts, p, ready, n), id) == Classified(GroupsOf(m, id), p, ready(i))
    ensures (forall i | 0 <= i < n :: accounts[i].id != id) ==>
      GroupsOf(After(m, accounts, p, ready, n), id) == GroupsOf(m, id)
  {
    hide Settled, Desired;
    if n > 0 {
      AfterClassifies(m, accounts, p, ready, n - 1, id);
    }
  }

  lemma FoundMeans(accounts: seq<Account>, tickets: seq<Ticket>, clock: nat -> nat -> int, i: nat)
    requires i < |accounts|
    ensures Found(accounts, tickets, clock)(i)
       <==> exists j | 0 <= j < |tickets| :: Serves(tickets[j], accounts[i], clock(i)(j))
  {
    hide Serves;
    var a, read := accounts[i], clock(i);
    assert Found(accounts, tickets, clock)(i) == HasTicket(a, tickets, read);
    if HasTicket(a, tickets, read) {
      var j :| 0 <= j < |tickets| && Serves(tickets[j], a, read(j));
      assert Serves(tickets[j], accounts[i], clock(i)(j));
    }
    if j :| 0 <= j < |tickets| && Serves(tickets[j], accounts[i], clock(i)(j)) {
      assert Serves(tickets[j], a, read(j));
    }
  }

  /** After a whole pass every account is in the ready group exactly if some ticket serves it when it is
      read, and in the fallback group otherwise. */
  lemma ReadyExactly(m: map<int, seq<int>>, accounts: seq<Account>, p: Pair, tickets: seq<Ticket>,
                     clock: nat -> nat -> int, i: nat)
    requires DistinctIds(accounts) && p.good != p.bad && i < |accounts|
    ensures var after := GroupsOf(After(m, accounts, p, Found(accounts, tickets, clock), |accounts|), accounts[i].id);
      var ready := exists j | 0 <= j < |tickets| :: Serves(tickets[j], accounts[i], clock(i)(j));
      (p.good in after <==> ready) && (p.bad in after <==> !ready)
  {
    hide Settled, Desired, Serves, Classified, After, Found, HasTicket;
    var id, found := accounts[i].id, Found(accounts, tickets, clock);
    FoundMeans(accounts, tickets, clock, i);
    AfterClassifies(m, accounts, p, found, |accounts|, id);
    assert GroupsOf(After(m, accounts, p, found, |accounts|), id) == Classified(GroupsOf(m, id), p, found(i));
    ClassifiedMembers(GroupsOf(m, id), p, found(i), p.good);
    ClassifiedMembers(GroupsOf(m, id), p, found(i), p.bad);
  }

  /** Tickets of old credentials do not count: an account that has logged in again falls back. */
  lemma OldCredentialsFallBack(m: map<int, seq<int>>, accounts: seq<Account>, p: Pair, tickets: seq<Ticket>,
                               clock: nat -> nat -> int, i: nat)
    requires DistinctIds(accounts) && p.good != p.bad && i < |accounts|
    requires forall t | t in tickets && t.account == accounts[i].id :: t.hash != accounts[i].hash
    ensures var after := GroupsOf(After(m, accounts, p, Found(accounts, tickets, clock), |accounts|), accounts[i].id);
      p.bad in after && p.good !in after
  {
    hide Serves, Carries;
    ReadyExactly(m, accounts, p, tickets, clock, i);
    forall j | 0 <= j < |tickets| ensures !Serves(tickets[j], accounts[i], clock(i)(j)) {
      ServesMeans(tickets[j], accounts[i], clock(i)(j));
      assert tickets[j] in tickets;
    }
  }

  /** A second pass that finds the same tickets changes nothing and writes nothing. */
  lemma {:induction false} SecondPassIsIdle(m: map<int, seq<int>>, accounts: seq<Account>, p: Pair,
                                            ready: nat -> bool, n: nat)
    requires DistinctIds(accounts) && p.good != p.bad && n <= |accounts|
    ensures var after := After(m, accounts, p, ready, |accounts|);
      After(after, accounts, p, ready, n) == after && Unsettled(after, accounts, p, ready, n) == 0
  {
    hide Settled, Classified;
    if n > 0 {
      var id := accounts[n - 1].id;
      SecondPassIsIdle(m, accounts, p, ready, n - 1);
      AfterClassifies(m, accounts, p, ready, |accounts|, id);
      ClassifiedIsSettled(GroupsOf(m, id), p, ready(n - 1));
    }
  }

  // ---- the protected accounts ----

  function Ids(accounts: seq<Account>): seq<int> { seq(|accounts|, i requires 0 <= i < |accounts| => accounts[i].id) }

  function Ineligible(accounts: seq<Account>): seq<int> { Ids(Filter(accounts, (a: Account) => !a.eligible)) }

  function Listed(o: Option<seq<int>>): seq<int> { if o.Some? then o.value else [] }

  /** The configuration a cycle asks for. */
  function NextConfig(c: Config, accounts: seq<Account>): Config {
    var ids := Ids(accounts);
    Config(Some(SortedSet(ids + Listed(c.accounts))),
           Some(SortedSet(Ineligible(accounts) + Filter(Listed(c.suspended), i => i !in ids))),
           c.others)
  }

  predicate Routed(b: Binding, ids: seq<int>) {
    Sort(b.accounts, IntLe) == ids && b.groups == [] && b.users == [] && b.rollout == 100
  }

  ghost predicate IsMember(accounts: seq<Account>, id: int) { exists a | a in accounts :: a.id == id }

  lemma IdsMember(accounts: seq<Account>, id: int)
    ensures id in Ids(accounts) <==> IsMember(accounts, id)
  {
    if id in Ids(accounts) {
      var i :| 0 <= i < |accounts| && Ids(accounts)[i] == id;
      assert accounts[i] in accounts;
    }
    if a :| a in accounts && a.id == id {
      var i :| 0 <= i < |accounts| && accounts[i] == a;
      assert Ids(accounts)[i] == id;
    }
  }

  /** Members are protected, and whoever was protected before stays so. */
  lemma ProtectedMembers(c: Config, accounts: seq<Account>, id: int)
    ensures id in Listed(NextConfig(c, accounts).accounts)
       <==> id in Listed(c.accounts) || IsMember(accounts, id)
  {
    hide Ids;
    SortedSetMembers(Ids(accounts) + Listed(c.accounts), id);
    IdsMember(accounts, id);
  }

  /** Members are suspended exactly when they are not eligible; the suspension of others is left as
      it is. */
  lemma SuspendedMembers(c: Config, accounts: seq<Account>, id: int)
    ensures id in Listed(NextConfig(c, accounts).suspended)
       <==> if IsMember(accounts, id) then exists a | a in accounts :: a.id == id && !a.eligible
            else id in Listed(c.suspended)
  {
    hide Ids;
    var ids := Ids(accounts);
    var down := Filter(accounts, (a: Account) => !a.eligible);
    SortedSetMembers(Ids(down) + Filter(Listed(c.suspended), i => i !in ids), id);
    FilterMember(Listed(c.suspended), i => i !in ids, id);
    IdsMember(accounts, id);
    IdsMember(down, id);
    forall a ensures a in down <==> a in accounts && !a.eligible {
      FilterMember(accounts, (x: Account) => !x.eligible, a);
    }
  }

  lemma NextConfigAscends(c: Config, accounts: seq<Account>)
    ensures Ascending(Listed(NextConfig(c, accounts).accounts)) && Ascending(Listed(NextConfig(c, accounts).suspended))
  {
    var ids := Ids(accounts);
    SortedSetAscends(ids + Listed(c.accounts));
    SortedSetAscends(Ineligible(accounts) + Filter(Listed(c.suspended), i => i !in ids));
  }

  /** A second cycle with the same accounts asks for the same configuration. */
  lemma NextConfigIsFixed(c: Config, accounts: seq<Account>)
    ensures NextConfig(NextConfig(c, accounts), accounts) == NextConfig(c, accounts)
  {
    hide NextConfig, Listed;
    var first := NextConfig(c, accounts);
    var second := NextConfig(first, accounts);
    NextConfigAscends(c, accounts);
    NextConfigAscends(first, accounts);
    forall id ensures id in Listed(second.accounts) <==> id in Listed(first.accounts) {
      ProtectedMembers(c, accounts, id);
      ProtectedMembers(first, accounts, id);
    }
    forall id ensures id in Listed(second.suspended) <==> id in Listed(first.suspended) {
      SuspendedMembers(c, accounts, id);
      SuspendedMembers(first, accounts, id);
    }
    OneAscendingForm(Listed(second.accounts), Listed(first.accounts));
    OneAscendingForm(Listed(second.suspended), Listed(first.suspended));
    ConfigShape(c, accounts);
    ConfigShape(first, accounts);
  }

  lemma ConfigShape(c: Config, accounts: seq<Account>)
    ensures NextConfig(c, accounts)
         == Config(Some(Listed(NextConfig(c, accounts).accounts)), Some(Listed(NextConfig(c, accounts).suspended)),
                   c.others)
  {
  }

  /** One cycle: its accounts, and whether its configuration was accepted.  It is not when the cycle
      stops before, or when the write fails. */
  datatype Cycle = Cycle(accounts: seq<Account>, accepted: bool)

  /** The configuration after a sequence of cycles, as `Host.Protect` leaves it. */
  function ConfigAfter(c: Config, cycles: seq<Cycle>): Config {
    if cycles == [] then c
    else
      var prior, last := ConfigAfter(c, cycles[..|cycles| - 1]), cycles[|cycles| - 1];
      if last.accepted then NextConfig(prior, last.accounts) else prior
  }

  ghost predicate EverAccepted(cycles: seq<Cycle>, id: int) {
    exists n | 0 <= n < |cycles| :: cycles[n].accepted && IsMember(cycles[n].accounts, id)
  }

  lemma EverAcceptedExtends(cycles: seq<Cycle>, id: int)
    requires cycles != []
    ensures var last := cycles[|cycles| - 1];
      EverAccepted(cycles, id)
      <==> EverAccepted(cycles[..|cycles| - 1], id) || (last.accepted && IsMember(last.accounts, id))
  {
    hide IsMember;
    var prior := cycles[..|cycles| - 1];
    if EverAccepted(prior, id) {
      var n :| 0 <= n < |prior| && prior[n].accepted && IsMember(prior[n].accounts, id);
      assert cycles[n] == prior[n];
    }
    if EverAccepted(cycles, id) {
      var n :| 0 <= n < |cycles| && cycles[n].accepted && IsMember(cycles[n].accounts, id);
      assert n < |prior| ==> cycles[n] == prior[n];
    }
  }

  /** Protection never shrinks: over any number of cycles, whatever fails in them, the protected
      accounts are those of the start and every account that was a member when a cycle's
      configuration was accepted. */
  lemma {:induction false} ProtectionGrows(c: Config, cycles: seq<Cycle>, id: int)
    ensures id in Listed(ConfigAfter(c, cycles).accounts) <==> id in Listed(c.accounts) || EverAccepted(cycles, id)
  {
    hide NextConfig, Listed, IsMember, EverAccepted;
    if cycles != [] {
      var prior, last := cycles[..|cycles| - 1], cycles[|cycles| - 1];
      ProtectionGrows(c, prior, id);
      ProtectedMembers(ConfigAfter(c, prior), last.accounts, id);
      EverAcceptedExtends(cycles, id);
    } else {
      NoneAccepted(id);
    }
  }

  lemma NoneAccepted(id: int)
    ensures !EverAccepted([], id)
  {
  }

  /** The host's administration interface. */
  class Host {
    var memberships: map<int, seq<int>>
    var config: Config
    var binding: Option<Binding>
    var writes: nat

    constructor (memberships: map<int, seq<int>>, config: Config, binding: Option<Binding>)
      ensures this.memberships == memberships && this.config == config && this.binding == binding && writes == 0
    {
      this.memberships, this.config, this.binding, writes := memberships, config, binding, 0;
    }

    /** Finds the groups by name; `None` when one is missing or a name is there twice. */
    static method FindGroups(groups: seq<Group>) returns (p: Option<Pair>)
      ensures p.Some? <==> |groups| == 2 && groups[0].ready != groups[1].ready
      ensures p.Some? ==> Group(p.value.good, true) in groups && Group(p.value.bad, false) in groups
    {
      if |groups| != 2 || groups[0].ready == groups[1].ready {
        return None;
      }
      var (g, b) := if groups[0].ready then (groups[0], groups[1]) else (groups[1], groups[0]);
      return Some(Pair(g.id, b.id));
    }

    static method LookForTicket(a: Account, tickets: seq<Ticket>, clock: nat -> int) returns (ready: bool)
      ensures ready <==> HasTicket(a, tickets, clock)
    {
      hide Serves;
      for j := 0 to |tickets|
        invariant forall i | 0 <= i < j :: !Serves(tickets[i], a, clock(i))
      {
        if Serves(tickets[j], a, clock(j)) {
          return true;
        }
      }
      return false;
    }

    method Classify(a: Account, p: Pair, ready: bool, answer: bool) returns (ok: bool)
      modifies this`memberships, this`writes
      ensures answer ==> ok
      ensures var current := old(GroupsOf(memberships, a.id));
        if ok && !Settled(current, p, ready)
        then memberships == old(memberships)[a.id := Desired(current, p, ready)] && writes == old(writes) + 1
        else memberships == old(memberships) && writes == old(writes)
    {
      var current := GroupsOf(memberships, a.id);
      ok := true;
      if Sort(current, IntLe) != Desired(current, p, ready) {
        ok := answer;
        if ok {
          memberships, writes := memberships[a.id := Desired(current, p, ready)], writes + 1;
        }
      }
    }

    /** `sync_groups`.  `done` accounts are dealt with: fewer than all when the groups are not found
        or a write fails, which leaves its account as it was. */
    method SyncGroups(groups: seq<Group>, accounts: seq<Account>, tickets: seq<Ticket>,
                      clock: nat -> nat -> int, answers: nat -> bool)
      returns (done: nat, ghost p: Pair)
      requires forall i, j | 0 <= i < j < |groups| :: groups[i].id != groups[j].id
      modifies this`memberships, this`writes
      ensures done <= |accounts| && p.good != p.bad
      ensures done > 0 ==> Group(p.good, true) in groups && Group(p.bad, false) in groups
      ensures memberships == After(old(memberships), accounts, p, Found(accounts, tickets, clock), done)
      ensures writes == old(writes) + Unsettled(old(memberships), accounts, p, Found(accounts, tickets, clock), done)
      ensures |groups| == 2 && groups[0].ready != groups[1].ready && (forall i :: answers(i)) ==> done == |accounts|
    {
      hide Settled, Desired, HasTicket;
      var found := FindGroups(groups);
      done, p := 0, Pair(0, 1);
      if found.None? {
        return;
      }
      p := found.value;
      while done < |accounts|
        invariant done <= |accounts| && p == found.value
        invariant memberships == After(old(memberships), accounts, p, Found(accounts, tickets, clock), done)
        invariant writes
               == old(writes) + Unsettled(old(memberships), accounts, p, Found(accounts, tickets, clock), done)
      {
        var ready := LookForTicket(accounts[done], tickets, clock(done));
        var ok := Classify(accounts[done], found.value, ready, answers(done));
        if !ok {
          return;
        }
        done := done + 1;
      }
    }

    /** The protection part of `run_locked`: nothing is written unless the target group is found, has
        a member, and the plugin is the expected one and enabled.  `putConfig` and `putRouting` say
        whether the two writes succeed; the plugin is looked at again before the second one. */
    method Protect(accounts: seq<Account>, found: bool, known: bool, enabled: bool, putConfig: bool, putRouting: bool,
                   stillEnabled: bool)
      returns (ok: bool)
      modifies this`config, this`binding, this`writes
      ensures var may := found && accounts != [] && known && enabled;
        && config == ConfigAfter(old(config), [Cycle(accounts, may && putConfig)])
        && (!may ==> !ok && binding == old(binding) && writes == old(writes))
      ensures ok ==>
        && config == NextConfig(old(config), accounts) == NextConfig(config, accounts)
        && binding.Some? && Routed(binding.value, Listed(config.accounts))
        && Listed(config.accounts) != []
      ensures old(config) == NextConfig(old(config), accounts) && old(binding).Some?
              && Routed(old(binding).value, Listed(old(config).accounts)) ==>
        config == old(config) && binding == old(binding) && writes == old(writes)
    {
      hide SortedSet, Ids, ConfigAfter;
      ok := false;
      OneCycle(config, accounts, false);
      if !found || accounts == [] || !known || !enabled {
        return;
      }
      ghost var before := config;
      OneCycle(before, accounts, putConfig);
      var desired := NextConfig(config, accounts);
      NotEmpty(before, accounts);
      NextConfigAscends(before, accounts);
      NextConfigIsFixed(before, accounts);
      if desired != config {
        if !putConfig {
          return;
        }
        config, writes := desired, writes + 1;
      }
      if binding.None? {
        return;
      }
      var ids := desired.accounts.value;
      if Sort(binding.value.accounts, IntLe) != ids || binding.value.groups != [] || binding.value.users != []
         || binding.value.rollout != 100
      {
        if !putRouting {
          return;
        }
        SortedAscending(ids);
        binding, writes := Some(Binding(ids, [], [], 100)), writes + 1;
        if !stillEnabled {
          return;
        }
      }
      ok := true;
    }
  }

  lemma OneCycle(c: Config, accounts: seq<Account>, accepted: bool)
    ensures ConfigAfter(c, [Cycle(accounts, accepted)]) == if accepted then NextConfig(c, accounts) else c
  {
    assert [Cycle(accounts, accepted)][..0] == [];
  }

  lemma NotEmpty(c: Config, accounts: seq<Account>)
    requires accounts != []
    ensures Listed(NextConfig(c, accounts).accounts) != []
  {
    ProtectedMembers(c, accounts, accounts[0].id);
  }
}
