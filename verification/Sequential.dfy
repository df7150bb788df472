/** `persist`, `ApplyConfig` and `ticket` as they run while nothing interferes, and that their loops
    are those of the machine. */
module Sequential {
  import opened Wrappers
  import opened Tickets
  import P = Plugin

  /** Which of the file operations of one `persist` fail. */
  datatype Faults = Faults(read: bool, write: bool, rename: bool)

  // ---- the two loops ----

  /** The first `n` records that `persist` keeps; record `i` is judged at `clock(i)`. */
  function Survivors(records: seq<Ticket>, k: string, clock: nat -> int, n: nat): seq<Ticket>
    requires n <= |records|
  {
    if n == 0 then []
    else
      Survivors(records, k, clock, n - 1)
      + if P.Keeps(records[n - 1], k, clock(n - 1)) then [records[n - 1]] else []
  }

  /** The entries after `ApplyConfig` has read the first `n` records. */
  function Loaded(entries: map<string, P.Entry>, records: seq<Ticket>, clock: nat -> int, n: nat): map<string, P.Entry>
    requires n <= |records|
  {
    if n == 0 then entries
    else
      var prior, t := Loaded(entries, records, clock, n - 1), records[n - 1];
      if ValidTicket(t, clock(n - 1)) && KeyOf(t) !in prior then prior[KeyOf(t) := P.FRESH.(ticket := t)] else prior
  }

  /** `persist` keeps exactly the records under other keys that are still valid, each as it was. */
  lemma {:induction false} SurvivorsMean(records: seq<Ticket>, k: string, clock: nat -> int, n: nat, t: Ticket)
    requires n <= |records|
    ensures t in Survivors(records, k, clock, n)
       <==> exists i | 0 <= i < n :: records[i] == t && P.Keeps(t, k, clock(i))
  {
    hide P.Keeps;
    if n > 0 {
      SurvivorsMean(records, k, clock, n - 1, t);
    }
  }

  lemma {:induction false} SurvivorsKeepOneEach(records: seq<Ticket>, k: string, clock: nat -> int, n: nat)
    requires n <= |records| && P.DistinctKeys(records)
    ensures P.DistinctKeys(Survivors(records, k, clock, n))
    ensures forall t | t in Survivors(records, k, clock, n) :: KeyOf(t) != k
  {
    hide P.Keeps, KeyOf;
    if n > 0 {
      SurvivorsKeepOneEach(records, k, clock, n - 1);
      forall t | t in Survivors(records, k, clock, n - 1) ensures KeyOf(t) != KeyOf(records[n - 1]) {
        SurvivorsMean(records, k, clock, n - 1, t);
      }
      KeepsMeans(records[n - 1], k, clock(n - 1));
    }
  }

  lemma KeepsMeans(t: Ticket, k: string, now: int)
    ensures P.Keeps(t, k, now) <==> KeyOf(t) != k && ValidTicket(t, now)
  {
  }

  /** Loading never touches a key that is there, and gives every other key its first valid record. */
  lemma {:induction false} LoadedMeans(entries: map<string, P.Entry>, records: seq<Ticket>, clock: nat -> int,
                                       n: nat, k: string)
    requires n <= |records|
    ensures k in entries ==>
      k in Loaded(entries, records, clock, n) && Loaded(entries, records, clock, n)[k] == entries[k]
    ensures k !in entries && k in Loaded(entries, records, clock, n) ==>
      exists i | 0 <= i < n ::
        && Loaded(entries, records, clock, n)[k] == P.FRESH.(ticket := records[i])
        && KeyOf(records[i]) == k && ValidTicket(records[i], clock(i))
        && forall j | 0 <= j < i :: !(KeyOf(records[j]) == k && ValidTicket(records[j], clock(j)))
    ensures k !in Loaded(entries, records, clock, n) ==>
      forall j | 0 <= j < n :: !(KeyOf(records[j]) == k && ValidTicket(records[j], clock(j)))
  {
    hide KeyOf, ValidTicket;
    if n > 0 {
      LoadedMeans(entries, records, clock, n - 1, k);
    }
  }

  // ---- they are the loops of the machine ----

  /** Where the machine's filter loop stands after `n` of its steps. */
  function FilterPc(s: P.State, t: P.Thread, job: P.Job, records: seq<Ticket>, clock: nat -> int, n: nat): P.Pc {
    if n == 0 then P.PersistFilter(job, records, [])
    else
      match P.PersistStep(s.(clock := clock(n - 1)), t.(pc := FilterPc(s, t, job, records, clock, n - 1)), P.Go)
      case Some(e) => e.pc
      case None => P.Done
  }

  lemma FilterStep(s: P.State, t: P.Thread, job: P.Job, todo: seq<Ticket>, kept: seq<Ticket>)
    requires todo != [] && t.pc == P.PersistFilter(job, todo, kept)
    ensures P.PersistStep(s, t, P.Go) == Some(P.Effect(
      P.PersistFilter(job, todo[1..], kept + if P.Keeps(todo[0], P.JobKey(t.req, job), s.clock) then [todo[0]] else []),
      P.Stay))
  {
    hide P.Keeps, P.JobKey;
    assert kept + [] == kept;
  }

  lemma {:induction false} MachineFilters(s: P.State, t: P.Thread, job: P.Job, records: seq<Ticket>,
                                          clock: nat -> int, n: nat)
    requires n <= |records|
    ensures FilterPc(s, t, job, records, clock, n)
         == P.PersistFilter(job, records[n..], Survivors(records, P.JobKey(t.req, job), clock, n))
  {
    hide P.Keeps, P.JobKey, P.PersistStep;
    if n > 0 {
      MachineFilters(s, t, job, records, clock, n - 1);
      var kept := Survivors(records, P.JobKey(t.req, job), clock, n - 1);
      FilterStep(s.(clock := clock(n - 1)), t.(pc := P.PersistFilter(job, records[n - 1..], kept)), job,
                 records[n - 1..], kept);
      assert records[n - 1..][0] == records[n - 1] && records[n - 1..][1..] == records[n..];
    }
  }

  /** The machine's entries after `n` steps of its load loop, and where it stands. */
  function LoadState(s: P.State, t: P.Thread, records: seq<Ticket>, clock: nat -> int, n: nat): (P.State, P.Pc) {
    if n == 0 then (s, P.CfgLoad(records))
    else
      var (prior, pc) := LoadState(s, t, records, clock, n - 1);
      match P.ConfigStep(prior.(clock := clock(n - 1)), t.(pc := pc), P.Go)
      case Some(e) => (prior.(entries := P.EntriesAfter(prior, e.op)), e.pc)
      case None => (prior, P.Done)
  }

  lemma LoadStep(s: P.State, t: P.Thread, todo: seq<Ticket>)
    requires todo != [] && t.pc == P.CfgLoad(todo)
    ensures P.ConfigStep(s, t, P.Go) == Some(P.Effect(
      P.CfgLoad(todo[1..]),
      if ValidTicket(todo[0], s.clock) && KeyOf(todo[0]) !in s.entries
      then P.PutEntry(KeyOf(todo[0]), P.FRESH.(ticket := todo[0])) else P.Stay))
  {
    hide KeyOf, ValidTicket;
  }

  lemma {:induction false} MachineLoads(s: P.State, t: P.Thread, records: seq<Ticket>, clock: nat -> int, n: nat)
    requires n <= |records|
    ensures LoadState(s, t, records, clock, n)
         == (s.(entries := Loaded(s.entries, records, clock, n)), P.CfgLoad(records[n..]))
  {
    hide KeyOf, ValidTicket, P.ConfigStep;
    if n > 0 {
      MachineLoads(s, t, records, clock, n - 1);
      LoadStep(s.(clock := clock(n - 1), entries := Loaded(s.entries, records, clock, n - 1)),
               t.(pc := P.CfgLoad(records[n - 1..])), records[n - 1..]);
      assert records[n - 1..][0] == records[n - 1] && records[n - 1..][1..] == records[n..];
    }
  }

  // ---- the object ----

  /** What the world contributes to one `ticket` call. */
  datatype Inputs = Inputs(now: int, candidate: Option<Ticket>, canceled: bool, outcome: P.Outcome, answered: int,
                           importing: Faults, importClock: nat -> int, storing: Faults, storeClock: nat -> int)

  /** A `persist` over this store succeeds. */
  predicate Stores(faults: Faults, store: P.File) {
    !faults.read && !store.Malformed? && !faults.write && !faults.rename
  }

  /** The entry `ticket` decides about: after the import of the candidate, if it is importable;
      `None` if that import cannot be stored. */
  function Considered(e: P.Entry, k: string, w: Inputs, stored: bool): Option<P.Entry> {
    if !P.Importable(w.candidate, k, w.now, e.ticket) then Some(e)
    else if stored then Some(P.Entry(w.candidate.value, ZERO_TIME, false))
    else None
  }

  /** What a harvest that is answered makes of entry `e`, and what it gives out. */
  predicate Harvested(e: P.Entry, f: P.Entry, grant: Option<P.Grant>, w: Inputs, stored: bool) {
    match w.outcome
    case NoClient => grant.None? && f == e.(cooldown := w.answered + 60_000_000_000)
    case Refused(terminal, limited) =>
      && f.ticket == e.ticket && f.blocked == terminal
      && f.cooldown == w.answered + (if terminal || limited then 300_000_000_000 else 60_000_000_000)
      && grant == if !terminal && ValidTicket(e.ticket, w.answered) then Some(P.Grant(e.ticket, w.answered)) else None
    case Granted(t) =>
      if stored then f == e.(ticket := t, cooldown := ZERO_TIME) && grant == Some(P.Grant(t, w.answered))
      else f == e && grant.None?
  }

  /** What `ticket` decides about entry `d`, and what becomes of it: a ticket that is valid and less than
      3000 s old, or protected by a cooldown, is given out; blocked and cooling entries give none; the
      others are harvested for, unless the call is cancelled. */
  predicate Decided(d: P.Entry, f: P.Entry, grant: Option<P.Grant>, w: Inputs, stored: bool) {
    if !d.blocked && ValidTicket(d.ticket, w.now)
       && (w.now / 1_000_000_000 < d.ticket.issued + 3000 || w.now < d.cooldown)
    then grant == Some(P.Grant(d.ticket, w.now)) && f == d
    else if d.blocked || w.now < d.cooldown || w.canceled then grant.None? && f == d
    else Harvested(d, f, grant, w, stored)
  }

  /** A harvest that brings no ticket ends in the machine as it does here. */
  lemma MachineHarvests(s: P.State, t: P.Thread, w: Inputs, f: P.Entry, grant: Option<P.Grant>)
    requires t.pc.Harvest? && s.clock == w.answered && !w.outcome.Granted?
    ensures P.HarvestStep(s, t, P.Answer(w.outcome))
         == Some(P.Effect(P.Leave(grant), P.PutEntry(P.RequestKey(t.req), f)))
       <==> Harvested(P.EntryOf(s, P.RequestKey(t.req)), f, grant, w, false)
  {
    hide KeyOf, ValidTicket, P.RequestKey;
  }

  class Cache {
    var config: P.Config
    var entries: map<string, P.Entry>
    var store: P.File
    var tmp: P.File

    constructor (store: P.File, tmp: P.File)
      ensures config == P.Config([], []) && entries == map[] && this.store == store && this.tmp == tmp
    {
      config, entries, this.store, this.tmp := P.Config([], []), map[], store, tmp;
    }

    function EntryOf(k: string): P.Entry
      reads this
    {
      if k in entries then entries[k] else P.FRESH
    }

    /** The store is replaced as a whole, or not at all. */
    method Persist(k: string, t: Ticket, faults: Faults, clock: nat -> int) returns (ok: bool)
      modifies this`store, this`tmp
      ensures ok <==> Stores(faults, old(store))
      ensures !ok ==> store == old(store)
      ensures var records := P.RecordsOf(old(store));
        ok ==> tmp.Absent? && store == P.Records(Survivors(records, k, clock, |records|)
                                                 + if t.value != "" then [t] else [])
    {
      hide KeyOf, ValidTicket;
      if faults.read || store.Malformed? {
        return false;
      }
      var records, kept := P.RecordsOf(store), [];
      for i := 0 to |records|
        invariant kept == Survivors(records, k, clock, i)
      {
        if KeyOf(records[i]) != k && ValidTicket(records[i], clock(i)) {
          kept := kept + [records[i]];
        }
      }
      if t.value != "" {
        kept := kept + [t];
      }
      tmp := if faults.write then P.Malformed else P.Records(kept);
      if faults.write || faults.rename {
        return false;
      }
      store, tmp := tmp, P.Absent;
      return true;
    }

    /** The new configuration is kept even when the store turns out to be malformed. */
    method ApplyConfig(c: P.Config, readable: bool, clock: nat -> int) returns (ok: bool)
      modifies this`config, this`entries
      ensures config == c
      ensures ok <==> !(readable && store.Malformed?)
      ensures entries == if readable && store.Records?
                         then Loaded(old(entries), store.tickets, clock, |store.tickets|) else old(entries)
    {
      hide KeyOf, ValidTicket;
      config := c;
      if !readable || store.Absent? {
        return true;
      }
      if store.Malformed? {
        return false;
      }
      for i := 0 to |store.tickets|
        invariant config == c && entries == Loaded(old(entries), store.tickets, clock, i)
      {
        var t := store.tickets[i];
        if ValidTicket(t, clock(i)) && KeyOf(t) !in entries {
          entries := entries[KeyOf(t) := P.FRESH.(ticket := t)];
        }
      }
      return true;
    }

    method PutEntry(k: string, e: P.Entry)
      modifies this`entries
      ensures entries == old(entries)[k := e]
    {
      entries := entries[k := e];
    }

    /** The import of a candidate, at the head of `ticket`. */
    method ImportCandidate(k: string, w: Inputs) returns (ok: bool)
      requires k in entries
      modifies this`entries, this`store, this`tmp
      ensures ok <==> Considered(old(entries[k]), k, w, Stores(w.importing, old(store))).Some?
      ensures entries == if ok then old(entries)[k := Considered(old(entries[k]), k, w, true).value] else old(entries)
      ensures if ok && P.Importable(w.candidate, k, w.now, old(entries[k]).ticket)
        then w.candidate.value in P.RecordsOf(store) && !store.Malformed? && !old(store).Malformed?
        else store == old(store)
    {
      hide KeyOf, ValidTicket;
      ok := true;
      if P.Importable(w.candidate, k, w.now, entries[k].ticket) {
        var t := w.candidate.value;
        NotEmpty(t, w.now);
        ok := Persist(k, t, w.importing, w.importClock);
        if ok {
          entries := entries[k := P.Entry(t, ZERO_TIME, false)];
        }
      }
    }

    /** The harvest, at the end of `ticket`. */
    method HarvestNow(k: string, w: Inputs) returns (grant: Option<P.Grant>)
      requires k in entries
      requires w.outcome.Granted? ==> ValidTicket(w.outcome.ticket, w.answered)
      modifies this`entries, this`store, this`tmp
      ensures forall other | other != k :: other in entries <==> other in old(entries)
      ensures forall other | other != k && other in entries :: entries[other] == old(entries)[other]
      ensures k in entries
      ensures Harvested(old(entries[k]), entries[k], grant, w, Stores(w.storing, old(store)))
      ensures if w.outcome.Granted? && grant.Some? then w.outcome.ticket in P.RecordsOf(store) else store == old(store)
    {
      hide KeyOf, ValidTicket;
      var e := entries[k];
      grant := None;
      match w.outcome
      case NoClient =>
        PutEntry(k, e.(cooldown := w.answered + P.MINUTE));
      case Refused(terminal, limited) =>
        e := e.(cooldown := w.answered + P.MINUTE, blocked := terminal);
        if terminal || limited {
          e := e.(cooldown := w.answered + P.COOLDOWN);
        }
        PutEntry(k, e);
        if !terminal && ValidTicket(e.ticket, w.answered) {
          grant := Some(P.Grant(e.ticket, w.answered));
        }
      case Granted(t) =>
        NotEmpty(t, w.answered);
        var ok := Persist(k, t, w.storing, w.storeClock);
        if ok {
          PutEntry(k, e.(ticket := t, cooldown := ZERO_TIME));
          grant := Some(P.Grant(t, w.answered));
        }
    }

    /** Every cached ticket is filed under its own key. */
    ghost predicate Filed()
      reads this
    {
      forall k | k in entries && entries[k].ticket.value != "" :: KeyOf(entries[k].ticket) == k
    }

    /** The part of `ticket` behind the import. */
    method Decide(k: string, w: Inputs) returns (grant: Option<P.Grant>)
      requires Filed() && k in entries && w.now <= w.answered
      requires w.outcome.Granted? ==> KeyOf(w.outcome.ticket) == k && ValidTicket(w.outcome.ticket, w.answered)
      modifies this`entries, this`store, this`tmp
      ensures Filed() && k in entries
      ensures forall other | other != k :: other in entries <==> other in old(entries)
      ensures forall other | other != k && other in entries :: entries[other] == old(entries)[other]
      ensures Decided(old(entries[k]), entries[k], grant, w, Stores(w.storing, old(store)))
      ensures var f := entries[k];
        grant.Some? ==> grant.value.ticket == f.ticket && KeyOf(f.ticket) == k
                        && ValidTicket(f.ticket, grant.value.at) && w.now <= grant.value.at <= w.answered
      ensures var d, f := old(entries[k]), entries[k];
        f.ticket != d.ticket || f.cooldown < d.cooldown || store != old(store) ==> f.ticket in P.RecordsOf(store)
      ensures old(entries[k]).blocked ==> entries[k] == old(entries[k]) && store == old(store) && grant.None?
    {
      hide KeyOf, ValidTicket, P.RecordsOf;
      grant := None;
      var f := entries[k];
      if f.blocked {
        return;
      }
      if P.IsFresh(f.ticket, w.now) {
        NotEmpty(f.ticket, w.now);
        return Some(P.Grant(f.ticket, w.now));
      }
      if w.now < f.cooldown {
        if ValidTicket(f.ticket, w.now) {
          NotEmpty(f.ticket, w.now);
          grant := Some(P.Grant(f.ticket, w.now));
        }
        return;
      }
      if w.canceled {
        return;
      }
      grant := HarvestNow(k, w);
      if grant.Some? {
        GrantNotEmpty(grant.value);
      }
    }

    /** `ticket`: what it gives out and what it does to the entry. */
    method Ticket(r: P.Request, w: Inputs) returns (grant: Option<P.Grant>)
      requires Filed() && w.now <= w.answered
      requires w.outcome.Granted? ==>
        KeyOf(w.outcome.ticket) == P.RequestKey(r) && ValidTicket(w.outcome.ticket, w.answered)
      modifies this`entries, this`store, this`tmp
      ensures Filed() && P.RequestKey(r) in entries
      ensures forall other | other != P.RequestKey(r) :: other in entries <==> other in old(entries)
      ensures forall other | other != P.RequestKey(r) && other in entries :: entries[other] == old(entries)[other]
      // Unless the account is suspended: no candidate that cannot be stored, then the decision about the
      // entry, and a harvest exactly where that decision asks for one.
      ensures var e, f := old(EntryOf(P.RequestKey(r))), EntryOf(P.RequestKey(r));
        r.account !in config.suspended ==>
          match Considered(e, P.RequestKey(r), w, Stores(w.importing, old(store)))
          case None => grant.None? && f == e
          case Some(d) => Decided(d, f, grant, w, Stores(w.storing, old(store)))
      // What is given out is cached under the request's own key and valid when it is.
      ensures var f := EntryOf(P.RequestKey(r));
        grant.Some? ==> grant.value.ticket == f.ticket && KeyOf(f.ticket) == P.RequestKey(r)
                        && ValidTicket(f.ticket, grant.value.at) && w.now <= grant.value.at <= w.answered
      // A new ticket, and an earlier cooldown, only after the ticket is in the store; and the store
      // changes only for a ticket that is then cached.
      ensures var e, f := old(EntryOf(P.RequestKey(r))), EntryOf(P.RequestKey(r));
        f.ticket != e.ticket || f.cooldown < e.cooldown || store != old(store) ==> f.ticket in P.RecordsOf(store)
      // Suspended and blocked requests get nothing and change nothing.
      ensures var e, f := old(EntryOf(P.RequestKey(r))), EntryOf(P.RequestKey(r));
        r.account in config.suspended
        || (e.blocked && !P.Importable(w.candidate, P.RequestKey(r), w.now, e.ticket))
        ==> grant.None? && f == e && store == old(store)
    {
      hide KeyOf, ValidTicket, P.RequestKey, P.RecordsOf, Decided;
      var k := P.RequestKey(r);
      entries := entries[k := EntryOf(k)];
      grant := None;
      if r.account in config.suspended {
        return;
      }
      var ok := ImportCandidate(k, w);
      if !ok {
        return;
      }
      assert Filed();
      grant := Decide(k, w);
    }
  }

  lemma NotEmpty(t: Ticket, now: int)
    requires ValidTicket(t, now)
    ensures t.value != ""
  {
  }

  lemma GrantNotEmpty(g: P.Grant)
    ensures ValidTicket(g.ticket, g.at) ==> g.ticket.value != ""
  {
  }
}
