/** What cache and disk are to each other in every state of every run that starts over a tidy
    store: durability, recovery from a crash, and no lost records. */
module Runs {
  import opened Wrappers
  import opened Tickets
  import opened Plugin
  import opened Resources
  import opened Isolation
  import opened Safety
  import opened Durability

  lemma InvariantInitially(s: State)
    requires Initial(s) && SoundRecords(RecordsOf(s.store), s.clock)
    ensures Invariant(s)
  {
    hide Key, Admissible, Safe;
    EmptyIsInvalid(s.clock);
    SafeInitially(s);
  }

  lemma InvariantPreserved(s: State, a: Action)
    requires Invariant(s) && Next(s, a).Some?
    ensures Invariant(Next(s, a).value)
  {
    hide Safe, ThreadStep, Apply, OnDisk, NothingElse, AllCached, StartupOk, SoundRecords, ProgressOk;
    SafePreserved(s, a);
    match a
    case Tick(to) =>
      TickKeepsStore(s, to);
      forall i | 0 <= i < |s.threads| ensures ProgressOk(s.(clock := to), s.threads[i]) {
        TickKeepsProgress(s, to, s.threads[i]);
      }
      assert StartupOk(s.(clock := to)) by { StartupIgnoresClock(s, to); }
    case Arrive(req) => ArrivalKeepsDurability(s, Thread(req, Scope, false, None, false, s.clock));
    case Configure(config) =>
      ArrivalKeepsDurability(s, Thread(NOBODY, CfgWait(config), false, None, false, s.clock));
    case Crash(torn) => RestartDurability(s, torn);
    case Run(i, input) => RunKeepsDurability(s, i, input, ThreadStep(s, s.threads[i], input).value);
  }

  lemma StartupIgnoresClock(s: State, to: int)
    requires StartupOk(s)
    ensures StartupOk(s.(clock := to))
  {
  }

  /** The invariant holds in every state of every run that starts over a tidy store. */
  lemma {:induction false} InvariantAlong(states: seq<State>, actions: seq<Action>, n: nat)
    requires IsRun(states, actions) && TidyStart(states) && n < |states|
    ensures Invariant(states[n])
  {
    hide Initial, Invariant, Next, SoundRecords;
    if n == 0 {
      InvariantInitially(states[0]);
    } else {
      InvariantAlong(states, actions, n - 1);
      assert Next(states[n - 1], actions[n - 1]) == Some(states[n]);
      InvariantPreserved(states[n - 1], actions[n - 1]);
    }
  }

  // ---- durability ----

  /** Whenever an entry's lock is free, its still-valid ticket is on disk, alone under its key. */
  lemma CachedIsStored(states: seq<State>, actions: seq<Action>, n: nat, k: string)
    requires IsRun(states, actions) && TidyStart(states) && n < |states|
    requires k in states[n].entries && k !in states[n].locks
    requires ValidTicket(states[n].entries[k].ticket, states[n].clock)
    ensures var t := states[n].entries[k].ticket;
            var rs := RecordsOf(states[n].store);
            t in rs && forall r | r in rs && KeyOf(r) == k :: r == t
  {
    hide IsRun, Key, Admissible, ProgressOk, StartupOk, IsolationOk, ResourcesOk;
    InvariantAlong(states, actions, n);
    EmptyIsInvalid(states[n].clock);
    var t := states[n].entries[k].ticket;
    assert Effective(states[n], k) == t;
  }

  lemma PublisherHolds(clock: int, entries: map<string, Entry>, t: Thread)
    requires ShapeOk(t) && DataOk(clock, entries, t) && t.pc.Publish?
    ensures t.held == Some(RequestKey(t.req))
  {
    hide Key, CargoOk;
  }

  /** Persist before publish: a call that is about to cache an imported or harvested ticket finds it
      on disk, as long as it is valid. */
  lemma PublishedIsStored(states: seq<State>, actions: seq<Action>, n: nat, i: nat)
    requires IsRun(states, actions) && TidyStart(states) && n < |states| && i < |states[n].threads|
    requires states[n].threads[i].pc.Publish? && states[n].threads[i].pc.ok && !states[n].threads[i].pc.job.Revoke?
    requires ValidTicket(states[n].threads[i].pc.job.ticket, states[n].clock)
    ensures states[n].threads[i].pc.job.ticket in RecordsOf(states[n].store)
  {
    hide IsRun, Key, ValidTicket, Admissible, ProgressOk, StartupOk, ShapeOk, DataOk, EntryOk;
    InvariantAlong(states, actions, n);
    var s := states[n];
    PublisherHolds(s.clock, s.entries, s.threads[i]);
    assert Effective(s, RequestKey(s.threads[i].req)) == s.threads[i].pc.job.ticket;
  }

  /** Conversely, once the store has been read and no ignored failure has happened, a valid record
      on disk is the ticket its entry holds. */
  lemma StoredIsCached(states: seq<State>, actions: seq<Action>, n: nat, r: Ticket)
    requires IsRun(states, actions) && TidyStart(states) && n < |states|
    requires states[n].loaded && !states[n].dirty
    requires r in RecordsOf(states[n].store) && ValidTicket(r, states[n].clock)
    requires KeyOf(r) !in states[n].locks
    ensures KeyOf(r) in states[n].entries && states[n].entries[KeyOf(r)].ticket == r
  {
    hide IsRun, Key, Admissible, ProgressOk, StartupOk, IsolationOk, ResourcesOk;
    InvariantAlong(states, actions, n);
    EmptyIsInvalid(states[n].clock);
  }

  /** Concurrent `persist` calls lose nothing: a step takes a valid record away from the disk only
      if it is the rename of a call for the record's own key, and a revocation takes away only the
      ticket that was denied. */
  lemma StoreLosesOnlyOwn(s: State, a: Action, r: Ticket)
    requires Invariant(s) && Next(s, a).Some?
    requires r in RecordsOf(s.store) && ValidTicket(r, s.clock)
    requires r !in RecordsOf(Next(s, a).value.store)
    ensures a.Run? && a.thread < |s.threads| && s.threads[a.thread].pc.PersistRename? && !a.input.Fail?
    ensures var t := s.threads[a.thread];
            && RequestKey(t.req) == KeyOf(r)
            && (t.pc.job.Revoke? ==> r == t.pc.job.ticket)
  {
    hide Key, Admissible, ThreadStep, ResourcesOk, IsolationOk, OnDisk, AllCached, StartupOk, SoundRecords, WriteOk,
      NothingElse;
    var i := a.thread;
    var e := ThreadStep(s, s.threads[i], a.input).value;
    assert e.op.Rename?;
    RenamesOnlyThere(s, s.threads[i], a.input, e);
    LostRecordIsOwn(s, i, r);
  }

  lemma LostRecordIsOwn(s: State, i: nat, r: Ticket)
    requires Invariant(s) && i < |s.threads| && s.threads[i].pc.PersistRename?
    requires r in RecordsOf(s.store) && ValidTicket(r, s.clock) && r !in RecordsOf(s.tmp)
    ensures KeyOf(r) == RequestKey(s.threads[i].req)
    ensures s.threads[i].pc.job.Revoke? ==> r == s.threads[i].pc.job.ticket
  {
    hide Key, ValidTicket, Admissible, ResourcesOk, OnDisk, AllCached, StartupOk, DistinctKeys, EntryOk, Effective;
    var t := s.threads[i];
    assert ProgressOk(s, t) && DataOk(s.clock, s.entries, t);
    assert Keeps(r, RequestKey(t.req), s.clock) || KeyOf(r) == RequestKey(t.req);
    if t.pc.job.Revoke? {
      RevokedValue(s, i);
      assert Effective(s, KeyOf(r)) == t.pc.job.ticket;
      EmptyNotAdmissible();
    }
  }

  lemma RevokedEntry(clock: int, entries: map<string, Entry>, t: Thread)
    requires ShapeOk(t) && DataOk(clock, entries, t) && t.pc.PersistRename? && t.pc.job.Revoke?
    ensures t.held == Some(RequestKey(t.req))
    ensures Lookup(entries, RequestKey(t.req)).ticket == t.pc.job.ticket
  {
    hide Key, ValidTicket, Admissible;
  }

  lemma RevokedValue(s: State, i: nat)
    requires ResourcesOk(s) && IsolationOk(s) && i < |s.threads|
    requires s.threads[i].pc.PersistRename? && s.threads[i].pc.job.Revoke?
    ensures Effective(s, RequestKey(s.threads[i].req)) == s.threads[i].pc.job.ticket
  {
    hide Key, ShapeOk, DataOk, MutexOk, SlotsOk, PermitsOk, EntryOk;
    RevokedEntry(s.clock, s.entries, s.threads[i]);
  }

  // ---- recovery ----

  /** Until the store has been read after a restart, nothing is written. */
  lemma StartupWritesNothing(s: State, a: Action)
    requires Invariant(s) && !s.loaded && !s.dirty && Next(s, a).Some?
    ensures Next(s, a).value.store == s.store
    ensures s.locks == map[]
    ensures a.Run? ==> Next(s, a).value.locks == map[]
  {
    hide Key, ValidTicket, ThreadStep, MutexOk, SlotsOk, PermitsOk, IsolationOk, OnDisk, NothingElse, AllCached,
      SoundRecords, ProgressOk, SlotsAfter, BackoffAfter, PermitsAfter, MutexAfter, EntriesAfter;
    NoLocksEarly(s);
    if a.Run? {
      var t := s.threads[a.thread];
      assert ShapeOk(t) && Early(t.pc);
      var e := ThreadStep(s, t, a.input).value;
      if e.op.Rename? { RenamesOnlyThere(s, t, a.input, e); }
      if PartOf(t.pc) == Configuring {
        ConfigStartupOps(s, t, a.input);
      } else {
        EarlyStep(s, t, a.input);
      }
    }
  }

  lemma ConfigStartupOps(s: State, t: Thread, input: Input)
    requires PartOf(t.pc) == Configuring && ThreadStep(s, t, input).Some?
    ensures var op := ThreadStep(s, t, input).value.op; !op.TakeEntry? && !op.GiveEntry? && !op.Rename?
  {
    hide Key, ValidTicket;
  }

  lemma NoLocksEarly(s: State)
    requires ResourcesOk(s) && StartupOk(s) && !s.loaded && !s.dirty
    ensures s.locks == map[]
  {
    hide MutexOk, SlotsOk, PermitsOk;
    if k :| k in s.locks {
      var t := s.threads[s.locks[k]];
      NotInEntryEarly(t);
      assert false;
    }
  }

  lemma NotInEntryEarly(t: Thread)
    requires ShapeOk(t) && Early(t.pc)
    ensures t.held.None?
  {
  }

  lemma {:induction false} StoreSurvivesStartup(states: seq<State>, actions: seq<Action>, i: nat, j: nat)
    requires IsRun(states, actions) && TidyStart(states) && i < j < |states|
    requires actions[i].Crash?
    requires forall m | i < m < j :: !states[m].loaded && !states[m].dirty
    ensures states[j].store == states[i].store
    ensures states[j].clock >= states[i].clock
    ensures states[j].locks == map[]
    decreases j
  {
    hide Initial, Invariant, Apply, ThreadStep;
    if j > i + 1 {
      StoreSurvivesStartup(states, actions, i, j - 1);
      InvariantAlong(states, actions, j - 1);
      assert Next(states[j - 1], actions[j - 1]) == Some(states[j]);
      StartupWritesNothing(states[j - 1], actions[j - 1]);
      ClockGrows(states[j - 1], actions[j - 1]);
    }
  }

  /** A crash at any step, followed by an `ApplyConfig` that reads the store: every key whose
      current value (published, or renamed into the store) is still valid gets that value back.
      If the lost process had read the store and ignored no failure, no key gets any other. */
  lemma CrashRecovery(states: seq<State>, actions: seq<Action>, i: nat, j: nat, k: string)
    requires IsRun(states, actions) && TidyStart(states) && i < j < |states|
    requires actions[i].Crash?
    requires forall m | i < m < j :: !states[m].loaded && !states[m].dirty
    requires states[j].loaded && !states[j].dirty
    ensures ValidTicket(Effective(states[i], k), states[j].clock)
            ==> EntryOf(states[j], k).ticket == Effective(states[i], k)
    ensures states[i].loaded && !states[i].dirty && ValidTicket(EntryOf(states[j], k).ticket, states[j].clock)
            ==> Effective(states[i], k) == EntryOf(states[j], k).ticket
  {
    hide IsRun, Key, Admissible, ProgressOk, StartupOk, ResourcesOk, DistinctKeys, NothingElse, Sound;
    hide Effective;
    StoreSurvivesStartup(states, actions, i, j);
    InvariantAlong(states, actions, i);
    InvariantAlong(states, actions, j);
    Unlocked(states[j], k);
    LocksOf(states[i]);
    LocksOf(states[j]);
    EffectiveSound(states[i], k);
    EffectiveSound(states[j], k);
    RecoveredValue(states[i], states[j], k);
  }

  lemma LocksOf(s: State)
    requires Invariant(s)
    ensures LocksOk(s)
  {
    hide IsolationOk, DurabilityOk, MutexOk, SlotsOk, PermitsOk, LocksOk;
  }

  lemma Unlocked(s: State, k: string)
    requires k !in s.locks
    ensures Effective(s, k) == EntryOf(s, k).ticket
  {
  }

  lemma RecoveredValue(s: State, s': State, k: string)
    requires OnDisk(s) && OnDisk(s') && AllCached(s) && AllCached(s')
    requires s'.store == s.store && s'.clock >= s.clock && s'.loaded && !s'.dirty
    requires Sound(Effective(s, k), k, s.clock) && Sound(Effective(s', k), k, s'.clock)
    requires forall r | r in RecordsOf(s.store) :: r.issued <= Unix(s.clock) + 30
    ensures ValidTicket(Effective(s, k), s'.clock) ==> Effective(s', k) == Effective(s, k)
    ensures s.loaded && !s.dirty && ValidTicket(Effective(s', k), s'.clock)
            ==> Effective(s, k) == Effective(s', k)
  {
    hide Key, Admissible, Effective;
    EmptyIsInvalid(s.clock);
    EmptyIsInvalid(s'.clock);
  }

  // ---- lost records ----

  /** In every run, a valid record that leaves the disk has been replaced by its own key's call; if
      that call revokes, a request that carried this very ticket had been answered 401 or 403. */
  lemma LostRecordHasCause(states: seq<State>, actions: seq<Action>, n: nat, r: Ticket) returns (m: nat)
    requires IsRun(states, actions) && TidyStart(states) && n < |actions|
    requires r in RecordsOf(states[n].store) && ValidTicket(r, states[n].clock)
    requires r !in RecordsOf(states[n + 1].store)
    ensures actions[n].Run? && actions[n].thread < |states[n].threads|
    ensures var t := states[n].threads[actions[n].thread];
      && t.pc.PersistRename? && RequestKey(t.req) == KeyOf(r)
      && (t.pc.job.Revoke? ==> WasDenied(states, actions, m, n, actions[n].thread, r))
  {
    hide Key, ValidTicket, Admissible, Next, Invariant, Initial, Denied;
    InvariantAlong(states, actions, n);
    assert Next(states[n], actions[n]) == Some(states[n + 1]);
    StoreLosesOnlyOwn(states[n], actions[n], r);
    m := 0;
    if states[n].threads[actions[n].thread].pc.job.Revoke? {
      m := RevocationHasCause(states, actions, n, actions[n].thread);
    }
  }
}
