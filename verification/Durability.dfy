/** The ticket store against the cache: a ticket is on disk before it is published, and the disk
    never holds anything else under its key. */
module Durability {
  import opened Wrappers
  import opened Tickets
  import opened Plugin
  import opened Resources
  import opened Isolation
  import opened Safety

  /** The value a call has renamed into the store and not yet published. */
  function PendingOf(pc: Pc): Option<Ticket> {
    if (pc.PersistDone? || pc.Publish?) && pc.ok then Some(NewTicket(pc.job)) else None
  }

  /** The value of a call's key as that call has left it. */
  function View(entries: map<string, Entry>, t: Thread): Ticket {
    match PendingOf(t.pc)
    case Some(ticket) => ticket
    case None => Lookup(entries, RequestKey(t.req)).ticket
  }

  /** The current value of a key: published, or renamed into the store and about to be. */
  function Effective(s: State, k: string): Ticket {
    if k in s.locks && s.locks[k] < |s.threads| && PendingOf(s.threads[s.locks[k]].pc).Some?
    then PendingOf(s.threads[s.locks[k]].pc).value
    else EntryOf(s, k).ticket
  }

  ghost predicate SoundRecords(rs: seq<Ticket>, clock: int) {
    DistinctKeys(rs) && forall r | r in rs :: r.issued <= Unix(clock) + 30
  }

  /** Every valid cached ticket is on disk. */
  ghost predicate OnDisk(s: State) {
    forall k :: ValidTicket(Effective(s, k), s.clock) ==> Effective(s, k) in RecordsOf(s.store)
  }

  /** Under the key of a cached ticket the disk holds nothing else. */
  ghost predicate NothingElse(s: State) {
    forall r | r in RecordsOf(s.store) :: Effective(s, KeyOf(r)) == EMPTY || Effective(s, KeyOf(r)) == r
  }

  /** Once the store has been read, and while no ignored failure has happened, every valid record
      on disk is the cached one. */
  ghost predicate AllCached(s: State) {
    s.loaded && !s.dirty ==>
      forall r | r in RecordsOf(s.store) :: ValidTicket(r, s.clock) ==> Effective(s, KeyOf(r)) == r
  }

  /** Until the store has been read no forwarded call gets past the account check. */
  ghost predicate StartupOk(s: State) {
    !s.loaded && !s.dirty ==>
      && (s.config.accounts == [] || s.mutex.Some?)
      && (forall k | k in s.entries :: s.entries[k].ticket != EMPTY)
      && forall i | 0 <= i < |s.threads| ::
           var pc := Core(s.threads[i].pc); pc.Scope? || pc.Done? || Configures(pc)
  }

  /** The loop of `persist` under key `k`: nothing but dead records and records of `k` is lost. */
  ghost predicate FilterOk(rs: seq<Ticket>, k: string, clock: int, kept: seq<Ticket>, todo: seq<Ticket>) {
    && (forall r | r in kept :: r in rs && KeyOf(r) != k)
    && (forall r | r in todo :: r in rs)
    && DistinctKeys(kept + todo)
    && forall r | r in rs :: Keeps(r, k, clock) ==> r in kept || r in todo
  }

  /** What `persist` writes: the surviving records of other keys, and the new one. */
  ghost predicate WriteOk(rs: seq<Ticket>, k: string, clock: int, new_: Ticket, out: seq<Ticket>) {
    && DistinctKeys(out)
    && (forall r | r in out :: (r in rs && KeyOf(r) != k) || (r == new_ && new_.value != ""))
    && (new_.value != "" ==> new_ in out)
    && forall r | r in rs :: Keeps(r, k, clock) ==> r in out
  }

  ghost predicate LoadOk(rs: seq<Ticket>, entries: map<string, Entry>, clock: int, todo: seq<Ticket>) {
    && (forall r | r in todo :: r in rs)
    && forall r | r in rs :: ValidTicket(r, clock) ==> r in todo || KeyOf(r) in entries
  }

  /** How far a call has got with the files. */
  ghost predicate ProgressOk(s: State, t: Thread) {
    var k := RequestKey(t.req);
    var rs := RecordsOf(s.store);
    match t.pc
    case PersistFilter(job, todo, kept) => FilterOk(rs, k, s.clock, kept, todo)
    case PersistWrite(job, kept) => WriteOk(rs, k, s.clock, NewTicket(job), kept)
    case PersistRename(job) => s.tmp.Records? && WriteOk(rs, k, s.clock, NewTicket(job), s.tmp.tickets)
    case Publish(job, ok) => job.Revoke? && !ok ==> s.dirty
    case CfgLoad(todo) => LoadOk(rs, s.entries, s.clock, todo)
    case _ => true
  }

  ghost predicate DurabilityOk(s: State) {
    && SoundRecords(RecordsOf(s.store), s.clock)
    && OnDisk(s)
    && NothingElse(s)
    && AllCached(s)
    && StartupOk(s)
    && forall i | 0 <= i < |s.threads| :: ProgressOk(s, s.threads[i])
  }

  /** The run starts over a store with one record per key, none of them issued more than 30 s in the
      future. */
  ghost predicate TidyStart(states: seq<State>) {
    states != [] && SoundRecords(RecordsOf(states[0].store), states[0].clock)
  }

  ghost predicate Invariant(s: State) {
    Safe(s) && DurabilityOk(s)
  }

  // ---- steps that change no effective value ----

  /** The step leaves the value of every key as it is. */
  predicate Calm(s: State, t: Thread, e: Effect) {
    && !e.op.Rename?
    && View(EntriesAfter(s, e.op), Moved(t, e)) == View(s.entries, t)
    && (e.op.PutEntry? ==>
          || e.op.entry.ticket == EntryOf(s, e.op.key).ticket
          || (e.op.key == RequestKey(t.req) && t.held.Some?))
    && (PendingOf(t.pc).Some? ==> t.held.Some?)
    && (PendingOf(e.pc).Some? ==> t.held.Some? && !e.op.GiveEntry?)
  }

  /** Another key: neither its entry nor the call that holds it is touched. */
  lemma CalmElsewhere(s: State, i: nat, e: Effect, k: string)
    requires i < |s.threads| && LocksOk(s)
    requires Calm(s, s.threads[i], e) && Legal(s, s.threads[i], e)
    requires DataOk(s.clock, s.entries, s.threads[i]) && (e.op.TakeEntry? ==> e.op.key == RequestKey(s.threads[i].req))
    requires k != RequestKey(s.threads[i].req) || (s.threads[i].held.None? && !e.op.TakeEntry?)
    ensures Effective(Apply(s, i, e), k) == Effective(s, k)
  {
    hide Key, CargoOk, ShapeOk, InsideLock, SlotsAfter, BackoffAfter, PermitsAfter, MutexAfter, PendingOf, View;
    assert EntryOf(Apply(s, i, e), k).ticket == EntryOf(s, k).ticket;
  }

  /** The key of the call: its value is what the call has made of it. */
  lemma CalmAtHome(s: State, i: nat, e: Effect)
    requires i < |s.threads| && LocksOk(s)
    requires Calm(s, s.threads[i], e) && Legal(s, s.threads[i], e)
    requires DataOk(s.clock, s.entries, s.threads[i]) && (e.op.TakeEntry? ==> e.op.key == RequestKey(s.threads[i].req))
    requires s.threads[i].held.Some? || e.op.TakeEntry?
    ensures var k := RequestKey(s.threads[i].req); Effective(Apply(s, i, e), k) == Effective(s, k)
  {
    hide Key, CargoOk, ShapeOk, InsideLock, SlotsAfter, BackoffAfter, PermitsAfter, MutexAfter, PendingOf;
    var t := s.threads[i];
    assert t.held.Some? ==> s.locks[RequestKey(t.req)] == i;
    assert View(Apply(s, i, e).entries, Moved(t, e)) == View(s.entries, t);
  }

  lemma CalmKeepsValues(s: State, i: nat, e: Effect)
    requires i < |s.threads| && LocksOk(s)
    requires Legal(s, s.threads[i], e) && Careful(s, s.threads[i], e)
    requires DataOk(s.clock, s.entries, s.threads[i])
    requires Calm(s, s.threads[i], e)
    ensures forall k :: Effective(Apply(s, i, e), k) == Effective(s, k)
  {
    hide Key, EntryOk, EntryChange, DataOk, Legal, Calm, LocksOk, Effective, Apply;
    var t := s.threads[i];
    forall k ensures Effective(Apply(s, i, e), k) == Effective(s, k) {
      if k == RequestKey(t.req) && (t.held.Some? || e.op.TakeEntry?) {
        CalmAtHome(s, i, e);
      } else {
        CalmElsewhere(s, i, e, k);
      }
    }
  }

  /** Program points that touch the files. */
  predicate AtFiles(pc: Pc) {
    pc.PersistFilter? || pc.PersistWrite? || pc.PersistRename? || pc.PersistDone? || pc.CfgLoad? || pc.Publish?
  }

  /** A step that has nothing to do with the files. */
  predicate OffFiles(e: Effect) {
    !AtFiles(e.pc) && !e.op.GiveMutex? && !e.op.BeginConfig? && !e.op.PutTmp? && !e.op.Rename?
  }

  /** The steps that do change one: the rename that succeeds, the revocation whose write failed,
      and the load of a record. */
  predicate Stirs(t: Thread, e: Effect) {
    || e.op.Rename?
    || (t.pc.Publish? && t.pc.job.Revoke? && !t.pc.ok)
    || (t.pc.CfgLoad? && e.op.PutEntry?)
  }

  lemma SectionCalm(s: State, t: Thread)
    requires Ready(s, t) && t.pc.Section?
    ensures var e := Effect(if t.pc.count > 1 then Section(t.pc.count - 1, t.pc.next) else t.pc.next, Stay);
      Calm(s, t, e) && OffFiles(e)
  {
    hide Key, ValidTicket, Admissible, EntryOk, GrantOk, JobOk, CargoOk;
  }

  lemma AdmissionCalm(s: State, t: Thread, input: Input)
    requires Ready(s, t) && AdmissionStep(s, t, input).Some?
    ensures Stirs(t, AdmissionStep(s, t, input).value) || Calm(s, t, AdmissionStep(s, t, input).value)
    ensures OffFiles(AdmissionStep(s, t, input).value)
  {
    if t.pc.Section? {
      hide Calm, Ready, OffFiles;
      SectionCalm(s, t);
    } else {
      OpeningCalm(s, t, input);
    }
  }

  lemma OpeningCalm(s: State, t: Thread, input: Input)
    requires Ready(s, t) && AdmissionStep(s, t, input).Some? && !t.pc.Section?
    ensures Calm(s, t, AdmissionStep(s, t, input).value) && OffFiles(AdmissionStep(s, t, input).value)
  {
    hide Key, ValidTicket, Admissible, EntryOk, GrantOk, JobOk, CargoOk;
  }

  lemma TicketCalm(s: State, t: Thread, input: Input)
    requires Ready(s, t) && TicketStep(s, t, input).Some?
    ensures Stirs(t, TicketStep(s, t, input).value) || Calm(s, t, TicketStep(s, t, input).value)
    ensures OffFiles(TicketStep(s, t, input).value)
  {
    hide Key, ValidTicket, Admissible, EntryOk, GrantOk;
  }

  lemma CacheCalm(s: State, t: Thread)
    requires Ready(s, t) && CacheStep(s, t).Some?
    ensures Stirs(t, CacheStep(s, t).value) || Calm(s, t, CacheStep(s, t).value)
    ensures OffFiles(CacheStep(s, t).value)
  {
    hide Key, ValidTicket, Admissible, EntryOk, GrantOk;
  }

  lemma HarvestCalm(s: State, t: Thread, input: Input)
    requires Ready(s, t) && t.pc.Harvest? && HarvestStep(s, t, input).Some?
    ensures Stirs(t, HarvestStep(s, t, input).value) || Calm(s, t, HarvestStep(s, t, input).value)
    ensures OffFiles(HarvestStep(s, t, input).value)
  {
    hide Key, ValidTicket, Admissible, EntryOk, GrantOk;
  }

  lemma PersistCalm(s: State, t: Thread, input: Input)
    requires Ready(s, t) && PersistStep(s, t, input).Some?
    ensures Stirs(t, PersistStep(s, t, input).value) || Calm(s, t, PersistStep(s, t, input).value)
  {
    hide Key, ValidTicket, Admissible, EntryOk, GrantOk;
  }

  lemma PublishCalm(s: State, t: Thread)
    requires Ready(s, t) && t.pc.Publish? && PublishStep(s, t).Some?
    ensures Stirs(t, PublishStep(s, t).value) || Calm(s, t, PublishStep(s, t).value)
    ensures OffFiles(PublishStep(s, t).value)
  {
    hide Key, ValidTicket, Admissible, EntryOk, GrantOk;
  }

  lemma UpstreamCalm(s: State, t: Thread, input: Input)
    requires Ready(s, t) && UpstreamStep(s, t, input).Some?
    ensures Stirs(t, UpstreamStep(s, t, input).value) || Calm(s, t, UpstreamStep(s, t, input).value)
    ensures OffFiles(UpstreamStep(s, t, input).value)
  {
    hide Key, ValidTicket, Admissible, EntryOk, GrantOk;
  }

  lemma RevokeCalm(s: State, t: Thread)
    requires Ready(s, t) && RevokeStep(s, t).Some?
    ensures Stirs(t, RevokeStep(s, t).value) || Calm(s, t, RevokeStep(s, t).value)
    ensures OffFiles(RevokeStep(s, t).value)
  {
    hide Key, ValidTicket, Admissible, EntryOk, GrantOk;
  }

  lemma ConfigCalm(s: State, t: Thread, input: Input)
    requires Ready(s, t) && ConfigStep(s, t, input).Some?
    ensures Stirs(t, ConfigStep(s, t, input).value) || Calm(s, t, ConfigStep(s, t, input).value)
  {
    hide Key, ValidTicket, Admissible, EntryOk, GrantOk;
  }

  lemma ThreadCalm(s: State, t: Thread, input: Input)
    requires Ready(s, t) && ThreadStep(s, t, input).Some?
    ensures Stirs(t, ThreadStep(s, t, input).value) || Calm(s, t, ThreadStep(s, t, input).value)
    ensures PartOf(t.pc) != Persisting && PartOf(t.pc) != Configuring ==>
              OffFiles(ThreadStep(s, t, input).value)
  {
    hide Ready, Stirs, Calm, OffFiles;
    hide AdmissionStep, TicketStep, CacheStep, HarvestStep, PersistStep, PublishStep, UpstreamStep, RevokeStep,
      ConfigStep;
    match PartOf(t.pc)
    case Admission => AdmissionCalm(s, t, input);
    case Ticketing => TicketCalm(s, t, input);
    case Caching => CacheCalm(s, t);
    case Harvesting => HarvestCalm(s, t, input);
    case Persisting => PersistCalm(s, t, input);
    case Publishing => PublishCalm(s, t);
    case Upstream => UpstreamCalm(s, t, input);
    case Revoking => RevokeCalm(s, t);
    case Configuring => ConfigCalm(s, t, input);
    case Over =>
  }

  // ---- what a current value can be ----

  predicate Sound(ticket: Ticket, k: string, clock: int) {
    ticket == EMPTY || (Admissible(ticket) && KeyOf(ticket) == k && ticket.issued <= Unix(clock) + 30)
  }

  lemma PendingSound(clock: int, entries: map<string, Entry>, t: Thread)
    requires DataOk(clock, entries, t) && InPersist(t.pc)
    ensures Sound(NewTicket(t.pc.job), RequestKey(t.req), clock)
  {
    hide Key, Admissible;
    OwnKey(t.req, t.pc.job.ticket);
  }

  lemma EffectiveSound(s: State, k: string)
    requires LocksOk(s) && IsolationOk(s)
    ensures Sound(Effective(s, k), k, s.clock)
  {
    hide Key, Admissible, CargoOk, NewTicket;
    if k in s.locks && PendingOf(s.threads[s.locks[k]].pc).Some? {
      PendingSound(s.clock, s.entries, s.threads[s.locks[k]]);
    }
  }

  lemma EmptyIsInvalid(now: int)
    ensures !ValidTicket(EMPTY, now)
  {
  }

  lemma AdmissibleHasText(ticket: Ticket)
    requires Admissible(ticket)
    ensures ticket.value != ""
  {
  }

  lemma DistinctSame(ts: seq<Ticket>, a: Ticket, b: Ticket)
    requires DistinctKeys(ts) && a in ts && b in ts && KeyOf(a) == KeyOf(b)
    ensures a == b
  {
    hide Key;
    var i :| 0 <= i < |ts| && ts[i] == a;
    var j :| 0 <= j < |ts| && ts[j] == b;
    assert i == j;
  }

  lemma DistinctDrop(kept: seq<Ticket>, todo: seq<Ticket>)
    requires |todo| > 0 && DistinctKeys(kept + todo)
    ensures DistinctKeys(kept + todo[1..])
    ensures DistinctKeys(kept + [todo[0]] + todo[1..])
  {
    hide Key;
    var all, rest := kept + todo, kept + todo[1..];
    forall i, j | 0 <= i < j < |rest| ensures KeyOf(rest[i]) != KeyOf(rest[j]) {
      var i' := if i < |kept| then i else i + 1;
      var j' := if j < |kept| then j else j + 1;
      assert rest[i] == all[i'] && rest[j] == all[j'];
    }
    assert kept + [todo[0]] + todo[1..] == all;
  }

  // ---- the four kinds of steps ----

  ghost predicate StoreOk(s: State) {
    SoundRecords(RecordsOf(s.store), s.clock) && OnDisk(s) && NothingElse(s) && AllCached(s)
  }

  lemma QuietKeepsStore(s: State, s': State)
    requires StoreOk(s) && s'.store == s.store && s'.clock == s.clock
    requires s'.loaded == s.loaded && (s.dirty ==> s'.dirty)
    requires forall k :: Effective(s', k) == Effective(s, k)
    ensures StoreOk(s')
  {
    hide Key, Admissible, Effective;
  }

  /** The store is read: every valid record has been given to an entry. */
  lemma LoadCompletes(s: State, s': State)
    requires StoreOk(s) && StartupOk(s) && s'.store == s.store && s'.clock == s.clock
    requires s.dirty ==> s'.dirty
    requires forall k :: Effective(s', k) == Effective(s, k)
    requires LoadOk(RecordsOf(s.store), s.entries, s.clock, [])
    ensures StoreOk(s')
  {
    hide Key, Admissible, Effective;
    if s'.loaded && !s'.dirty && !s.loaded {
      forall r | r in RecordsOf(s.store) && ValidTicket(r, s.clock) ensures Effective(s', KeyOf(r)) == r {
        StartupValue(s, KeyOf(r));
      }
    }
  }

  lemma StartupValue(s: State, k: string)
    requires StartupOk(s) && !s.loaded && !s.dirty && k in s.entries
    ensures Effective(s, k) != EMPTY
  {
    hide Key;
  }

  /** A successful rename makes the new record the value of its key and loses no other. */
  lemma RenameKeepsStore(s: State, s': State, k: string, new_: Ticket)
    requires StoreOk(s) && s'.clock == s.clock && s'.loaded == s.loaded && s'.dirty == s.dirty
    requires s'.store.Records? && WriteOk(RecordsOf(s.store), k, s.clock, new_, s'.store.tickets)
    requires Sound(new_, k, s.clock)
    requires Effective(s', k) == new_
    requires forall q | q != k :: Effective(s', q) == Effective(s, q)
    requires forall q :: Sound(Effective(s, q), q, s.clock)
    ensures StoreOk(s')
  {
    hide Key, Admissible, Effective;
    EmptyIsInvalid(s.clock);
    forall q | ValidTicket(Effective(s', q), s'.clock) ensures Effective(s', q) in RecordsOf(s'.store) {
      if q != k { assert Keeps(Effective(s, q), k, s.clock); } else { AdmissibleHasText(new_); }
    }
  }

  lemma FailedRevocationKeepsStore(s: State, s': State, k: string)
    requires StoreOk(s) && s'.clock == s.clock && s'.store == s.store && s'.dirty
    requires Effective(s', k) == EMPTY
    requires forall q | q != k :: Effective(s', q) == Effective(s, q)
    ensures StoreOk(s')
  {
    hide Key, Admissible, Effective;
    EmptyIsInvalid(s.clock);
  }

  /** A record loaded into a new entry becomes the value of its key. */
  lemma LoadKeepsStore(s: State, s': State, r: Ticket)
    requires StoreOk(s) && s'.clock == s.clock && s'.store == s.store
    requires s'.loaded == s.loaded && s'.dirty == s.dirty
    requires r in RecordsOf(s.store) && ValidTicket(r, s.clock)
    requires Effective(s, KeyOf(r)) == EMPTY && Effective(s', KeyOf(r)) == r
    requires forall q | q != KeyOf(r) :: Effective(s', q) == Effective(s, q)
    ensures StoreOk(s')
  {
    hide Key, Admissible, Effective;
    forall x | x in RecordsOf(s.store) && KeyOf(x) == KeyOf(r) ensures x == r {
      DistinctSame(RecordsOf(s.store), x, r);
    }
  }

  // ---- progress with the files ----

  lemma FilterStep(rs: seq<Ticket>, k: string, clock: int, kept: seq<Ticket>, todo: seq<Ticket>)
    requires FilterOk(rs, k, clock, kept, todo) && |todo| > 0
    ensures FilterOk(rs, k, clock, if Keeps(todo[0], k, clock) then kept + [todo[0]] else kept, todo[1..])
  {
    hide Key, Admissible;
    DistinctDrop(kept, todo);
    assert todo == [todo[0]] + todo[1..];
  }

  lemma FilterDone(rs: seq<Ticket>, k: string, clock: int, kept: seq<Ticket>, new_: Ticket)
    requires FilterOk(rs, k, clock, kept, [])
    requires Sound(new_, k, clock)
    ensures WriteOk(rs, k, clock, new_, if new_.value != "" then kept + [new_] else kept)
  {
    hide Key, Admissible;
    assert kept + [] == kept;
  }

  /** A step keeps the progress of its own call. */
  lemma PersistProgress(s: State, i: nat, input: Input)
    requires i < |s.threads| && Ready(s, s.threads[i]) && ProgressOk(s, s.threads[i])
    requires SoundRecords(RecordsOf(s.store), s.clock)
    requires PersistStep(s, s.threads[i], input).Some?
    ensures var e := PersistStep(s, s.threads[i], input).value;
            ProgressOk(Apply(s, i, e), Moved(s.threads[i], e))
  {
    hide Key, ValidTicket, Admissible, FilterOk, WriteOk, LoadOk, Sound;
    hide SlotsAfter, BackoffAfter, PermitsAfter, MutexAfter, LocksAfter, EntriesAfter;
    var t := s.threads[i];
    var k := RequestKey(t.req);
    PendingSound(s.clock, s.entries, t);
    JobKeyIsOwn(s.clock, s.entries, t);
    match t.pc
    case PersistRead(job) => FilterBegins(RecordsOf(s.store), k, s.clock);
    case PersistFilter(job, todo, kept) =>
      if todo == [] {
        FilterDone(RecordsOf(s.store), k, s.clock, kept, NewTicket(job));
      } else {
        FilterStep(RecordsOf(s.store), k, s.clock, kept, todo);
      }
    case _ =>
  }

  lemma FilterBegins(rs: seq<Ticket>, k: string, clock: int)
    requires DistinctKeys(rs)
    ensures FilterOk(rs, k, clock, [], rs)
  {
    hide Key, Admissible;
    assert [] + rs == rs;
  }

  lemma JobKeyIsOwn(clock: int, entries: map<string, Entry>, t: Thread)
    requires DataOk(clock, entries, t) && InPersist(t.pc)
    ensures JobKey(t.req, t.pc.job) == RequestKey(t.req)
  {
    hide Key, Admissible;
    OwnKey(t.req, t.pc.job.ticket);
  }

  lemma ConfigProgress(s: State, i: nat, input: Input)
    requires i < |s.threads| && Ready(s, s.threads[i]) && ProgressOk(s, s.threads[i])
    requires ConfigStep(s, s.threads[i], input).Some?
    ensures var e := ConfigStep(s, s.threads[i], input).value;
            ProgressOk(Apply(s, i, e), Moved(s.threads[i], e))
  {
    hide Key, Admissible, EntryOk;
    hide SlotsAfter, BackoffAfter, PermitsAfter, MutexAfter, LocksAfter;
    if s.threads[i].pc.CfgLoad? && s.threads[i].pc.todo != [] {
      var todo := s.threads[i].pc.todo;
      assert todo == [todo[0]] + todo[1..];
    }
  }

  /** A step keeps the progress of every other call: only the holder of the plugin lock touches
      the files. */
  lemma OtherProgress(s: State, i: nat, e: Effect, j: nat)
    requires i < |s.threads| && j < |s.threads| && i != j
    requires MutexOk(s) && Legal(s, s.threads[i], e)
    requires ProgressOk(s, s.threads[j])
    ensures ProgressOk(Apply(s, i, e), s.threads[j])
  {
    hide Key, ValidTicket, ShapeOk, FilterOk, WriteOk;
    hide SlotsAfter, BackoffAfter, PermitsAfter, LocksAfter;
  }

  lemma OwnProgress(s: State, i: nat, input: Input)
    requires i < |s.threads| && Ready(s, s.threads[i]) && ProgressOk(s, s.threads[i])
    requires SoundRecords(RecordsOf(s.store), s.clock)
    requires ThreadStep(s, s.threads[i], input).Some?
    ensures var e := ThreadStep(s, s.threads[i], input).value;
            ProgressOk(Apply(s, i, e), Moved(s.threads[i], e))
  {
    hide AdmissionStep, TicketStep, CacheStep, HarvestStep, PersistStep, PublishStep, UpstreamStep, RevokeStep,
      ConfigStep, Ready, Apply, SoundRecords;
    var t := s.threads[i];
    ThreadCalm(s, t, input);
    if PartOf(t.pc) == Persisting {
      PersistProgress(s, i, input);
    } else if PartOf(t.pc) == Configuring {
      ConfigProgress(s, i, input);
    }
  }

  // ---- the start of a process ----

  predicate Early(pc: Pc) {
    Core(pc).Scope? || Core(pc).Done? || Configures(Core(pc))
  }

  /** A forwarded call cannot get past the account check: no account is configured, or the plugin
      lock is taken by the call that is configuring them. */
  lemma EarlyStep(s: State, t: Thread, input: Input)
    requires Early(t.pc) && PartOf(t.pc) != Configuring && ShapeOk(t)
    requires s.config.accounts == [] || s.mutex.Some?
    requires ThreadStep(s, t, input).Some?
    ensures Early(ThreadStep(s, t, input).value.pc) && ThreadStep(s, t, input).value.op == Stay
  {
    hide Key;
    hide TicketStep, CacheStep, HarvestStep, PersistStep, PublishStep, UpstreamStep, RevokeStep, ConfigStep;
  }

  lemma ConfigStartup(s: State, t: Thread, input: Input)
    requires ConfigStep(s, t, input).Some?
    ensures var e := ConfigStep(s, t, input).value;
            && Early(e.pc)
            && (e.op.GiveMutex? ==> e.op.loaded || e.op.failed)
            && (e.op.PutEntry? ==> e.op.entry.ticket != EMPTY)
            && (e.op.BeginConfig? || e.op.GiveMutex? || e.op.PutEntry? || e.op.Stay?)
  {
    hide Key;
  }

  lemma StartupKept(s: State, i: nat, input: Input)
    requires i < |s.threads| && StartupOk(s) && ShapeOk(s.threads[i])
    requires ThreadStep(s, s.threads[i], input).Some?
    ensures StartupOk(Apply(s, i, ThreadStep(s, s.threads[i], input).value))
  {
    hide AdmissionStep, ConfigStep, Key, ShapeOk, InsideLock, Apply;
    var t := s.threads[i];
    if !s.loaded && !s.dirty {
      var e := ThreadStep(s, t, input).value;
      assert Early(t.pc);
      if PartOf(t.pc) == Configuring {
        ConfigStartup(s, t, input);
      } else {
        EarlyStep(s, t, input);
      }
      StartupMoves(s, i, e);
    } else {
      FlagsGrow(s, i, ThreadStep(s, t, input).value);
    }
  }

  lemma FlagsGrow(s: State, i: nat, e: Effect)
    requires i < |s.threads|
    ensures s.loaded ==> Apply(s, i, e).loaded
    ensures s.dirty ==> Apply(s, i, e).dirty
  {
  }

  lemma StartupMoves(s: State, i: nat, e: Effect)
    requires i < |s.threads| && StartupOk(s) && Early(e.pc)
    requires e.op.GiveMutex? ==> e.op.loaded || e.op.failed
    requires e.op.PutEntry? ==> e.op.entry.ticket != EMPTY
    requires e.op.BeginConfig? || e.op.GiveMutex? || e.op.PutEntry? || e.op.Stay?
    ensures StartupOk(Apply(s, i, e))
  {
    hide SlotsAfter, BackoffAfter, PermitsAfter, LocksAfter;
  }

  // ---- one step, altogether ----

  lemma OthersKeepValues(s: State, i: nat, e: Effect, key: string)
    requires i < |s.threads| && LocksOk(s) && Legal(s, s.threads[i], e)
    requires !e.op.TakeEntry? && !e.op.GiveEntry?
    requires s.threads[i].held.Some? ==> s.threads[i].held.value == key
    requires e.op.PutEntry? ==> e.op.key == key
    requires s.threads[i].held.Some? || (PendingOf(s.threads[i].pc).None? && PendingOf(e.pc).None?)
    ensures forall q | q != key :: Effective(Apply(s, i, e), q) == Effective(s, q)
  {
    hide Key, ShapeOk, InsideLock, SlotsAfter, BackoffAfter, PermitsAfter, MutexAfter;
  }

  lemma OwnValue(s: State, i: nat, e: Effect)
    requires i < |s.threads| && LocksOk(s) && Legal(s, s.threads[i], e)
    requires s.threads[i].held.Some? && !e.op.TakeEntry? && !e.op.GiveEntry?
    ensures Effective(Apply(s, i, e), s.threads[i].held.value)
         == if PendingOf(e.pc).Some? then PendingOf(e.pc).value
            else Lookup(EntriesAfter(s, e.op), s.threads[i].held.value).ticket
  {
    hide Key, ShapeOk, InsideLock, SlotsAfter, BackoffAfter, PermitsAfter, MutexAfter;
  }

  /** Everything the invariant says about the call that is about to step. */
  lemma StepFacts(s: State, i: nat, input: Input, e: Effect)
    requires Invariant(s) && i < |s.threads| && ThreadStep(s, s.threads[i], input) == Some(e)
    ensures Careful(s, s.threads[i], e) && Legal(s, s.threads[i], e)
    ensures DataOk(s.clock, s.entries, s.threads[i]) && ShapeOk(s.threads[i]) && ProgressOk(s, s.threads[i])
    ensures Ready(s, s.threads[i])
    ensures StoreOk(s) && LocksOk(s) && MutexOk(s)
    ensures forall q :: Sound(Effective(s, q), q, s.clock)
  {
    hide ThreadStep, Careful, Legal, DataOk, ShapeOk, ProgressOk, Ready, Effective, Sound, EntryOk;
    StepSafe(s, i, input, e);
    StoreOkHolds(s);
    forall q ensures Sound(Effective(s, q), q, s.clock) { EffectiveSound(s, q); }
  }

  lemma StoreOkHolds(s: State)
    requires DurabilityOk(s)
    ensures StoreOk(s)
  {
    hide Key, Admissible;
  }

  lemma RenameStep(s: State, i: nat, input: Input, e: Effect)
    requires Invariant(s) && i < |s.threads| && ThreadStep(s, s.threads[i], input) == Some(e) && e.op.Rename?
    ensures StoreOk(Apply(s, i, e))
  {
    hide Key, Admissible, WriteOk, CargoOk, MutexOk, StoreOk, Effective, Invariant, LocksOk, Sound, ThreadStep;
    hide SlotsAfter, BackoffAfter, PermitsAfter, MutexAfter, EntriesAfter, LocksAfter, Careful, Legal, NewTicket;
    var t := s.threads[i];
    StepFacts(s, i, input, e);
    RenamesOnlyThere(s, t, input, e);
    PendingSound(s.clock, s.entries, t);
    OthersKeepValues(s, i, e, RequestKey(t.req));
    OwnValue(s, i, e);
    RenameKeepsStore(s, Apply(s, i, e), RequestKey(t.req), NewTicket(t.pc.job));
  }

  lemma RenamesOnlyThere(s: State, t: Thread, input: Input, e: Effect)
    requires ThreadStep(s, t, input) == Some(e) && e.op.Rename?
    ensures t.pc.PersistRename? && !input.Fail? && e.pc == PersistDone(t.pc.job, true)
  {
    hide Key, ValidTicket;
  }

  lemma FailedRevocationStep(s: State, i: nat, input: Input, e: Effect)
    requires Invariant(s) && i < |s.threads| && ThreadStep(s, s.threads[i], input) == Some(e)
    requires s.threads[i].pc.Publish? && s.threads[i].pc.job.Revoke? && !s.threads[i].pc.ok
    ensures StoreOk(Apply(s, i, e))
  {
    hide Key, Admissible, CargoOk, MutexOk, StoreOk, Effective, Invariant, LocksOk, Sound;
    hide SlotsAfter, BackoffAfter, PermitsAfter, MutexAfter, LocksAfter, Careful, Legal;
    var t := s.threads[i];
    StepFacts(s, i, input, e);
    JobKeyIsOwn(s.clock, s.entries, t);
    OthersKeepValues(s, i, e, RequestKey(t.req));
    OwnValue(s, i, e);
    FailedRevocationKeepsStore(s, Apply(s, i, e), RequestKey(t.req));
  }

  lemma LoadStep(s: State, i: nat, input: Input, e: Effect)
    requires Invariant(s) && i < |s.threads| && ThreadStep(s, s.threads[i], input) == Some(e)
    requires s.threads[i].pc.CfgLoad? && e.op.PutEntry?
    ensures StoreOk(Apply(s, i, e))
  {
    hide Key, ValidTicket, CargoOk, MutexOk, StoreOk, Effective, Invariant, LocksOk, Sound;
    hide SlotsAfter, BackoffAfter, PermitsAfter, MutexAfter, LocksAfter, EntriesAfter, Careful, Legal;
    var t := s.threads[i];
    var r := t.pc.todo[0];
    StepFacts(s, i, input, e);
    OthersKeepValues(s, i, e, KeyOf(r));
    IsolationOf(s);
    NewKeyValue(s, i, e);
    LoadKeepsStore(s, Apply(s, i, e), r);
  }

  lemma IsolationOf(s: State)
    requires Invariant(s)
    ensures IsolationOk(s) && StartupOk(s)
  {
    hide IsolationOk, ResourcesOk, StartupOk;
  }

  lemma NewKeyValue(s: State, i: nat, e: Effect)
    requires LocksOk(s) && IsolationOk(s) && i < |s.threads|
    requires e.op.PutEntry? && e.op.key !in s.entries && PendingOf(e.pc).None? && s.threads[i].held.None?
    ensures Effective(s, e.op.key) == EMPTY
    ensures Effective(Apply(s, i, e), e.op.key) == e.op.entry.ticket
  {
    hide Key, CargoOk, Admissible, SlotsAfter, BackoffAfter, PermitsAfter, MutexAfter;
    assert e.op.key !in s.locks;
  }

  lemma CalmStep(s: State, i: nat, input: Input, e: Effect)
    requires Invariant(s) && i < |s.threads| && ThreadStep(s, s.threads[i], input) == Some(e)
    requires Calm(s, s.threads[i], e)
    ensures StoreOk(Apply(s, i, e))
  {
    hide Key, ValidTicket, MutexOk, LocksOk, StoreOk, DataOk, Calm, Careful, Legal, Invariant, Effective, ProgressOk,
      ShapeOk, SlotsAfter, BackoffAfter, PermitsAfter, MutexAfter, LocksAfter, EntriesAfter, Moved, ThreadStep, Ready;
    var t := s.threads[i];
    StepFacts(s, i, input, e);
    CalmKeepsValues(s, i, e);
    CalmStore(s, t, e);
    IsolationOf(s);
    if e.op.GiveMutex? && e.op.loaded {
      LoadedStep(s, i, input, e);
      LoadCompletes(s, Apply(s, i, e));
    } else {
      QuietKeepsStore(s, Apply(s, i, e));
    }
  }

  lemma CalmStore(s: State, t: Thread, e: Effect)
    requires Calm(s, t, e)
    ensures !e.op.Rename?
  {
  }

  /** The step that marks the store as read has seen all of it. */
  lemma LoadedStep(s: State, i: nat, input: Input, e: Effect)
    requires Invariant(s) && i < |s.threads| && ThreadStep(s, s.threads[i], input) == Some(e)
    requires e.op.GiveMutex? && e.op.loaded
    ensures LoadOk(RecordsOf(s.store), s.entries, s.clock, [])
  {
    hide Key, ValidTicket, Invariant, ThreadStep, Careful, Legal, DataOk, ShapeOk, StoreOk, LocksOk, MutexOk, Effective;
    StepFacts(s, i, input, e);
    OnlyFilesLoad(s, s.threads[i], input, e);
  }

  lemma OnlyFilesLoad(s: State, t: Thread, input: Input, e: Effect)
    requires ThreadStep(s, t, input) == Some(e) && e.op.GiveMutex? && e.op.loaded
    ensures (t.pc.CfgLoad? && t.pc.todo == []) || (t.pc.CfgRead? && !s.store.Records?)
  {
    hide Key, ValidTicket;
  }

  lemma RunKeepsStore(s: State, i: nat, input: Input, e: Effect)
    requires Invariant(s) && i < |s.threads| && ThreadStep(s, s.threads[i], input) == Some(e)
    ensures StoreOk(Apply(s, i, e))
  {
    hide ThreadStep, Calm, Careful, Legal, DataOk, ShapeOk, ProgressOk, Ready, Effective, Sound, Invariant, StoreOk,
      Apply;
    var t := s.threads[i];
    StepFacts(s, i, input, e);
    ThreadCalm(s, t, input);
    if Calm(s, t, e) {
      CalmStep(s, i, input, e);
    } else if e.op.Rename? {
      RenameStep(s, i, input, e);
    } else if t.pc.Publish? {
      FailedRevocationStep(s, i, input, e);
    } else {
      LoadStep(s, i, input, e);
    }
  }

  lemma RunKeepsProgress(s: State, i: nat, input: Input, e: Effect)
    requires Invariant(s) && i < |s.threads| && ThreadStep(s, s.threads[i], input) == Some(e)
    ensures forall j | 0 <= j < |s.threads| :: ProgressOk(Apply(s, i, e), Apply(s, i, e).threads[j])
  {
    hide ThreadStep, Careful, Legal, DataOk, ShapeOk, ProgressOk, Ready, Effective, Sound, StoreOk, EntryOk,
      ResourcesOk, IsolationOk, Moved, OnDisk, NothingElse, AllCached, StartupOk, SoundRecords;
    StepFacts(s, i, input, e);
    OwnProgress(s, i, input);
    forall j | 0 <= j < |s.threads| ensures ProgressOk(Apply(s, i, e), Apply(s, i, e).threads[j]) {
      if j != i { OtherProgress(s, i, e, j); }
    }
  }

  lemma RunKeepsDurability(s: State, i: nat, input: Input, e: Effect)
    requires Invariant(s) && i < |s.threads| && ThreadStep(s, s.threads[i], input) == Some(e)
    ensures DurabilityOk(Apply(s, i, e))
  {
    hide ThreadStep, Careful, Legal, DataOk, ShapeOk, ProgressOk, Ready, Effective, Sound, StartupOk, Invariant, Apply,
      OnDisk, NothingElse, AllCached, SoundRecords;
    RunKeepsStore(s, i, input, e);
    RunKeepsProgress(s, i, input, e);
    StepFacts(s, i, input, e);
    IsolationOf(s);
    StartupKept(s, i, input);
    SameCount(s, i, e);
  }

  lemma SameCount(s: State, i: nat, e: Effect)
    requires i < |s.threads|
    ensures |Apply(s, i, e).threads| == |s.threads|
  {
  }

  // ---- the other actions ----

  lemma TickKeepsStore(s: State, to: int)
    requires Invariant(s) && s.clock <= to
    ensures StoreOk(s.(clock := to))
  {
    hide Key, Admissible, Invariant, MutexOk, LocksOk;
    var s' := s.(clock := to);
    IsolationOf(s);
    StoreOkOf(s);
    forall k ensures Effective(s', k) == Effective(s, k) && Sound(Effective(s, k), k, s.clock) {
      EffectiveSound(s, k);
    }
    hide Effective;
    EmptyIsInvalid(to);
  }

  lemma StoreOkOf(s: State)
    requires Invariant(s)
    ensures StoreOk(s) && LocksOk(s)
  {
    hide IsolationOk, OnDisk, NothingElse, AllCached, SoundRecords, StartupOk, MutexOk, SlotsOk, PermitsOk, LocksOk;
  }

  lemma TickKeepsProgress(s: State, to: int, t: Thread)
    requires s.clock <= to && SoundRecords(RecordsOf(s.store), s.clock) && ProgressOk(s, t)
    ensures ProgressOk(s.(clock := to), t)
  {
    hide Key, Admissible;
  }

  lemma ArrivalKeepsDurability(s: State, t: Thread)
    requires Invariant(s) && (t.pc.Scope? || t.pc.CfgWait?)
    ensures DurabilityOk(s.(threads := s.threads + [t]))
  {
    hide Key, ValidTicket, IsolationOk, MutexOk, SlotsOk, PermitsOk;
    var s' := s.(threads := s.threads + [t]);
    assert forall k :: Effective(s', k) == Effective(s, k);
    hide Effective;
    forall i | 0 <= i < |s'.threads| ensures ProgressOk(s', s'.threads[i]) {
      if i < |s.threads| { assert ProgressOk(s, s.threads[i]); }
    }
  }

  lemma RestartDurability(s: State, torn: bool)
    requires Invariant(s)
    ensures DurabilityOk(Restarted(s, torn))
  {
    hide Key, Admissible, IsolationOk, ResourcesOk;
    EmptyIsInvalid(s.clock);
  }
}
