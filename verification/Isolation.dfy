/** What the entries and the calls hold: every cached ticket is admissible and filed under its own
    key, every ticket on its way upstream belongs to the request that carries it, and an entry
    changes only in the hands of the call that holds its lock. */
module Isolation {
  import opened Wrappers
  import opened Tickets
  import opened Plugin
  import opened Resources

  predicate Owns(r: Request, ticket: Ticket) {
    ticket.account == r.account && ticket.model == r.model && ticket.hash == r.hash
  }

  /** A ticket that may be injected into request `r`: it is the request's own, and it was valid at
      an instant of the call. */
  predicate GrantOk(g: Grant, r: Request, since: int, clock: int) {
    Owns(r, g.ticket) && ValidTicket(g.ticket, g.at) && since <= g.at <= clock
  }

  predicate EntryOk(k: string, e: Entry, clock: int) {
    && (e.ticket == EMPTY
        || (Admissible(e.ticket) && KeyOf(e.ticket) == k && e.ticket.issued <= Unix(clock) + 30))
    && e.cooldown <= clock + COOLDOWN
  }

  function Lookup(entries: map<string, Entry>, k: string): Entry {
    if k in entries then entries[k] else FRESH
  }

  predicate JobOk(clock: int, e: Entry, r: Request, since: int, job: Job) {
    && Owns(r, job.ticket)
    && (match job
        case Import(ticket, now) =>
          ValidTicket(ticket, now) && since <= now <= clock && ticket.issued > e.ticket.issued
        case Harvested(ticket, now) =>
          ValidTicket(ticket, now) && since <= now <= clock && !e.blocked && e.cooldown <= clock
        case Revoke(ticket) => Admissible(ticket) && e.ticket == ticket)
  }

  /** The data a call carries at its program point, given the entry `e` of its key. */
  predicate CargoOk(clock: int, e: Entry, t: Thread) {
    match Core(t.pc)
    case ReadCandidate(now) => t.since <= now <= clock
    case Decide(now) => t.since <= now <= clock
    case PermitWait(now) => t.since <= now <= clock && !e.blocked && e.cooldown <= now && !IsFresh(e.ticket, now)
    case Harvest => !e.blocked && e.cooldown <= clock
    case Leave(result) => result.Some? ==> GrantOk(result.value, t.req, t.since, clock)
    case PersistWait(job) => JobOk(clock, e, t.req, t.since, job)
    case PersistRead(job) => JobOk(clock, e, t.req, t.since, job)
    case PersistFilter(job, _, _) => JobOk(clock, e, t.req, t.since, job)
    case PersistWrite(job, _) => JobOk(clock, e, t.req, t.since, job)
    case PersistRename(job) => JobOk(clock, e, t.req, t.since, job)
    case PersistDone(job, _) => JobOk(clock, e, t.req, t.since, job)
    case Publish(job, _) => JobOk(clock, e, t.req, t.since, job)
    case Send(out) => out.Injected? ==> GrantOk(out.grant, t.req, t.since, clock)
    case Await(out) => out.Injected? ==> GrantOk(out.grant, t.req, t.since, clock)
    case Backoff(_, out) => out.Injected? ==> GrantOk(out.grant, t.req, t.since, clock)
    case RevokeLookup(ticket, _) => Owns(t.req, ticket) && Admissible(ticket)
    case RevokeWait(ticket, _) => Owns(t.req, ticket) && Admissible(ticket)
    case RevokeCheck(ticket, _) => Owns(t.req, ticket) && Admissible(ticket)
    case _ => true
  }

  predicate WaitsForEntry(pc: Pc) {
    pc.EntryWait? || pc.CacheWait? || pc.RevokeWait?
  }

  predicate Configures(pc: Pc) {
    pc.CfgWait? || pc.CfgRead? || pc.CfgLoad?
  }

  predicate DataOk(clock: int, entries: map<string, Entry>, t: Thread) {
    var k := RequestKey(t.req);
    && t.since <= clock
    && (Configures(Core(t.pc)) || Core(t.pc).Done? || |t.req.hash| == 64)
    && (t.held.Some? ==> t.held.value == k)
    && (t.held.Some? || WaitsForEntry(Core(t.pc)) ==> k in entries)
    && CargoOk(clock, Lookup(entries, k), t)
  }

  ghost predicate IsolationOk(s: State) {
    && s.clock >= 0
    && (forall k | k in s.entries :: EntryOk(k, s.entries[k], s.clock))
    && forall i | 0 <= i < |s.threads| :: DataOk(s.clock, s.entries, s.threads[i])
  }

  // ---- steps ----

  /** How a call may change the entry it puts back. */
  predicate EntryChange(pc: Pc, before: Entry, after: Entry) {
    && (after.cooldown < before.cooldown ==> pc.Publish? && pc.ok && !pc.job.Revoke?)
    && (before.blocked && !after.blocked ==> pc.Publish? && pc.ok && pc.job.Import?)
    && (after.ticket != before.ticket ==>
          && pc.Publish?
          && (if pc.job.Revoke? then before.ticket == pc.job.ticket && after.ticket == EMPTY
              else pc.ok && after.ticket == pc.job.ticket))
  }

  /** An effect that respects locks and keeps the data in order. */
  predicate Careful(s: State, t: Thread, e: Effect) {
    && (e.op.PutEntry? ==>
          && EntryOk(e.op.key, e.op.entry, s.clock)
          && (e.op.entry == EntryOf(s, e.op.key) || e.op.key !in s.entries || t.held == Some(e.op.key))
          && (e.op.key in s.entries ==> EntryChange(t.pc, s.entries[e.op.key], e.op.entry)))
    && (e.op.TakeEntry? ==> e.op.key == RequestKey(t.req))
    && DataOk(s.clock, EntriesAfter(s, e.op), Moved(t, e))
  }

  /** The facts about a step's own thread and entry that its data depends on. */
  predicate Ready(s: State, t: Thread) {
    var k := RequestKey(t.req);
    && ShapeOk(t)
    && s.clock >= 0
    && DataOk(s.clock, s.entries, t)
    && EntryOk(k, EntryOf(s, k), s.clock)
  }

  lemma OwnKey(r: Request, ticket: Ticket)
    ensures Owns(r, ticket) ==> KeyOf(ticket) == RequestKey(r)
    ensures |r.hash| == 64 && |ticket.hash| == 64 && KeyOf(ticket) == RequestKey(r) ==> Owns(r, ticket)
  {
    hide Key;
    if |r.hash| == 64 && |ticket.hash| == 64 && KeyOf(ticket) == RequestKey(r) {
      KeyInjective(ticket.account, ticket.model, ticket.hash, r.account, r.model, r.hash);
    }
  }

  lemma SectionCareful(s: State, t: Thread)
    requires Ready(s, t) && t.pc.Section?
    ensures var next := if t.pc.count > 1 then Section(t.pc.count - 1, t.pc.next) else t.pc.next;
      Careful(s, t, Effect(next, Stay))
  {
    hide Key, ValidTicket, EntryOk, EntryChange, JobOk, GrantOk;
  }

  lemma AdmissionCareful(s: State, t: Thread, input: Input)
    requires Ready(s, t) && AdmissionStep(s, t, input).Some?
    ensures Careful(s, t, AdmissionStep(s, t, input).value)
  {
    if t.pc.Section? {
      hide Careful, Ready;
      SectionCareful(s, t);
    } else {
      OpeningCareful(s, t, input);
    }
  }

  lemma OpeningCareful(s: State, t: Thread, input: Input)
    requires Ready(s, t) && AdmissionStep(s, t, input).Some? && !t.pc.Section?
    ensures Careful(s, t, AdmissionStep(s, t, input).value)
  {
    if t.pc.BackoffCheck? {
      hide Careful, Ready;
      DispatchCareful(s, t, input);
    } else {
      BeforeDispatchCareful(s, t, input);
    }
  }

  lemma DispatchCareful(s: State, t: Thread, input: Input)
    requires Ready(s, t) && t.pc.BackoffCheck?
    ensures AdmissionStep(s, t, input).Some? && Careful(s, t, AdmissionStep(s, t, input).value)
  {
    hide Key, ValidTicket, EntryOk, EntryChange, JobOk, GrantOk;
  }

  lemma BeforeDispatchCareful(s: State, t: Thread, input: Input)
    requires Ready(s, t) && AdmissionStep(s, t, input).Some? && !t.pc.Section? && !t.pc.BackoffCheck?
    ensures Careful(s, t, AdmissionStep(s, t, input).value)
  {
    hide Key, ValidTicket, Admissible, IsFresh, Owns, EntryOk, EntryChange, JobOk, GrantOk, ShapeOk;
  }

  lemma CandidateCareful(s: State, t: Thread, input: Input)
    requires Ready(s, t) && t.pc.ReadCandidate? && TicketStep(s, t, input).Some?
    ensures Careful(s, t, TicketStep(s, t, input).value)
  {
    hide Key, EntryChange;
    if input.file.Some? { OwnKey(t.req, input.file.value); }
  }

  lemma DecideCareful(s: State, t: Thread, input: Input)
    requires Ready(s, t) && t.pc.Decide? && TicketStep(s, t, input).Some?
    ensures Careful(s, t, TicketStep(s, t, input).value)
  {
    hide Key, EntryChange, JobOk;
    OwnKey(t.req, EntryOf(s, RequestKey(t.req)).ticket);
  }

  lemma OtherTicketCareful(s: State, t: Thread, input: Input)
    requires Ready(s, t) && !t.pc.ReadCandidate? && !t.pc.Decide? && TicketStep(s, t, input).Some?
    ensures Careful(s, t, TicketStep(s, t, input).value)
  {
    hide Key, ValidTicket, JobOk, GrantOk;
  }

  lemma TicketCareful(s: State, t: Thread, input: Input)
    requires Ready(s, t) && TicketStep(s, t, input).Some?
    ensures Careful(s, t, TicketStep(s, t, input).value)
  {
    hide Careful, Ready;
    match t.pc
    case ReadCandidate(_) => CandidateCareful(s, t, input);
    case Decide(_) => DecideCareful(s, t, input);
    case _ => OtherTicketCareful(s, t, input);
  }

  lemma LeaveCareful(s: State, t: Thread)
    requires Ready(s, t) && t.pc.Leave?
    ensures Careful(s, t, CacheStep(s, t).value)
  {
    hide Key, ValidTicket, EntryOk, EntryChange, JobOk;
  }

  lemma CacheReadCareful(s: State, t: Thread)
    requires Ready(s, t) && t.pc.CacheRead?
    ensures Careful(s, t, CacheStep(s, t).value)
  {
    hide Key, EntryChange, JobOk;
    OwnKey(t.req, EntryOf(s, RequestKey(t.req)).ticket);
  }

  lemma CacheLookupCareful(s: State, t: Thread)
    requires Ready(s, t) && (t.pc.CacheLookup? || t.pc.CacheWait?) && CacheStep(s, t).Some?
    ensures Careful(s, t, CacheStep(s, t).value)
  {
    hide Key, ValidTicket, EntryOk, EntryChange, JobOk, GrantOk;
  }

  lemma CacheCareful(s: State, t: Thread)
    requires Ready(s, t) && CacheStep(s, t).Some?
    ensures Careful(s, t, CacheStep(s, t).value)
  {
    hide Careful, Ready;
    match t.pc
    case Leave(_) => LeaveCareful(s, t);
    case CacheRead => CacheReadCareful(s, t);
    case _ => CacheLookupCareful(s, t);
  }

  lemma HarvestCareful(s: State, t: Thread, input: Input)
    requires Ready(s, t) && t.pc.Harvest? && HarvestStep(s, t, input).Some?
    ensures Careful(s, t, HarvestStep(s, t, input).value)
  {
    hide Key, ParseState, InWindow, IsFresh;
    OwnKey(t.req, EntryOf(s, RequestKey(t.req)).ticket);
  }

  lemma PersistKeepsJob(s: State, t: Thread, input: Input, e: Effect)
    requires PartOf(t.pc) == Persisting && PersistStep(s, t, input) == Some(e)
    ensures InPersist(t.pc) && InPersist(e.pc) && e.pc.job == t.pc.job
    ensures !e.op.PutEntry? && !e.op.TakeEntry? && Moved(t, e) == t.(pc := e.pc)
  {
    hide Key, ValidTicket, Keeps, NewTicket, JobKey;
  }

  lemma PersistCargo(clock: int, e: Entry, t: Thread)
    requires InPersist(t.pc)
    ensures CargoOk(clock, e, t) == JobOk(clock, e, t.req, t.since, t.pc.job)
    ensures !Configures(Core(t.pc)) && !Core(t.pc).Done? && !WaitsForEntry(Core(t.pc))
  {
    hide JobOk;
  }

  lemma PersistCareful(s: State, t: Thread, input: Input)
    requires Ready(s, t) && PartOf(t.pc) == Persisting && PersistStep(s, t, input).Some?
    ensures Careful(s, t, PersistStep(s, t, input).value)
  {
    hide Key, CargoOk, JobOk, EntryOk, EntryChange, PersistStep, InPersist, Configures, WaitsForEntry, Core, Moved,
      ShapeOk, PartOf;
    var e, entry := PersistStep(s, t, input).value, Lookup(s.entries, RequestKey(t.req));
    PersistKeepsJob(s, t, input, e);
    PersistCargo(s.clock, entry, t);
    PersistCargo(s.clock, entry, t.(pc := e.pc));
  }

  lemma PublishCareful(s: State, t: Thread)
    requires Ready(s, t) && t.pc.Publish? && PublishStep(s, t).Some?
    ensures Careful(s, t, PublishStep(s, t).value)
  {
    hide Key, ValidTicket, Admissible;
    var ticket := t.pc.job.ticket;
    OwnKey(t.req, ticket);
    if !t.pc.job.Revoke? {
      ValidInTime(ticket, t.pc.job.now, s.clock);
    }
  }

  lemma ValidInTime(ticket: Ticket, now: int, clock: int)
    requires ValidTicket(ticket, now) && now <= clock
    ensures Admissible(ticket) && ticket.issued <= Unix(clock) + 30
  {
  }

  lemma GrantedIsRevocable(g: Grant, r: Request, since: int, clock: int)
    requires GrantOk(g, r, since, clock)
    ensures Owns(r, g.ticket) && Admissible(g.ticket)
  {
    hide ParseState;
  }

  lemma AwaitCareful(s: State, t: Thread, input: Input)
    requires Ready(s, t) && t.pc.Await? && UpstreamStep(s, t, input).Some?
    ensures Careful(s, t, UpstreamStep(s, t, input).value)
  {
    hide Key, EntryOk, EntryChange, JobOk, GrantOk, Owns, Admissible;
    if t.pc.out.Injected? { GrantedIsRevocable(t.pc.out.grant, t.req, t.since, s.clock); }
  }

  lemma BackoffCareful(s: State, t: Thread, input: Input)
    requires Ready(s, t) && t.pc.Backoff? && UpstreamStep(s, t, input).Some?
    ensures Careful(s, t, UpstreamStep(s, t, input).value)
  {
    hide Key, EntryOk, EntryChange, JobOk, GrantOk, Owns, Admissible;
    if t.pc.out.Injected? { GrantedIsRevocable(t.pc.out.grant, t.req, t.since, s.clock); }
  }

  lemma SendCareful(s: State, t: Thread, input: Input)
    requires Ready(s, t) && (t.pc.Send? || t.pc.Body?) && UpstreamStep(s, t, input).Some?
    ensures Careful(s, t, UpstreamStep(s, t, input).value)
  {
    hide Key, EntryOk, EntryChange, JobOk, GrantOk;
  }

  lemma UpstreamCareful(s: State, t: Thread, input: Input)
    requires Ready(s, t) && UpstreamStep(s, t, input).Some?
    ensures Careful(s, t, UpstreamStep(s, t, input).value)
  {
    hide Careful, Ready;
    match t.pc
    case Await(_) => AwaitCareful(s, t, input);
    case Backoff(_, _) => BackoffCareful(s, t, input);
    case _ => SendCareful(s, t, input);
  }

  /** Text and issue time identify the cached ticket, because both are filed under one key. */
  lemma SameTicket(r: Request, e: Entry, clock: int, ticket: Ticket)
    requires |r.hash| == 64 && Owns(r, ticket) && Admissible(ticket)
    requires EntryOk(RequestKey(r), e, clock)
    requires e.ticket.value == ticket.value && e.ticket.issued == ticket.issued
    ensures e.ticket == ticket
  {
    hide Key;
    OwnKey(r, ticket);
    OwnKey(r, e.ticket);
  }

  lemma RevokeCheckCareful(s: State, t: Thread)
    requires Ready(s, t) && t.pc.RevokeCheck?
    ensures Careful(s, t, RevokeStep(s, t).value)
  {
    hide Key, ValidTicket, Admissible, GrantOk;
    OwnKey(t.req, t.pc.ticket);
    var e := EntryOf(s, RequestKey(t.req));
    if e.ticket.value == t.pc.ticket.value && e.ticket.issued == t.pc.ticket.issued {
      SameTicket(t.req, e, s.clock, t.pc.ticket);
    }
  }

  lemma RevokeLookupCareful(s: State, t: Thread)
    requires Ready(s, t) && t.pc.RevokeLookup? && RevokeStep(s, t).Some?
    ensures Careful(s, t, RevokeStep(s, t).value)
  {
    hide Key, Admissible, GrantOk, JobOk, EntryOk, EntryChange;
    OwnKey(t.req, t.pc.ticket);
  }

  lemma RevokeWaitCareful(s: State, t: Thread)
    requires Ready(s, t) && t.pc.RevokeWait? && RevokeStep(s, t).Some?
    ensures Careful(s, t, RevokeStep(s, t).value)
  {
    hide Key, Admissible, GrantOk, JobOk, EntryOk, EntryChange;
    OwnKey(t.req, t.pc.ticket);
  }

  lemma RevokeCareful(s: State, t: Thread)
    requires Ready(s, t) && RevokeStep(s, t).Some?
    ensures Careful(s, t, RevokeStep(s, t).value)
  {
    hide Key, EntryOk, EntryChange, CargoOk, ShapeOk;
    match t.pc
    case RevokeLookup(_, _) => RevokeLookupCareful(s, t);
    case RevokeWait(_, _) => RevokeWaitCareful(s, t);
    case RevokeCheck(_, _) => RevokeCheckCareful(s, t);
    case _ => ReleaseCareful(s, t);
  }

  lemma ReleaseCareful(s: State, t: Thread)
    requires Ready(s, t) && t.pc.Release?
    ensures Careful(s, t, Effect(Body, GiveEntry))
  {
    hide Key, EntryOk, EntryChange;
  }

  lemma ConfigCareful(s: State, t: Thread, input: Input)
    requires Ready(s, t) && ConfigStep(s, t, input).Some?
    ensures Careful(s, t, ConfigStep(s, t, input).value)
  {
    hide Key, ValidTicket, Admissible, GrantOk, JobOk;
    if t.pc.CfgLoad? && t.pc.todo != [] && ValidTicket(t.pc.todo[0], s.clock) {
      ValidInTime(t.pc.todo[0], s.clock, s.clock);
    }
  }

  lemma ThreadCareful(s: State, t: Thread, input: Input)
    requires Ready(s, t) && ThreadStep(s, t, input).Some?
    ensures Careful(s, t, ThreadStep(s, t, input).value)
  {
    hide Careful, Ready, AdmissionStep, TicketStep, CacheStep, HarvestStep, PersistStep, PublishStep, UpstreamStep,
      RevokeStep, ConfigStep;
    match PartOf(t.pc)
    case Admission => AdmissionCareful(s, t, input);
    case Ticketing => TicketCareful(s, t, input);
    case Caching => CacheCareful(s, t);
    case Harvesting => HarvestCareful(s, t, input);
    case Persisting => PersistCareful(s, t, input);
    case Publishing => PublishCareful(s, t);
    case Upstream => UpstreamCareful(s, t, input);
    case Revoking => RevokeCareful(s, t);
    case Configuring => ConfigCareful(s, t, input);
    case Over =>
  }

  lemma CargoAwayFromEntry(clock: int, e: Entry, e': Entry, t: Thread)
    requires !InEntry(Core(t.pc))
    ensures CargoOk(clock, e, t) == CargoOk(clock, e', t)
  {
    hide JobOk, GrantOk;
  }

  /** A step disturbs no other call: entries change only under their locks. */
  lemma OtherData(s: State, i: nat, e: Effect, j: nat)
    requires i < |s.threads| && j < |s.threads| && i != j
    requires LocksOk(s) && ShapeOk(s.threads[j])
    requires Careful(s, s.threads[i], e)
    requires DataOk(s.clock, s.entries, s.threads[j])
    ensures DataOk(s.clock, EntriesAfter(s, e.op), s.threads[j])
  {
    hide Key, CargoOk, EntryOk, EntryChange;
    var t := s.threads[j];
    var k := RequestKey(t.req);
    if !InEntry(Core(t.pc)) {
      CargoAwayFromEntry(s.clock, Lookup(s.entries, k), Lookup(EntriesAfter(s, e.op), k), t);
    } else {
      assert Lookup(EntriesAfter(s, e.op), k) == Lookup(s.entries, k);
    }
  }

  lemma EntriesKept(s: State, t: Thread, e: Effect)
    requires Careful(s, t, e)
    requires forall k | k in s.entries :: EntryOk(k, s.entries[k], s.clock)
    ensures forall k | k in EntriesAfter(s, e.op) :: EntryOk(k, EntriesAfter(s, e.op)[k], s.clock)
  {
    hide EntryOk, EntryChange, DataOk;
  }

  lemma DataAges(s: State, to: int, t: Thread)
    requires s.clock <= to && DataOk(s.clock, s.entries, t)
    ensures DataOk(to, s.entries, t)
  {
    hide Key, Admissible;
  }

  lemma EntryAges(k: string, e: Entry, clock: int, to: int)
    requires clock <= to && EntryOk(k, e, clock)
    ensures EntryOk(k, e, to)
  {
    hide Key, Admissible;
  }

  lemma FreshReady(s: State, t: Thread)
    requires IsolationOk(s) && ShapeOk(t) && DataOk(s.clock, s.entries, t)
    ensures Ready(s, t)
  {
    hide Key, Admissible, CargoOk;
  }

  lemma StepIsCareful(s: State, i: nat, input: Input)
    requires ResourcesOk(s) && IsolationOk(s)
    requires i < |s.threads| && ThreadStep(s, s.threads[i], input).Some?
    ensures Careful(s, s.threads[i], ThreadStep(s, s.threads[i], input).value)
    ensures Legal(s, s.threads[i], ThreadStep(s, s.threads[i], input).value)
  {
    hide ThreadStep, Careful, Legal, Ready, DataOk, ShapeOk, EntryOk;
    FreshReady(s, s.threads[i]);
    ThreadCareful(s, s.threads[i], input);
    ThreadLegal(s, s.threads[i], input);
  }

  lemma RunKeepsIsolation(s: State, i: nat, e: Effect)
    requires ResourcesOk(s) && IsolationOk(s)
    requires i < |s.threads| && Careful(s, s.threads[i], e)
    ensures IsolationOk(Apply(s, i, e))
  {
    hide Careful, DataOk, ShapeOk, EntryOk, EntriesAfter, Moved, Legal;
    var s' := Apply(s, i, e);
    EntriesKept(s, s.threads[i], e);
    forall j | 0 <= j < |s'.threads| ensures DataOk(s'.clock, s'.entries, s'.threads[j]) {
      if j == i {
        CarefulOwn(s, s.threads[i], e);
      } else {
        OtherData(s, i, e, j);
      }
    }
  }

  lemma CarefulOwn(s: State, t: Thread, e: Effect)
    requires Careful(s, t, e)
    ensures DataOk(s.clock, EntriesAfter(s, e.op), Moved(t, e))
  {
    hide DataOk, EntryOk, EntryChange;
  }

  lemma ArrivalKeepsIsolation(s: State, t: Thread)
    requires IsolationOk(s) && t.since == s.clock && t.held.None?
    requires (t.pc.Scope? && |t.req.hash| == 64) || t.pc.CfgWait?
    ensures IsolationOk(s.(threads := s.threads + [t]))
  {
    hide Key, Admissible, EntryOk;
    assert DataOk(s.clock, s.entries, t);
    hide DataOk;
  }

  /** Every step of the machine keeps the data in order. */
  lemma IsolationPreserved(s: State, a: Action)
    requires ResourcesOk(s) && IsolationOk(s) && Next(s, a).Some?
    ensures IsolationOk(Next(s, a).value)
  {
    hide ThreadStep, Careful, DataOk, EntryOk, Apply, ResourcesOk, Legal;
    match a
    case Tick(to) =>
      forall k | k in s.entries ensures EntryOk(k, s.entries[k], to) {
        EntryAges(k, s.entries[k], s.clock, to);
      }
      forall i | 0 <= i < |s.threads| ensures DataOk(to, s.entries, s.threads[i]) {
        DataAges(s, to, s.threads[i]);
      }
    case Arrive(req) => ArrivalKeepsIsolation(s, Thread(req, Scope, false, None, false, s.clock));
    case Configure(config) =>
      ArrivalKeepsIsolation(s, Thread(NOBODY, CfgWait(config), false, None, false, s.clock));
    case Crash(torn) =>
    case Run(i, input) =>
      StepIsCareful(s, i, input);
      RunKeepsIsolation(s, i, ThreadStep(s, s.threads[i], input).value);
  }
}
