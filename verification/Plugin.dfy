/** The plugin as a machine of interleaved steps.

    Every `Forward` and `ApplyConfig` call is a thread with a program counter.  One step of a
    thread is the work it does between two points where another thread can be seen: a section
    under the plugin lock that does no file work is one step, enabled when that lock is free;
    `persist` and the load loop of `ApplyConfig` do file work under the lock and are one step per
    file operation and per record.  Entry locks, business slots and harvest permits are taken and
    given back in separate steps.  What the network, the files and the clock answer arrives as the
    input of a step. */
module Plugin {
  import opened Wrappers
  import opened Tickets
  import opened RequestHeaders

  const BUSINESS_SLOTS := 2
  const HARVEST_PERMITS := 3
  const MINUTE := 60 * SECOND
  const COOLDOWN := 5 * MINUTE
  const HARVESTED_MODEL := "gpt-6-astra"

  /** The parts of a forwarded request the protocol looks at.  `hash` is the digest of the
      credentials that `Identity` reads from its headers; `statePath` says that it is a POST to one
      of the two paths that may carry a ticket. */
  datatype Request = Request(account: int, model: string, hash: string, statePath: bool, headers: Header)

  const NOBODY := Request(0, "", "", false, map[])

  datatype Config = Config(accounts: seq<int>, suspended: seq<int>)

  datatype Entry = Entry(ticket: Ticket, cooldown: int, blocked: bool)

  const FRESH := Entry(EMPTY, ZERO_TIME, false)

  /** What a ticket file holds. */
  datatype File = Absent | Malformed | Records(tickets: seq<Ticket>)

  /** A ticket together with the instant at which it was judged valid. */
  datatype Grant = Grant(ticket: Ticket, at: int)

  /** What is done to the state header of the request that goes upstream, in its canonical spelling. */
  datatype Outgoing = Untouched | Cleared | Injected(grant: Grant)

  /** Why a thread is inside `persist`. */
  datatype Job =
    | Import(ticket: Ticket, now: int)
    | Harvested(ticket: Ticket, now: int)
    | Revoke(ticket: Ticket)

  datatype Pc =
    // Forward, up to the backoff check
    | Scope
    | SlotLookup
    | SlotWait
    | BackoffRead
    | BackoffCheck(until: int)
    // ticket()
    | TicketLookup
    | EntryWait
    | ReadClock
    | ReadCandidate(now: int)
    | Decide(now: int)
    | PermitWait(now: int)
    | Harvest
    | Leave(result: Option<Grant>)
    // the other models only look into the cache
    | CacheLookup
    | CacheWait
    | CacheRead
    // persist()
    | PersistWait(job: Job)
    | PersistRead(job: Job)
    | PersistFilter(job: Job, todo: seq<Ticket>, kept: seq<Ticket>)
    | PersistWrite(job: Job, kept: seq<Ticket>)
    | PersistRename(job: Job)
    | PersistDone(job: Job, ok: bool)
    | Publish(job: Job, ok: bool)
    // Forward, from the upstream call on
    | Send(out: Outgoing)
    | Await(out: Outgoing)
    | Backoff(until: int, out: Outgoing)
    | RevokeLookup(ticket: Ticket, status: int)
    | RevokeWait(ticket: Ticket, status: int)
    | RevokeCheck(ticket: Ticket, status: int)
    | Release
    | Body
    | Finish
    | Done
    // ApplyConfig
    | CfgWait(config: Config)
    | CfgRead
    | CfgLoad(todo: seq<Ticket>)
    // `count` more sections under the plugin lock without a modelled effect: audit and counters
    | Section(count: nat, next: Pc)

  /** A call.  `slot`, `held` and `permit` are its pending deferred releases. */
  datatype Thread = Thread(req: Request, pc: Pc, slot: bool, held: Option<string>, permit: bool, since: int)

  /** `loaded` and `dirty` are for stating properties only: an `ApplyConfig` has read the store
      since the start of the process, and a store operation whose failure the code ignores has
      failed since then. */
  datatype State = State(
    clock: int,
    config: Config,
    entries: map<string, Entry>,
    slots: map<int, nat>,
    backoff: map<int, int>,
    permits: nat,
    mutex: Option<nat>,
    locks: map<string, nat>,
    store: File,
    tmp: File,
    threads: seq<Thread>,
    loaded: bool,
    dirty: bool)

  /** The answer of the harvest request, as `harvest` reports it. */
  datatype Outcome =
    | NoClient
    | Refused(terminal: bool, limited: bool)
    | Granted(ticket: Ticket)

  /** What the world contributes to a step. */
  datatype Input =
    | Go
    | Fail
    | Cancel
    | Candidate(file: Option<Ticket>)
    | Answer(outcome: Outcome)
    | Response(status: int, retry: int)

  datatype Action =
    | Tick(to: int)
    | Arrive(req: Request)
    | Configure(config: Config)
    | Crash(torn: bool)
    | Run(thread: nat, input: Input)

  /** The headers that go upstream. */
  function Sent(r: Request, out: Outgoing): Header {
    match out
    case Untouched => r.headers
    case Cleared => Del(r.headers, STATE)
    case Injected(g) => Set(r.headers, STATE, g.ticket.value)
  }

  function RequestKey(r: Request): string {
    Key(r.account, r.model, r.hash)
  }

  function EntryOf(s: State, k: string): Entry {
    if k in s.entries then s.entries[k] else FRESH
  }

  function RecordsOf(f: File): seq<Ticket> {
    if f.Records? then f.tickets else []
  }

  function SlotsTaken(s: State, account: int): nat {
    if account in s.slots then s.slots[account] else 0
  }

  function BackoffOf(s: State, account: int): int {
    if account in s.backoff then s.backoff[account] else ZERO_TIME
  }

  /** The record `persist` adds: none for a revocation. */
  function NewTicket(job: Job): Ticket {
    if job.Revoke? then EMPTY else job.ticket
  }

  /** The key `persist` is called with. */
  function JobKey(r: Request, job: Job): string {
    if job.Revoke? then KeyOf(job.ticket) else RequestKey(r)
  }

  // ---- steps ----

  /** The one thing a step does besides moving its program counter. */
  datatype Op =
    | Stay
    | OpenSlots
    | TakeSlot
    | GiveSlot
    | TakePermit
    | GivePermit
    | TakeEntry(key: string)
    | GiveEntry
    | TakeMutex
    | GiveMutex(loaded: bool, failed: bool)
    | BeginConfig(config: Config)
    | PutEntry(key: string, entry: Entry)
    | NoteBackoff(until: int)
    | PutTmp(file: File)
    | Rename

  datatype Effect = Effect(pc: Pc, op: Op)

  /** A section under the plugin lock, as one step. */
  function Locked(s: State, e: Effect): Option<Effect> {
    if s.mutex.None? then Some(e) else None
  }

  function Jump(pc: Pc): Option<Effect> {
    Some(Effect(pc, Stay))
  }

  function LockEntry(s: State, k: string, pc: Pc): Option<Effect> {
    if k in s.locks then None else Some(Effect(pc, TakeEntry(k)))
  }

  function AfterTicket(result: Option<Grant>): Pc {
    match result
    case None => Section(3, Send(Cleared))
    case Some(g) => Section(2, Send(Injected(g)))
  }

  function Dispatch(r: Request): Pc {
    if !r.statePath then Send(Untouched)
    else if r.model == "" then Section(1, Finish)
    else if r.model == HARVESTED_MODEL then TicketLookup
    else CacheLookup
  }

  function AdmissionStep(s: State, t: Thread, input: Input): Option<Effect> {
    match t.pc
    case Scope =>
      Locked(s, Effect(if t.req.account in s.config.accounts then SlotLookup else Section(1, Done), Stay))
    case SlotLookup => Locked(s, Effect(SlotWait, OpenSlots))
    case SlotWait =>
      if input.Cancel? then Jump(Section(1, Done))
      else if SlotsTaken(s, t.req.account) < BUSINESS_SLOTS then Some(Effect(BackoffRead, TakeSlot))
      else None
    case BackoffRead => Locked(s, Effect(BackoffCheck(BackoffOf(s, t.req.account)), Stay))
    case BackoffCheck(until) => Jump(if s.clock < until then Finish else Dispatch(t.req))
    case Finish => Some(Effect(Done, GiveSlot))
    case Section(count, next) =>
      Locked(s, Effect(if count > 1 then Section(count - 1, next) else next, Stay))
    case _ => None
  }

  predicate Importable(file: Option<Ticket>, k: string, now: int, current: Ticket) {
    file.Some? && KeyOf(file.value) == k && ValidTicket(file.value, now) && file.value.issued > current.issued
  }

  /** Valid, and not yet due for renewal. */
  predicate IsFresh(t: Ticket, now: int) { ValidTicket(t, now) && Unix(now) < t.issued + 3000 }

  function DecideNext(e: Entry, now: int): Pc {
    if e.blocked then Leave(None)
    else if IsFresh(e.ticket, now) then
      Leave(Some(Grant(e.ticket, now)))
    else if now < e.cooldown then
      Leave(if ValidTicket(e.ticket, now) then Some(Grant(e.ticket, now)) else None)
    else PermitWait(now)
  }

  function TicketStep(s: State, t: Thread, input: Input): Option<Effect> {
    var k := RequestKey(t.req);
    match t.pc
    case TicketLookup =>
      var pc := if t.req.account in s.config.suspended then AfterTicket(None) else EntryWait;
      Locked(s, Effect(pc, PutEntry(k, EntryOf(s, k))))
    case EntryWait => LockEntry(s, k, ReadClock)
    case ReadClock => Jump(ReadCandidate(s.clock))
    case ReadCandidate(now) =>
      if !input.Candidate? then None
      else if Importable(input.file, k, now, EntryOf(s, k).ticket) then
        Jump(PersistWait(Import(input.file.value, now)))
      else Jump(Decide(now))
    case Decide(now) => Jump(DecideNext(EntryOf(s, k), now))
    case PermitWait(now) =>
      if input.Cancel? then Jump(Leave(None))
      else if s.permits < HARVEST_PERMITS then Some(Effect(Section(1, Harvest), TakePermit))
      else None
    case _ => None
  }

  /** The cache lookup of the models that are not harvested, and the way out of both. */
  function CacheStep(s: State, t: Thread): Option<Effect> {
    var k := RequestKey(t.req);
    match t.pc
    case Leave(result) =>
      if t.permit then Some(Effect(t.pc, GivePermit)) else Some(Effect(AfterTicket(result), GiveEntry))
    case CacheLookup => Locked(s, Effect(if k in s.entries then CacheWait else AfterTicket(None), Stay))
    case CacheWait => LockEntry(s, k, CacheRead)
    case CacheRead => Jump(Leave(GrantNow(s, EntryOf(s, k).ticket)))
    case _ => None
  }

  function GrantNow(s: State, ticket: Ticket): Option<Grant> {
    if ValidTicket(ticket, s.clock) then Some(Grant(ticket, s.clock)) else None
  }

  function HarvestStep(s: State, t: Thread, input: Input): Option<Effect> {
    var k := RequestKey(t.req);
    var e := EntryOf(s, k);
    if !input.Answer? then None
    else
      match input.outcome
      case NoClient => Some(Effect(Leave(None), PutEntry(k, e.(cooldown := s.clock + MINUTE))))
      case Refused(terminal, limited) =>
        var pause := if terminal || limited then COOLDOWN else MINUTE;
        Some(Effect(Leave(if terminal then None else GrantNow(s, e.ticket)),
                    PutEntry(k, e.(cooldown := s.clock + pause, blocked := terminal))))
      case Granted(ticket) =>
        if (ticket.account, ticket.model, ticket.hash) == (t.req.account, t.req.model, t.req.hash)
           && ValidTicket(ticket, s.clock)
        then Jump(PersistWait(Harvested(ticket, s.clock)))
        else None
  }

  /** The loop of `persist`: records under another key that are valid now are kept. */
  predicate Keeps(record: Ticket, k: string, now: int) {
    KeyOf(record) != k && ValidTicket(record, now)
  }

  function PersistStep(s: State, t: Thread, input: Input): Option<Effect> {
    match t.pc
    case PersistWait(job) => Locked(s, Effect(PersistRead(job), TakeMutex))
    case PersistRead(job) =>
      if input.Fail? || s.store.Malformed? then Jump(PersistDone(job, false))
      else Jump(PersistFilter(job, RecordsOf(s.store), []))
    case PersistFilter(job, todo, kept) =>
      if todo == [] then
        Jump(PersistWrite(job, if NewTicket(job).value != "" then kept + [NewTicket(job)] else kept))
      else
        var keep := Keeps(todo[0], JobKey(t.req, job), s.clock);
        Jump(PersistFilter(job, todo[1..], if keep then kept + [todo[0]] else kept))
    case PersistWrite(job, kept) =>
      if input.Fail? then Some(Effect(PersistDone(job, false), PutTmp(Malformed)))
      else Some(Effect(PersistRename(job), PutTmp(Records(kept))))
    case PersistRename(job) =>
      if input.Fail? then Jump(PersistDone(job, false))
      else Some(Effect(PersistDone(job, true), Rename))
    case PersistDone(job, ok) => Some(Effect(Publish(job, ok), GiveMutex(false, job.Revoke? && !ok)))
    case _ => None
  }

  /** What the caller of `persist` does with its answer. */
  function PublishStep(s: State, t: Thread): Option<Effect>
    requires t.pc.Publish?
  {
    var ok := t.pc.ok;
    var k := JobKey(t.req, t.pc.job);
    var e := EntryOf(s, k);
    match t.pc.job
    case Import(ticket, now) =>
      if !ok then Jump(Leave(None))
      else Some(Effect(Section(1, Decide(now)), PutEntry(k, Entry(ticket, ZERO_TIME, false))))
    case Harvested(ticket, now) =>
      if !ok then Jump(Leave(None))
      else Some(Effect(Section(2, Leave(Some(Grant(ticket, now)))),
                       PutEntry(k, e.(ticket := ticket, cooldown := ZERO_TIME))))
    case Revoke(_) => Some(Effect(Release, PutEntry(k, e.(ticket := EMPTY, blocked := true))))
  }

  function AfterResponse(out: Outgoing, status: int): Pc {
    if !out.Injected? then Body
    else if status == 401 || status == 403 || status == 429 then
      Section(1, RevokeLookup(out.grant.ticket, status))
    else Section(1, Body)
  }

  function UpstreamStep(s: State, t: Thread, input: Input): Option<Effect> {
    match t.pc
    case Send(out) => Jump(if input.Fail? then Section(1, Finish) else Await(out))
    case Await(out) =>
      if input.Fail? then Jump(Section(2, Finish))
      else if !input.Response? then None
      else if input.status == 429 then
        var until := s.clock + COOLDOWN;
        Jump(Backoff(if input.retry > until then input.retry else until, out))
      else Jump(AfterResponse(out, input.status))
    case Backoff(until, out) => Locked(s, Effect(AfterResponse(out, 429), NoteBackoff(until)))
    case Body => Jump(if input.Fail? then Section(1, Finish) else Finish)
    case _ => None
  }

  /** A denied or limited response for an injected ticket. */
  function RevokeStep(s: State, t: Thread): Option<Effect> {
    match t.pc
    case RevokeLookup(ticket, status) =>
      Locked(s, Effect(if KeyOf(ticket) in s.entries then RevokeWait(ticket, status) else Body, Stay))
    case RevokeWait(ticket, status) => LockEntry(s, KeyOf(ticket), RevokeCheck(ticket, status))
    case RevokeCheck(ticket, status) =>
      var e := EntryOf(s, KeyOf(ticket));
      if e.ticket.value == ticket.value && e.ticket.issued == ticket.issued then
        Some(Effect(if status != 429 then PersistWait(Revoke(ticket)) else Release,
                    PutEntry(KeyOf(ticket), e.(cooldown := s.clock + COOLDOWN))))
      else Jump(Release)
    case Release => Some(Effect(Body, GiveEntry))
    case _ => None
  }

  function ConfigStep(s: State, t: Thread, input: Input): Option<Effect> {
    match t.pc
    case CfgWait(config) => Locked(s, Effect(CfgRead, BeginConfig(config)))
    case CfgRead =>
      if input.Fail? then Some(Effect(Done, GiveMutex(false, true)))
      else if s.store.Records? then Jump(CfgLoad(s.store.tickets))
      else Some(Effect(Done, GiveMutex(true, false)))
    case CfgLoad(todo) =>
      if todo == [] then Some(Effect(Done, GiveMutex(true, false)))
      else if ValidTicket(todo[0], s.clock) && KeyOf(todo[0]) !in s.entries then
        Some(Effect(CfgLoad(todo[1..]), PutEntry(KeyOf(todo[0]), FRESH.(ticket := todo[0]))))
      else Jump(CfgLoad(todo[1..]))
    case _ => None
  }

  datatype Part =
    | Admission | Ticketing | Caching | Harvesting | Persisting | Publishing | Upstream | Revoking | Configuring | Over

  function PartOf(pc: Pc): Part {
    match pc
    case Scope | SlotLookup | SlotWait | BackoffRead | BackoffCheck(_) | Finish | Section(_, _) => Admission
    case TicketLookup | EntryWait | ReadClock | ReadCandidate(_) | Decide(_) | PermitWait(_) => Ticketing
    case Leave(_) | CacheLookup | CacheWait | CacheRead => Caching
    case Harvest => Harvesting
    case PersistWait(_) | PersistRead(_) | PersistFilter(_, _, _) | PersistWrite(_, _) | PersistRename(_)
       | PersistDone(_, _) => Persisting
    case Publish(_, _) => Publishing
    case Send(_) | Await(_) | Backoff(_, _) | Body => Upstream
    case RevokeLookup(_, _) | RevokeWait(_, _) | RevokeCheck(_, _) | Release => Revoking
    case CfgWait(_) | CfgRead | CfgLoad(_) => Configuring
    case Done => Over
  }

  /** What thread `t` does next; `None` when it cannot step with this input. */
  function ThreadStep(s: State, t: Thread, input: Input): Option<Effect> {
    match PartOf(t.pc)
    case Admission => AdmissionStep(s, t, input)
    case Ticketing => TicketStep(s, t, input)
    case Caching => CacheStep(s, t)
    case Harvesting => HarvestStep(s, t, input)
    case Persisting => PersistStep(s, t, input)
    case Publishing => PublishStep(s, t)
    case Upstream => UpstreamStep(s, t, input)
    case Revoking => RevokeStep(s, t)
    case Configuring => ConfigStep(s, t, input)
    case Over => None
  }

  /** The thread after an effect. */
  function Moved(t: Thread, e: Effect): Thread {
    match e.op
    case TakeSlot => t.(pc := e.pc, slot := true)
    case GiveSlot => t.(pc := e.pc, slot := false)
    case TakePermit => t.(pc := e.pc, permit := true)
    case GivePermit => t.(pc := e.pc, permit := false)
    case TakeEntry(key) => t.(pc := e.pc, held := Some(key))
    case GiveEntry => t.(pc := e.pc, held := None)
    case _ => t.(pc := e.pc)
  }

  // The other fields of the state after an effect of thread `t`, number `i`.

  function SlotsAfter(s: State, t: Thread, op: Op): map<int, nat> {
    var taken := SlotsTaken(s, t.req.account);
    if op.OpenSlots? then s.slots[t.req.account := taken]
    else if op.TakeSlot? then s.slots[t.req.account := taken + 1]
    else if op.GiveSlot? && taken > 0 then s.slots[t.req.account := taken - 1]
    else s.slots
  }

  function PermitsAfter(s: State, op: Op): nat {
    if op.TakePermit? then s.permits + 1
    else if op.GivePermit? && s.permits > 0 then s.permits - 1
    else s.permits
  }

  function MutexAfter(s: State, i: nat, op: Op): Option<nat> {
    if op.TakeMutex? || op.BeginConfig? then Some(i)
    else if op.GiveMutex? then None
    else s.mutex
  }

  function LocksAfter(s: State, i: nat, t: Thread, op: Op): map<string, nat> {
    if op.TakeEntry? then s.locks[op.key := i]
    else if op.GiveEntry? && t.held.Some? then s.locks - {t.held.value}
    else s.locks
  }

  function EntriesAfter(s: State, op: Op): map<string, Entry> {
    if op.PutEntry? then s.entries[op.key := op.entry] else s.entries
  }

  function BackoffAfter(s: State, t: Thread, op: Op): map<int, int> {
    if op.NoteBackoff? && op.until > BackoffOf(s, t.req.account) then s.backoff[t.req.account := op.until]
    else s.backoff
  }

  function Apply(s: State, i: nat, e: Effect): State
    requires i < |s.threads|
  {
    var t, op := s.threads[i], e.op;
    State(s.clock,
          if op.BeginConfig? then op.config else s.config,
          EntriesAfter(s, op),
          SlotsAfter(s, t, op),
          BackoffAfter(s, t, op),
          PermitsAfter(s, op),
          MutexAfter(s, i, op),
          LocksAfter(s, i, t, op),
          if op.Rename? then s.tmp else s.store,
          if op.PutTmp? then op.file else if op.Rename? then Absent else s.tmp,
          s.threads[i := Moved(t, e)],
          s.loaded || (op.GiveMutex? && op.loaded),
          s.dirty || (op.GiveMutex? && op.failed))
  }

  /** A crash loses the process and may tear a temporary file that is being written. */
  function Restarted(s: State, torn: bool): State {
    State(s.clock, Config([], []), map[], map[], map[], 0, None, map[],
          s.store, if torn then Malformed else s.tmp, [], false, false)
  }

  function Next(s: State, a: Action): Option<State> {
    match a
    case Tick(to) => if to >= s.clock then Some(s.(clock := to)) else None
    case Arrive(req) =>
      if |req.hash| == 64
      then Some(s.(threads := s.threads + [Thread(req, Scope, false, None, false, s.clock)]))
      else None
    case Configure(config) =>
      Some(s.(threads := s.threads + [Thread(NOBODY, CfgWait(config), false, None, false, s.clock)]))
    case Crash(torn) => Some(Restarted(s, torn))
    case Run(i, input) =>
      if i >= |s.threads| then None
      else
        match ThreadStep(s, s.threads[i], input)
        case None => None
        case Some(e) => Some(Apply(s, i, e))
  }

  predicate DistinctKeys(ts: seq<Ticket>) {
    forall i, j | 0 <= i < j < |ts| :: KeyOf(ts[i]) != KeyOf(ts[j])
  }

  /** A process that has just started, over any store. */
  predicate Initial(s: State) { s == Restarted(s, false) && s.clock >= 0 }

  /** A run: the states passed through and the actions between them. */
  ghost predicate IsRun(states: seq<State>, actions: seq<Action>) {
    && |states| == |actions| + 1
    && Initial(states[0])
    && forall n | 0 <= n < |actions| :: Next(states[n], actions[n]) == Some(states[n + 1])
  }
}
