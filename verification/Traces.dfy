/** A run written out step by step: a ticket goes upstream, is denied, the write of its revocation
    fails, and after a crash it is cached again. */
module Traces {
  import opened Wrappers
  import opened Base64
  import opened Tickets
  import opened RequestHeaders
  import opened Plugin
  import opened Resources
  import opened Durability

  datatype Trace = Trace(states: seq<State>, actions: seq<Action>)

  ghost predicate Sound(r: Trace) { IsRun(r.states, r.actions) }

  ghost function Last(r: Trace): State
    requires Sound(r)
  {
    r.states[|r.actions|]
  }

  /** The run `q` goes on from `base`. */
  ghost predicate Beyond(base: Trace, q: Trace) { base.states <= q.states && base.actions <= q.actions }

  /** The run with one action more. */
  lemma Extend(base: Trace, r: Trace, a: Action) returns (q: Trace)
    requires Sound(r) && Beyond(base, r) && Next(Last(r), a).Some?
    ensures Sound(q) && Beyond(base, q) && q.actions == r.actions + [a]
    ensures Last(q) == Next(Last(r), a).value
  {
    hide Next, Initial;
    q := Trace(r.states + [Next(Last(r), a).value], r.actions + [a]);
    forall n | 0 <= n < |q.actions| ensures Next(q.states[n], q.actions[n]) == Some(q.states[n + 1]) {
      if n < |r.actions| { assert Next(r.states[n], r.actions[n]) == Some(r.states[n + 1]); }
    }
  }

  /** The configuration of these runs: one account, not suspended. */
  function Only(account: int): Config { Config([account], []) }

  /** A process that has loaded the store, which holds `r` and nothing else, and has no call. */
  ghost predicate Loaded(s: State, r: Ticket, now: int) {
    && s.clock == now && s.config == Only(r.account)
    && s.entries == map[KeyOf(r) := FRESH.(ticket := r)]
    && s.slots == map[] && s.backoff == map[] && s.permits == 0 && s.mutex.None? && s.locks == map[]
    && s.store == Records([r]) && |s.threads| == 1 && s.threads[0].pc.Done? && s.loaded && !s.dirty
  }

  /** The step of call `i` that has effect `e`. */
  lemma Step(base: Trace, p: Trace, i: nat, input: Input, e: Effect) returns (q: Trace)
    requires Sound(p) && Beyond(base, p) && i < |Last(p).threads|
    requires ThreadStep(Last(p), Last(p).threads[i], input) == Some(e)
    ensures Sound(q) && Beyond(base, q)
    ensures Last(q) == Apply(Last(p), i, e)
  {
    hide IsRun, ThreadStep, Apply;
    q := Extend(base, p, Run(i, input));
  }

  /** The process holds the plugin lock and is about to load these records. */
  ghost predicate Loading(s: State, r: Ticket, now: int, todo: seq<Ticket>) {
    && s.clock == now && s.config == Only(r.account)
    && s.entries == (if todo == [] then map[KeyOf(r) := FRESH.(ticket := r)] else map[])
    && s.slots == map[] && s.backoff == map[] && s.permits == 0 && s.mutex == Some(0) && s.locks == map[]
    && s.store == Records([r]) && |s.threads| == 1 && s.threads[0].pc == CfgLoad(todo) && !s.loaded && !s.dirty
  }

  lemma Opens(base: Trace, p: Trace, r: Ticket, now: int) returns (q: Trace)
    requires Sound(p) && Beyond(base, p) && Last(p) == Restarted(Last(p), false) && Last(p).clock == now
    requires Last(p).store == Records([r])
    ensures Sound(q) && Beyond(base, q) && Loading(Last(q), r, now, [r])
  {
    hide Sound, Last, Beyond, KeyOf, ValidTicket, AdmissionStep, TicketStep, CacheStep, HarvestStep, PersistStep,
      PublishStep, UpstreamStep, RevokeStep;
    var config := Only(r.account);
    q := Extend(base, p, Configure(config));
    assert Last(q).threads == [Thread(NOBODY, CfgWait(config), false, None, false, now)];
    q := Step(base, q, 0, Go, Effect(CfgRead, BeginConfig(config)));
    q := Step(base, q, 0, Go, Effect(CfgLoad([r]), Stay));
  }

  lemma Load(base: Trace, p: Trace, r: Ticket, now: int) returns (q: Trace)
    requires Sound(p) && Beyond(base, p) && Last(p) == Restarted(Last(p), false) && Last(p).clock == now
    requires Last(p).store == Records([r]) && ValidTicket(r, now)
    ensures Sound(q) && Beyond(base, q) && Loaded(Last(q), r, now)
  {
    hide Sound, Last, Beyond, KeyOf, ValidTicket, AdmissionStep, TicketStep, CacheStep, HarvestStep, PersistStep,
      PublishStep, UpstreamStep, RevokeStep;
    q := Opens(base, p, r, now);
    assert [r][1..] == [];
    q := Step(base, q, 0, Go, Effect(CfgLoad([]), PutEntry(KeyOf(r), FRESH.(ticket := r))));
    q := Step(base, q, 0, Go, Effect(Done, GiveMutex(true, false)));
  }

  /** The one call `t` runs in a process with that store. */
  ghost predicate Scene(s: State, r: Ticket, t: Thread) {
    && t.req.account == r.account
    && s.clock == t.since && s.config == Only(r.account) && s.backoff == map[] && s.permits == 0
    && s.entries.Keys == {KeyOf(r)} && s.entries[KeyOf(r)].ticket == r && !s.entries[KeyOf(r)].blocked
    && SlotsTaken(s, r.account) == (if t.slot then 1 else 0)
    && s.locks.Keys == (if t.held.Some? then {t.held.value} else {})
    && s.store == Records([r]) && (s.mutex.None? || InsideLock(t.pc))
    && |s.threads| == 2 && s.threads[1] == t
  }

  /** Effects that leave the ticket in its entry and its record on disk. */
  predicate Harmless(r: Ticket, t: Thread, e: Effect) {
    match e.op
    case Stay | OpenSlots | TakeMutex => e.op.TakeMutex? ==> InsideLock(e.pc)
    case TakeSlot => !t.slot
    case TakeEntry(_) => t.held.None?
    case GiveEntry | GiveMutex(_, _) => true
    case PutEntry(key, entry) => key == KeyOf(r) && entry.ticket == r && !entry.blocked
    case _ => false
  }

  /** The run goes on from `base` and has come to that scene. */
  ghost predicate At(base: Trace, p: Trace, r: Ticket, t: Thread) {
    Sound(p) && Beyond(base, p) && Scene(Last(p), r, t)
  }

  lemma Act(base: Trace, p: Trace, r: Ticket, t: Thread, input: Input, e: Effect) returns (q: Trace, u: Thread)
    requires At(base, p, r, t) && ThreadStep(Last(p), t, input) == Some(e)
    requires Harmless(r, t, e) && (InsideLock(t.pc) ==> InsideLock(e.pc) || e.op.GiveMutex?)
    ensures At(base, q, r, u) && u == Moved(t, e)
  {
    hide Sound, Last, Beyond, ThreadStep, KeyOf, InsideLock;
    u := Moved(t, e);
    q := Step(base, p, 1, input, e);
  }

  // ---- the way upstream ----

  lemma Arrives(base: Trace, p: Trace, r: Ticket, req: Request, now: int) returns (q: Trace, t: Thread)
    requires Sound(p) && Beyond(base, p) && Loaded(Last(p), r, now) && |req.hash| == 64 && req.account == r.account
    ensures At(base, q, r, t) && t == Thread(req, Scope, false, None, false, now)
  {
    hide IsRun, Key;
    t := Thread(req, Scope, false, None, false, now);
    q := Extend(base, p, Arrive(req));
  }

  lemma GetsSlot(base: Trace, p: Trace, r: Ticket, t: Thread) returns (q: Trace, u: Thread)
    requires At(base, p, r, t) && t == Thread(t.req, Scope, false, None, false, t.since)
    ensures At(base, q, r, u) && u == Thread(t.req, BackoffRead, true, None, false, t.since)
  {
    hide Sound, Last, Beyond, Key, ValidTicket, Next, Apply;
    q, u := Act(base, p, r, t, Go, Effect(SlotLookup, Stay));
    q, u := Act(base, q, r, u, Go, Effect(SlotWait, OpenSlots));
    q, u := Act(base, q, r, u, Go, Effect(BackoffRead, TakeSlot));
  }

  lemma IsDispatched(base: Trace, p: Trace, r: Ticket, t: Thread) returns (q: Trace, u: Thread)
    requires At(base, p, r, t) && t == Thread(t.req, BackoffRead, true, None, false, t.since)
    requires t.since >= 0 && t.req.statePath && t.req.model == HARVESTED_MODEL
    ensures At(base, q, r, u) && u == Thread(t.req, TicketLookup, true, None, false, t.since)
  {
    hide Sound, Last, Beyond, Key, ValidTicket, Next, Apply;
    q, u := Act(base, p, r, t, Go, Effect(BackoffCheck(ZERO_TIME), Stay));
    q, u := Act(base, q, r, u, Go, Effect(TicketLookup, Stay));
  }

  lemma LocksEntry(base: Trace, p: Trace, r: Ticket, t: Thread) returns (q: Trace, u: Thread)
    requires At(base, p, r, t) && t == Thread(t.req, TicketLookup, true, None, false, t.since)
    requires RequestKey(t.req) == KeyOf(r)
    ensures At(base, q, r, u) && u == Thread(t.req, ReadClock, true, Some(KeyOf(r)), false, t.since)
  {
    hide Sound, Last, Beyond, Key, ValidTicket, Next, Apply;
    q, u := Act(base, p, r, t, Go, Effect(EntryWait, PutEntry(KeyOf(r), EntryOf(Last(p), KeyOf(r)))));
    q, u := Act(base, q, r, u, Go, Effect(ReadClock, TakeEntry(KeyOf(r))));
  }

  lemma FindsTicket(base: Trace, p: Trace, r: Ticket, t: Thread) returns (q: Trace, u: Thread)
    requires At(base, p, r, t) && t == Thread(t.req, ReadClock, true, Some(KeyOf(r)), false, t.since)
    requires RequestKey(t.req) == KeyOf(r) && IsFresh(r, t.since)
    ensures At(base, q, r, u)
    ensures u == Thread(t.req, Leave(Some(Grant(r, t.since))), true, Some(KeyOf(r)), false, t.since)
  {
    hide Sound, Last, Beyond, Key, ValidTicket, IsFresh, Next, Apply, AdmissionStep, CacheStep, HarvestStep,
      PersistStep, PublishStep, UpstreamStep, RevokeStep, ConfigStep;
    q, u := Act(base, p, r, t, Go, Effect(ReadCandidate(t.since), Stay));
    q, u := Act(base, q, r, u, Candidate(None), Effect(Decide(t.since), Stay));
    q, u := Act(base, q, r, u, Go, Effect(Leave(Some(Grant(r, t.since))), Stay));
  }

  lemma LeavesEntry(base: Trace, p: Trace, r: Ticket, t: Thread, out: Outgoing) returns (q: Trace, u: Thread)
    requires At(base, p, r, t) && out.Injected?
    requires t == Thread(t.req, Leave(Some(out.grant)), true, Some(KeyOf(r)), false, t.since)
    ensures At(base, q, r, u) && u == Thread(t.req, Section(2, Send(out)), true, None, false, t.since)
  {
    hide Sound, Last, Beyond, KeyOf, ValidTicket, Next, Apply, AdmissionStep, TicketStep, HarvestStep,
      PersistStep, PublishStep, UpstreamStep, RevokeStep, ConfigStep;
    q, u := Act(base, p, r, t, Go, Effect(Section(2, Send(out)), GiveEntry));
  }

  lemma IsCounted(base: Trace, p: Trace, r: Ticket, t: Thread, out: Outgoing) returns (q: Trace, u: Thread)
    requires At(base, p, r, t) && t == Thread(t.req, Section(2, Send(out)), true, None, false, t.since)
    ensures At(base, q, r, u) && u == Thread(t.req, Send(out), true, None, false, t.since)
  {
    hide Sound, Last, Beyond, KeyOf, ValidTicket, Next, Apply, TicketStep, CacheStep, HarvestStep, PersistStep,
      PublishStep, UpstreamStep, RevokeStep, ConfigStep;
    q, u := Act(base, p, r, t, Go, Effect(Section(1, Send(out)), Stay));
    q, u := Act(base, q, r, u, Go, Effect(Send(out), Stay));
  }

  lemma GoesUpstream(base: Trace, p: Trace, r: Ticket, t: Thread, out: Outgoing) returns (q: Trace, u: Thread)
    requires At(base, p, r, t) && t == Thread(t.req, Send(out), true, None, false, t.since)
    ensures At(base, q, r, u) && u == Thread(t.req, Await(out), true, None, false, t.since)
  {
    hide Sound, Last, Beyond, KeyOf, ValidTicket, Next, Apply, AdmissionStep, TicketStep, CacheStep,
      HarvestStep, PersistStep, PublishStep, RevokeStep, ConfigStep;
    q, u := Act(base, p, r, t, Go, Effect(Await(out), Stay));
  }

  // ---- the denial ----

  lemma IsDenied(base: Trace, p: Trace, r: Ticket, t: Thread, g: Grant) returns (q: Trace, u: Thread)
    requires At(base, p, r, t) && t == Thread(t.req, Await(Injected(g)), true, None, false, t.since)
    ensures At(base, q, r, u)
    ensures u == Thread(t.req, Section(1, RevokeLookup(g.ticket, 401)), true, None, false, t.since)
  {
    hide Sound, Last, Beyond, KeyOf, ValidTicket, Next, Apply;
    q, u := Act(base, p, r, t, Response(401, 0), Effect(Section(1, RevokeLookup(g.ticket, 401)), Stay));
  }

  lemma IsLookedUp(base: Trace, p: Trace, r: Ticket, t: Thread) returns (q: Trace, u: Thread)
    requires At(base, p, r, t)
    requires t == Thread(t.req, Section(1, RevokeLookup(r, 401)), true, None, false, t.since)
    ensures At(base, q, r, u) && u == Thread(t.req, RevokeWait(r, 401), true, None, false, t.since)
  {
    hide Sound, Last, Beyond, KeyOf, ValidTicket, Next, Apply;
    q, u := Act(base, p, r, t, Go, Effect(RevokeLookup(r, 401), Stay));
    q, u := Act(base, q, r, u, Go, Effect(RevokeWait(r, 401), Stay));
  }

  lemma IsReached(base: Trace, p: Trace, r: Ticket, t: Thread) returns (q: Trace, u: Thread)
    requires At(base, p, r, t) && t == Thread(t.req, RevokeWait(r, 401), true, None, false, t.since)
    ensures At(base, q, r, u) && u == Thread(t.req, RevokeCheck(r, 401), true, Some(KeyOf(r)), false, t.since)
  {
    hide Sound, Last, Beyond, KeyOf, ValidTicket, Next, Apply;
    q, u := Act(base, p, r, t, Go, Effect(RevokeCheck(r, 401), TakeEntry(KeyOf(r))));
  }

  lemma IsRevoked(base: Trace, p: Trace, r: Ticket, t: Thread) returns (q: Trace, u: Thread)
    requires At(base, p, r, t)
    requires t == Thread(t.req, RevokeCheck(r, 401), true, Some(KeyOf(r)), false, t.since)
    ensures At(base, q, r, u)
    ensures u == Thread(t.req, PersistWait(Revoke(r)), true, Some(KeyOf(r)), false, t.since)
  {
    hide Sound, Last, Beyond, KeyOf, ValidTicket, Next, Apply;
    var e := EntryOf(Last(p), KeyOf(r)).(cooldown := t.since + COOLDOWN);
    q, u := Act(base, p, r, t, Go, Effect(PersistWait(Revoke(r)), PutEntry(KeyOf(r), e)));
  }

  lemma BeginsToWrite(base: Trace, p: Trace, r: Ticket, t: Thread) returns (q: Trace, u: Thread)
    requires At(base, p, r, t)
    requires t == Thread(t.req, PersistWait(Revoke(r)), true, Some(KeyOf(r)), false, t.since)
    ensures At(base, q, r, u)
    ensures u == Thread(t.req, PersistRead(Revoke(r)), true, Some(KeyOf(r)), false, t.since)
  {
    hide Sound, Last, Beyond, KeyOf, ValidTicket, Next, Apply, AdmissionStep, TicketStep, CacheStep,
      HarvestStep, PublishStep, UpstreamStep, RevokeStep, ConfigStep;
    q, u := Act(base, p, r, t, Go, Effect(PersistRead(Revoke(r)), TakeMutex));
  }

  /** The write of the revocation fails; its error is dropped. */
  lemma FailsToWrite(base: Trace, p: Trace, r: Ticket, t: Thread) returns (q: Trace, u: Thread)
    requires At(base, p, r, t)
    requires t == Thread(t.req, PersistRead(Revoke(r)), true, Some(KeyOf(r)), false, t.since)
    ensures At(base, q, r, u)
    ensures u == Thread(t.req, Publish(Revoke(r), false), true, Some(KeyOf(r)), false, t.since)
  {
    hide Sound, Last, Beyond, KeyOf, ValidTicket, Next, Apply, AdmissionStep, TicketStep, CacheStep,
      HarvestStep, PublishStep, UpstreamStep, RevokeStep, ConfigStep;
    q, u := Act(base, p, r, t, Fail, Effect(PersistDone(Revoke(r), false), Stay));
    q, u := Act(base, q, r, u, Go, Effect(Publish(Revoke(r), false), GiveMutex(false, true)));
  }

  // ---- the start and the crash ----

  lemma Starts(r: Ticket, now: int) returns (q: Trace)
    requires ValidTicket(r, now) && now >= 0
    ensures Sound(q) && TidyStart(q.states) && Last(q) == Restarted(Last(q), false)
    ensures Last(q).clock == now && Last(q).store == Records([r])
  {
    hide Key, Admissible;
    q := Trace([State(now, Config([], []), map[], map[], map[], 0, None, map[],
                      Records([r]), Absent, [], false, false)], []);
  }

  lemma Crashes(base: Trace, p: Trace, r: Ticket, t: Thread) returns (q: Trace)
    requires At(base, p, r, t)
    ensures Sound(q) && Beyond(base, q) && Last(q) == Restarted(Last(q), false)
    ensures Last(q).clock == t.since && Last(q).store == Records([r])
    ensures |q.actions| == |p.actions| + 1 && q.actions[|p.actions|] == Crash(false)
  {
    hide Sound, Last, Beyond, Key;
    q := Extend(base, p, Crash(false));
  }

  lemma FreshFacts(r: Ticket, now: int)
    requires IsFresh(r, now)
    ensures ValidTicket(r, now) && |r.hash| == 64
  {
    hide ParseState;
  }

  lemma SentWith(r: Ticket, now: int, req: Request) returns (q: Trace, t: Thread)
    requires IsFresh(r, now) && now >= 0 && RequestKey(req) == KeyOf(r) && |req.hash| == 64
    requires req.account == r.account && req.model == HARVESTED_MODEL && req.statePath
    ensures At(q, q, r, t) && TidyStart(q.states)
    ensures t == Thread(req, Await(Injected(Grant(r, now))), true, None, false, now)
  {
    hide Key, IsFresh, ValidTicket, Scene, Next, Initial, Loaded, SoundRecords, Sound, Last;
    FreshFacts(r, now);
    var start := Starts(r, now);
    q := Load(start, start, r, now);
    q, t := Arrives(start, q, r, req, now);
    q, t := GetsSlot(start, q, r, t);
    q, t := IsDispatched(start, q, r, t);
    q, t := LocksEntry(start, q, r, t);
    q, t := FindsTicket(start, q, r, t);
    q, t := LeavesEntry(start, q, r, t, Injected(Grant(r, now)));
    q, t := IsCounted(start, q, r, t, Injected(Grant(r, now)));
    q, t := GoesUpstream(start, q, r, t, Injected(Grant(r, now)));
  }

  /** What a run has been through stays. */
  lemma Passed(p: Trace, q: Trace, r: Ticket, t: Thread, z: Trace)
    requires At(p, p, r, t) && Sound(q) && Beyond(p, q) && Sound(z) && Beyond(q, z)
    ensures Beyond(p, z) && |p.actions| < |z.states| && z.states[|p.actions|] == Last(p)
    ensures |Last(p).threads| == 2 && Last(p).threads[1] == t
    ensures TidyStart(p.states) ==> TidyStart(z.states)
  {
    hide Initial, Next, SoundRecords, KeyOf;
  }

  /** Any fresh ticket of the harvested model, and any headers: the ticket goes upstream for a request
      with these headers (state `m`), its revocation is published unwritten (state `n`), and after the
      crash behind it the first load caches the ticket again. */
  lemma DeniedTicketIsBack(r: Ticket, now: int, headers: Header) returns (q: Trace, m: nat, n: nat)
    requires IsFresh(r, now) && now >= 0 && r.model == HARVESTED_MODEL
    ensures IsRun(q.states, q.actions) && TidyStart(q.states) && m < n < |q.actions|
    ensures |q.states[m].threads| == 2
    ensures var t := q.states[m].threads[1]; t.pc == Await(Injected(Grant(r, now))) && t.req.headers == headers
    ensures |q.states[n].threads| == 2 && q.states[n].threads[1].pc == Publish(Revoke(r), false)
    ensures q.actions[n] == Crash(false)
    ensures Loaded(q.states[|q.actions|], r, now)
  {
    hide Key, IsFresh, ValidTicket, Next, Initial, Loaded, SoundRecords, Scene, TidyStart;
    FreshFacts(r, now);
    var sent, call := SentWith(r, now, Request(r.account, r.model, r.hash, true, headers));
    var t: Thread;
    q, t := IsDenied(sent, sent, r, call, Grant(r, now));
    q, t := IsLookedUp(sent, q, r, t);
    q, t := IsReached(sent, q, r, t);
    q, t := IsRevoked(sent, q, r, t);
    q, t := BeginsToWrite(sent, q, r, t);
    q, t := FailsToWrite(sent, q, r, t);
    var failed := q;
    m, n := |sent.actions|, |failed.actions|;
    var crashed := Crashes(failed, failed, r, t);
    q := Load(crashed, crashed, r, now);
    Passed(failed, crashed, r, t, q);
    Passed(sent, failed, r, call, q);
  }

  /** At every instant with a legal issue time there is such a ticket. */
  lemma FreshTicket(now: int) returns (r: Ticket)
    requires MIN_ISSUED <= Unix(now) < MAX_ISSUED
    ensures IsFresh(r, now) && r.model == HARVESTED_MODEL
  {
    hide Encode, ParseState, KeyOf;
    var tail := seq(240, i => 0);
    r := Ticket(1, HARVESTED_MODEL, seq(64, i => 'a'), Encode(Payload(Unix(now), tail)), Unix(now));
    assert IsTicketText(r.value, r.issued, tail);
    TicketTextParses(r.value, r.issued, tail);
  }

  /** The client's header in small letters goes upstream on a state path, beside the ticket. */
  lemma ForeignStateGoesUpstream(now: int, foreign: string) returns (q: Trace, m: nat, r: Ticket)
    requires MIN_ISSUED <= Unix(now) < MAX_ISSUED && now >= 0
    ensures IsRun(q.states, q.actions) && m < |q.states| && |q.states[m].threads| == 2
    ensures var t := q.states[m].threads[1];
      && t.pc == Await(Injected(Grant(r, now))) && t.req.headers == map["x-codex-turn-state" := [foreign]]
      && ("x-codex-turn-state", 0) in Lines(Sent(t.req, t.pc.out), STATE)
      && Sent(t.req, t.pc.out)["x-codex-turn-state"] == [foreign]
  {
    hide IsFresh, Initial, Next, Loaded, Set, Del, Lines, KeyOf;
    r := FreshTicket(now);
    var n: nat;
    q, m, n := DeniedTicketIsBack(r, now, map["x-codex-turn-state" := [foreign]]);
    SmallLettersPass(r.value, foreign);
  }
}
