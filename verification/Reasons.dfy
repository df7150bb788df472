/** Why a call is where it is: every outcome of a call goes back to a step of its own that gave the
    reason for it. */
module Reasons {
  import opened Wrappers
  import opened Tickets
  import opened Plugin
  import opened Resources
  import opened Isolation
  import opened Safety

  /** What can be said of a call in the middle of its run. */
  datatype Fact =
    | Ended
    | Plain
    | Without
    | With(grant: Grant)
    | Told(until: int)
    | Read(now: int)
    | Importing(ticket: Ticket, now: int)
    | Deciding(now: int)
    | Waiting(now: int)
    | Asking
    | Storing(ticket: Ticket, now: int)
    | Unstored(job: Job)

  predicate Outward(pc: Pc, out: Outgoing) { (pc.Send? || pc.Await? || pc.Backoff?) && pc.out == out }

  /** The program points at which the fact holds: the call ends; it goes upstream with its headers
      untouched, without a ticket, or with this one, or is about to; it knows a backoff; it has read the
      clock; it is importing, deciding, waiting for a permit, asking for a new ticket, storing one, or
      could not store it. */
  predicate Shows(pc: Pc, f: Fact) {
    match f
    case Ended => pc.Finish? || pc.Done?
    case Plain => Outward(pc, Untouched)
    case Without => pc == Leave(None) || Outward(pc, Cleared)
    case With(g) => pc == Leave(Some(g)) || Outward(pc, Injected(g))
    case Told(until) => pc == BackoffCheck(until)
    case Read(now) =>
      || pc == ReadCandidate(now) || pc == Decide(now) || pc == PermitWait(now)
      || (InPersist(pc) && pc.job.Import? && pc.job.now == now)
    case Importing(ticket, now) => InPersist(pc) && pc.job == Import(ticket, now)
    case Deciding(now) => pc == Decide(now)
    case Waiting(now) => pc == PermitWait(now)
    case Asking => pc.Harvest?
    case Storing(ticket, now) => InPersist(pc) && pc.job == Harvested(ticket, now)
    case Unstored(job) => pc == PersistDone(job, false) || pc == Publish(job, false)
  }

  /** A candidate file that is taken: it is there, for the key, valid, and newer than what is cached. */
  predicate Acceptable(file: Option<Ticket>, k: string, now: int, cached: Ticket) {
    file.Some? && KeyOf(file.value) == k && ValidTicket(file.value, now) && cached.issued < file.value.issued
  }

  predicate EndsNow(s: State, t: Thread, input: Input) {
    var pc := t.pc;
    || (pc.Scope? && t.req.account !in s.config.accounts)
    || (pc.SlotWait? && input.Cancel?)
    || (pc.BackoffCheck? && (s.clock < pc.until || (t.req.statePath && t.req.model == "")))
    || ((pc.Send? || pc.Await?) && input.Fail?)
    || pc.Body?
    || Configures(pc)
  }

  predicate GivesNone(s: State, t: Thread, input: Input) {
    var pc, e := t.pc, EntryOf(s, RequestKey(t.req));
    || (pc.TicketLookup? && t.req.account in s.config.suspended)
    || (pc.CacheLookup? && RequestKey(t.req) !in s.entries)
    || (pc.CacheRead? && !ValidTicket(e.ticket, s.clock))
    || (pc.Decide? && (e.blocked || (pc.now < e.cooldown && !ValidTicket(e.ticket, pc.now))))
    || (pc.PermitWait? && input.Cancel?)
    || (pc.Harvest? && input.Answer? && input.outcome.NoClient?)
    || (pc.Harvest? && input.Answer? && input.outcome.Refused?
        && (input.outcome.terminal || !ValidTicket(e.ticket, s.clock)))
    || (pc.Publish? && !pc.job.Revoke? && !pc.ok)
  }

  predicate Gives(s: State, t: Thread, input: Input, g: Grant) {
    var pc, e := t.pc, EntryOf(s, RequestKey(t.req));
    || (pc.Decide? && g == Grant(e.ticket, pc.now) && !e.blocked && ValidTicket(e.ticket, pc.now)
        && (pc.now / 1_000_000_000 < e.ticket.issued + 3000 || pc.now < e.cooldown))
    || (pc.CacheRead? && g == Grant(e.ticket, s.clock) && ValidTicket(e.ticket, s.clock))
    || (pc.Harvest? && input.Answer? && input.outcome.Refused? && !input.outcome.terminal
        && g == Grant(e.ticket, s.clock) && ValidTicket(e.ticket, s.clock))
    || pc == Publish(Harvested(g.ticket, g.at), true)
  }

  /** The reason for a fact: what thread `t` finds when it steps with this input. */
  predicate Reason(s: State, t: Thread, input: Input, f: Fact) {
    var pc, k := t.pc, RequestKey(t.req);
    var e := EntryOf(s, k);
    match f
    case Ended => EndsNow(s, t, input)
    case Plain => pc.BackoffCheck? && pc.until <= s.clock && !t.req.statePath
    case Without => GivesNone(s, t, input)
    case With(g) => Gives(s, t, input, g)
    case Told(until) => pc.BackoffRead? && until == BackoffOf(s, t.req.account)
    case Read(now) => pc.ReadClock? && now == s.clock
    case Importing(ticket, now) =>
      && pc == ReadCandidate(now) && input == Candidate(Some(ticket))
      && Acceptable(input.file, k, now, e.ticket)
    case Deciding(now) =>
      || (pc == ReadCandidate(now) && input.Candidate? && !Acceptable(input.file, k, now, e.ticket))
      || (pc.Publish? && pc.ok && pc.job.Import? && pc.job.now == now)
    case Waiting(now) =>
      && pc == Decide(now) && !e.blocked && e.cooldown <= now
      && !(ValidTicket(e.ticket, now) && now / 1_000_000_000 < e.ticket.issued + 3000)
    case Asking => pc.PermitWait? && !input.Cancel? && s.permits < 3
    case Storing(ticket, now) => pc.Harvest? && input == Answer(Granted(ticket)) && now == s.clock
    case Unstored(job) =>
      || (pc == PersistRead(job) && (input.Fail? || s.store.Malformed?))
      || (pc.PersistWrite? && pc.job == job && input.Fail?)
      || (pc == PersistRename(job) && input.Fail?)
  }

  lemma AdmissionReasons(s: State, t: Thread, input: Input, f: Fact)
    requires ShapeOk(t) && AdmissionStep(s, t, input).Some? && Shows(Core(AdmissionStep(s, t, input).value.pc), f)
    ensures Shows(Core(t.pc), f) || Reason(s, t, input, f)
  {
    hide Key, ValidTicket;
  }

  lemma TicketReasons(s: State, t: Thread, input: Input, f: Fact)
    requires TicketStep(s, t, input).Some? && Shows(Core(TicketStep(s, t, input).value.pc), f)
    ensures Shows(Core(t.pc), f) || Reason(s, t, input, f)
  {
    hide Key, ValidTicket;
  }

  lemma CacheReasons(s: State, t: Thread, input: Input, f: Fact)
    requires CacheStep(s, t).Some? && Shows(Core(CacheStep(s, t).value.pc), f)
    ensures Shows(Core(t.pc), f) || Reason(s, t, input, f)
  {
    hide Key, ValidTicket;
  }

  lemma HarvestReasons(s: State, t: Thread, input: Input, f: Fact)
    requires t.pc.Harvest? && HarvestStep(s, t, input).Some? && Shows(Core(HarvestStep(s, t, input).value.pc), f)
    ensures Shows(Core(t.pc), f) || Reason(s, t, input, f)
  {
    hide Key, ValidTicket;
  }

  lemma PersistReasons(s: State, t: Thread, input: Input, f: Fact)
    requires PersistStep(s, t, input).Some? && Shows(Core(PersistStep(s, t, input).value.pc), f)
    ensures Shows(Core(t.pc), f) || Reason(s, t, input, f)
  {
    hide Key, ValidTicket, Keeps;
  }

  lemma PublishReasons(s: State, t: Thread, input: Input, f: Fact)
    requires t.pc.Publish? && Shows(Core(PublishStep(s, t).value.pc), f)
    ensures Shows(Core(t.pc), f) || Reason(s, t, input, f)
  {
    hide Key, ValidTicket;
  }

  lemma UpstreamReasons(s: State, t: Thread, input: Input, f: Fact)
    requires UpstreamStep(s, t, input).Some? && Shows(Core(UpstreamStep(s, t, input).value.pc), f)
    ensures Shows(Core(t.pc), f) || Reason(s, t, input, f)
  {
    hide Key, ValidTicket;
  }

  lemma RevokeShowsNothing(s: State, t: Thread, f: Fact)
    requires RevokeStep(s, t).Some?
    ensures !Shows(Core(RevokeStep(s, t).value.pc), f)
  {
    hide Key;
  }

  lemma ConfigReasons(s: State, t: Thread, input: Input, f: Fact)
    requires ConfigStep(s, t, input).Some? && Shows(Core(ConfigStep(s, t, input).value.pc), f)
    ensures Shows(Core(t.pc), f) || Reason(s, t, input, f)
  {
    hide Key, ValidTicket;
  }

  lemma StepReasons(s: State, t: Thread, input: Input, e: Effect, f: Fact)
    requires ShapeOk(t) && ThreadStep(s, t, input) == Some(e) && Shows(Core(e.pc), f)
    ensures Shows(Core(t.pc), f) || Reason(s, t, input, f)
  {
    hide AdmissionStep, TicketStep, CacheStep, HarvestStep, PersistStep, PublishStep, UpstreamStep, RevokeStep,
      ConfigStep, ShapeOk, Shows, Reason;
    match PartOf(t.pc)
    case Admission => AdmissionReasons(s, t, input, f);
    case Ticketing => TicketReasons(s, t, input, f);
    case Caching => CacheReasons(s, t, input, f);
    case Harvesting => HarvestReasons(s, t, input, f);
    case Persisting => PersistReasons(s, t, input, f);
    case Publishing => PublishReasons(s, t, input, f);
    case Upstream => UpstreamReasons(s, t, input, f);
    case Revoking => RevokeShowsNothing(s, t, f);
    case Configuring => ConfigReasons(s, t, input, f);
    case Over =>
  }

  lemma NewcomersShowNothing(f: Fact)
    ensures !Shows(Core(Scope), f)
    ensures forall c :: !Shows(Core(CfgWait(c)), f)
  {
  }

  // ---- over whole runs ----

  /** Action `m` is a step of call `i`, which stands at `pc` before it. */
  ghost predicate StepOf(states: seq<State>, actions: seq<Action>, m: nat, i: nat)
    requires IsRun(states, actions)
  {
    m < |actions| && actions[m].Run? && actions[m].thread == i && i < |states[m].threads|
  }

  ghost predicate Explains(states: seq<State>, actions: seq<Action>, m: nat, i: nat, f: Fact)
    requires IsRun(states, actions)
  {
    StepOf(states, actions, m, i) && Reason(states[m], states[m].threads[i], actions[m].input, f)
  }

  lemma FactBack(s: State, a: Action, s': State, i: nat, f: Fact)
    requires Next(s, a) == Some(s') && i < |s'.threads| && Shows(Core(s'.threads[i].pc), f)
    requires forall j | 0 <= j < |s.threads| :: ShapeOk(s.threads[j])
    ensures i < |s.threads| && s.threads[i].req == s'.threads[i].req
    ensures || Shows(Core(s.threads[i].pc), f)
            || (a.Run? && a.thread == i && Reason(s, s.threads[i], a.input, f))
  {
    hide Key, ThreadStep, ShapeOk, Shows, Reason, Core;
    NewcomersShowNothing(f);
    if a.Run? && a.thread == i {
      StepReasons(s, s.threads[i], a.input, ThreadStep(s, s.threads[i], a.input).value, f);
    }
  }

  /** In every run, whatever holds of a call has its reason in an earlier step of that call. */
  lemma {:induction false} EveryFactHasReason(states: seq<State>, actions: seq<Action>, n: nat, i: nat, f: Fact)
    returns (m: nat)
    requires IsRun(states, actions) && n < |states| && i < |states[n].threads|
    requires Shows(Core(states[n].threads[i].pc), f)
    ensures m < n && Explains(states, actions, m, i, f)
    ensures states[m].threads[i].req == states[n].threads[i].req
  {
    hide Next, Safe, Initial, Shows, Reason, Core;
    NoThreadsInitially(states[0]);
    var s, a := states[n - 1], actions[n - 1];
    assert Next(s, a) == Some(states[n]);
    SafeAlong(states, actions, n - 1);
    ShapesOf(s);
    FactBack(s, a, states[n], i, f);
    if Shows(Core(s.threads[i].pc), f) {
      m := EveryFactHasReason(states, actions, n - 1, i, f);
    } else {
      m := n - 1;
    }
  }
}
