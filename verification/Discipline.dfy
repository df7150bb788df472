/** How often the plugin turns to the network: the backoff after a 429, and the spacing of
    harvests. */
module Discipline {
  import opened Wrappers
  import opened Tickets
  import opened Counting
  import opened Plugin
  import opened Resources
  import opened Isolation
  import opened Safety

  // ---- the business backoff ----

  /** Program points from which a call can still reach the upstream request. */
  predicate CanSend(pc: Pc) {
    pc.TicketLookup? || pc.EntryWait? || pc.ReadClock? || pc.ReadCandidate? || pc.Decide? || pc.PermitWait?
    || pc.Harvest? || pc.Leave? || pc.CacheLookup? || pc.CacheWait? || pc.CacheRead? || pc.Send?
    || (InPersist(pc) && !pc.job.Revoke?)
  }

  /** A call for account `a` that will not see a backoff until `until`. */
  function Armed(a: int, until: int): Thread -> bool {
    (t: Thread) => && t.slot && t.req.account == a
                   && (CanSend(Core(t.pc)) || (t.pc.BackoffCheck? && t.pc.until < until))
  }

  predicate SendsFor(s: State, act: Action, a: int) {
    && act.Run? && act.thread < |s.threads|
    && s.threads[act.thread].pc.Send? && !act.input.Fail?
    && s.threads[act.thread].req.account == a
  }

  /** The requests sent upstream for account `a` by the actions numbered `lo` to `hi`. */
  function Sends(states: seq<State>, actions: seq<Action>, a: int, lo: nat, hi: nat): nat
    requires lo <= hi <= |actions| < |states|
    decreases hi
  {
    if lo == hi then 0
    else Sends(states, actions, a, lo, hi - 1) + Bit(SendsFor(states[hi - 1], actions[hi - 1], a))
  }

  predicate BackoffSeen(s: State, a: int, until: int) {
    BackoffOf(s, a) >= until && s.clock < until
  }

  lemma AdmissionArms(s: State, t: Thread, input: Input, until: int)
    requires ShapeOk(t) && BackoffSeen(s, t.req.account, until) && AdmissionStep(s, t, input).Some?
    ensures var u := Moved(t, AdmissionStep(s, t, input).value);
            Armed(t.req.account, until)(u) ==> Armed(t.req.account, until)(t)
  {
    hide Key, ValidTicket;
  }

  lemma UpstreamArms(s: State, t: Thread, input: Input, until: int)
    requires ShapeOk(t) && UpstreamStep(s, t, input).Some?
    ensures var u := Moved(t, UpstreamStep(s, t, input).value);
            && (Armed(t.req.account, until)(u) ==> Armed(t.req.account, until)(t))
            && (t.pc.Send? && !input.Fail? ==> Armed(t.req.account, until)(t) && !Armed(t.req.account, until)(u))
  {
    hide Key, ValidTicket;
  }

  /** The parts of a call that are all on one side of the upstream request. */
  lemma RestArms(s: State, t: Thread, input: Input, until: int)
    requires ShapeOk(t) && ThreadStep(s, t, input).Some?
    requires PartOf(t.pc) != Admission && PartOf(t.pc) != Upstream
    ensures var u := Moved(t, ThreadStep(s, t, input).value);
            Armed(t.req.account, until)(u) ==> Armed(t.req.account, until)(t)
  {
    hide AdmissionStep, TicketStep, CacheStep, HarvestStep, PersistStep, PublishStep, UpstreamStep, RevokeStep,
      ConfigStep, ShapeOk, Armed;
    match PartOf(t.pc)
    case Ticketing => TicketArms(s, t, input, until);
    case Caching => CacheArms(s, t, until);
    case Harvesting => HarvestArms(s, t, input, until);
    case Persisting => PersistArms(s, t, input, until);
    case Publishing => PublishArms(s, t, until);
    case Revoking => RevokeArms(s, t, until);
    case Configuring => ConfigArms(s, t, input, until);
    case _ =>
  }

  lemma TicketArms(s: State, t: Thread, input: Input, until: int)
    requires ShapeOk(t) && TicketStep(s, t, input).Some?
    ensures var u := Moved(t, TicketStep(s, t, input).value);
            Armed(t.req.account, until)(u) ==> Armed(t.req.account, until)(t)
  {
    hide Key, ValidTicket, Importable, GrantNow;
  }

  lemma CacheArms(s: State, t: Thread, until: int)
    requires ShapeOk(t) && CacheStep(s, t).Some?
    ensures var u := Moved(t, CacheStep(s, t).value);
            Armed(t.req.account, until)(u) ==> Armed(t.req.account, until)(t)
  {
    hide Key, ValidTicket, Importable, GrantNow;
  }

  lemma HarvestArms(s: State, t: Thread, input: Input, until: int)
    requires ShapeOk(t) && t.pc.Harvest? && HarvestStep(s, t, input).Some?
    ensures var u := Moved(t, HarvestStep(s, t, input).value);
            Armed(t.req.account, until)(u) ==> Armed(t.req.account, until)(t)
  {
    hide Key, ValidTicket, Importable, GrantNow;
  }

  lemma PersistArms(s: State, t: Thread, input: Input, until: int)
    requires ShapeOk(t) && PersistStep(s, t, input).Some?
    ensures var u := Moved(t, PersistStep(s, t, input).value);
            Armed(t.req.account, until)(u) ==> Armed(t.req.account, until)(t)
  {
    hide Key, ValidTicket, Importable, GrantNow;
  }

  lemma PublishArms(s: State, t: Thread, until: int)
    requires ShapeOk(t) && t.pc.Publish? && PublishStep(s, t).Some?
    ensures var u := Moved(t, PublishStep(s, t).value);
            Armed(t.req.account, until)(u) ==> Armed(t.req.account, until)(t)
  {
    hide Key, ValidTicket, Importable, GrantNow;
  }

  lemma RevokeArms(s: State, t: Thread, until: int)
    requires ShapeOk(t) && RevokeStep(s, t).Some?
    ensures var u := Moved(t, RevokeStep(s, t).value);
            Armed(t.req.account, until)(u) ==> Armed(t.req.account, until)(t)
  {
    hide Key, ValidTicket, Importable, GrantNow;
  }

  lemma ConfigArms(s: State, t: Thread, input: Input, until: int)
    requires ShapeOk(t) && ConfigStep(s, t, input).Some?
    ensures var u := Moved(t, ConfigStep(s, t, input).value);
            Armed(t.req.account, until)(u) ==> Armed(t.req.account, until)(t)
  {
    hide Key, ValidTicket, Importable, GrantNow;
  }

  lemma StepArms(s: State, t: Thread, input: Input, e: Effect, a: int, until: int)
    requires ShapeOk(t) && BackoffSeen(s, a, until) && ThreadStep(s, t, input) == Some(e)
    ensures Bit(Armed(a, until)(Moved(t, e))) + Bit(t.pc.Send? && !input.Fail? && t.req.account == a)
         <= Bit(Armed(a, until)(t))
  {
    hide AdmissionStep, TicketStep, CacheStep, HarvestStep, PersistStep, PublishStep, UpstreamStep, RevokeStep,
      ConfigStep, ShapeOk, CanSend, BackoffSeen;
    assert Moved(t, e).req == t.req;
    if t.req.account == a {
      if PartOf(t.pc) == Admission {
        AdmissionArms(s, t, input, until);
      } else if PartOf(t.pc) == Upstream {
        UpstreamArms(s, t, input, until);
      } else {
        RestArms(s, t, input, until);
      }
    }
  }

  /** One action while the backoff lasts: a request sent upstream uses up an armed call, and no
      call becomes armed. */
  lemma ActionArms(s: State, act: Action, a: int, until: int)
    requires Safe(s) && Next(s, act).Some? && !act.Crash? && BackoffSeen(s, a, until)
    ensures Bit(SendsFor(s, act, a)) + Count(Next(s, act).value.threads, Armed(a, until))
         <= Count(s.threads, Armed(a, until))
    ensures BackoffOf(Next(s, act).value, a) >= BackoffOf(s, a)
  {
    hide Safe, ShapeOk, ThreadStep, Armed, SlotsAfter, PermitsAfter, MutexAfter, LocksAfter, EntriesAfter, Moved;
    match act
    case Tick(_) =>
    case Arrive(req) =>
      NewcomersUnarmed(Thread(req, Scope, false, None, false, s.clock), a, until);
      CountAppend(s.threads, Thread(req, Scope, false, None, false, s.clock), Armed(a, until));
    case Configure(config) =>
      NewcomersUnarmed(Thread(NOBODY, CfgWait(config), false, None, false, s.clock), a, until);
      CountAppend(s.threads, Thread(NOBODY, CfgWait(config), false, None, false, s.clock), Armed(a, until));
    case Run(i, input) =>
      var e := ThreadStep(s, s.threads[i], input).value;
      ShapesOf(s);
      StepArms(s, s.threads[i], input, e, a, until);
      CountUpdate(s.threads, i, Moved(s.threads[i], e), Armed(a, until));
  }

  lemma NewcomersUnarmed(t: Thread, a: int, until: int)
    requires !t.slot
    ensures !Armed(a, until)(t)
  {
  }

  lemma {:induction false} SendsAreArmed(states: seq<State>, actions: seq<Action>, a: int, until: int, lo: nat, hi: nat)
    requires IsRun(states, actions) && lo <= hi <= |actions|
    requires forall m | lo <= m < hi :: !actions[m].Crash? && states[m].clock < until
    requires BackoffOf(states[lo], a) >= until
    ensures Sends(states, actions, a, lo, hi) + Count(states[hi].threads, Armed(a, until))
         <= Count(states[lo].threads, Armed(a, until))
    ensures BackoffOf(states[hi], a) >= until
    decreases hi
  {
    hide Safe, Next, Initial, Armed, SendsFor, BackoffOf;
    if lo != hi {
      SendsAreArmed(states, actions, a, until, lo, hi - 1);
      SafeAlong(states, actions, hi - 1);
      assert Next(states[hi - 1], actions[hi - 1]) == Some(states[hi]);
      ActionArms(states[hi - 1], actions[hi - 1], a, until);
    }
  }

  /** The step that records a 429 answer leaves at most one armed call: the account has two slots,
      and one of them is held by the call that records. */
  lemma RecordingDisarms(s: State, i: nat, input: Input, e: Effect, until: int)
    requires Safe(s) && i < |s.threads| && s.threads[i].pc.Backoff?
    requires ThreadStep(s, s.threads[i], input) == Some(e)
    ensures Count(Apply(s, i, e).threads, Armed(s.threads[i].req.account, until)) <= 1
  {
    hide Safe, ThreadStep, ShapeOk, ResourcesOk;
    var s', a := Apply(s, i, e), s.threads[i].req.account;
    ResourcesPreservedBy(s, i, input, e);
    RecorderIsUnarmed(s, s.threads[i], input, e, until);
    SlotCountOf(s', a);
    CountStrictlyWeaker(s'.threads, i, Armed(a, until), HoldsSlot(a));
  }

  lemma ResourcesPreservedBy(s: State, i: nat, input: Input, e: Effect)
    requires Safe(s) && i < |s.threads| && ThreadStep(s, s.threads[i], input) == Some(e)
    ensures ResourcesOk(Apply(s, i, e))
    ensures ShapeOk(s.threads[i])
  {
    hide IsolationOk, ResourcesOk, ThreadStep, Apply, ShapeOk;
    ShapesOf(s);
    ResourcesPreserved(s, Run(i, input));
  }

  lemma SlotCountOf(s: State, a: int)
    requires ResourcesOk(s)
    ensures Count(s.threads, HoldsSlot(a)) <= BUSINESS_SLOTS
  {
    hide MutexOk, LocksOk, PermitsOk, ShapeOk;
    assert SlotsTaken(s, a) == Count(s.threads, HoldsSlot(a));
  }

  lemma RecorderIsUnarmed(s: State, t: Thread, input: Input, e: Effect, until: int)
    requires ShapeOk(t) && t.pc.Backoff? && ThreadStep(s, t, input) == Some(e)
    ensures var u := Moved(t, e); HoldsSlot(t.req.account)(u) && !Armed(t.req.account, until)(u)
  {
    hide Key, ValidTicket;
  }

  /** After a business 429 has been recorded for an account, at most one more request for that
      account goes upstream before the recorded backoff ends, however the calls interleave. */
  lemma BackoffBound(states: seq<State>, actions: seq<Action>, i: nat, j: nat)
    requires IsRun(states, actions) && i < j <= |actions|
    requires actions[i].Run? && actions[i].thread < |states[i].threads|
    requires states[i].threads[actions[i].thread].pc.Backoff?
    requires forall m | i < m < j ::
               && !actions[m].Crash?
               && states[m].clock < BackoffOf(states[i + 1], states[i].threads[actions[i].thread].req.account)
    ensures Sends(states, actions, states[i].threads[actions[i].thread].req.account, i + 1, j) <= 1
    ensures BackoffOf(states[i + 1], states[i].threads[actions[i].thread].req.account)
         >= states[i].threads[actions[i].thread].pc.until
  {
    hide Initial, Safe, Armed, Apply, ThreadStep, BackoffOf, SendsFor;
    var t := states[i].threads[actions[i].thread];
    var until := BackoffOf(states[i + 1], t.req.account);
    SafeAlong(states, actions, i);
    assert Next(states[i], actions[i]) == Some(states[i + 1]);
    var e := ThreadStep(states[i], t, actions[i].input).value;
    BackoffStored(states[i], actions[i].thread, actions[i].input, e);
    RecordingDisarms(states[i], actions[i].thread, actions[i].input, e, until);
    SendsAreArmed(states, actions, t.req.account, until, i + 1, j);
  }

  /** The backoff a 429 asks for: five minutes or what the answer says, whichever ends later. */
  lemma BackoffAsked(s: State, t: Thread, input: Input, e: Effect)
    requires ThreadStep(s, t, input) == Some(e) && t.pc.Await? && input.Response? && input.status == 429
    ensures e.pc.Backoff? && e.pc.until >= s.clock + 300 * SECOND && e.pc.until >= input.retry
    ensures e.pc.until == s.clock + 300 * SECOND || e.pc.until == input.retry
  {
    hide Key, ValidTicket;
  }

  /** Recording stores what was asked for and never shortens an earlier backoff. */
  lemma BackoffStored(s: State, i: nat, input: Input, e: Effect)
    requires i < |s.threads| && s.threads[i].pc.Backoff? && ThreadStep(s, s.threads[i], input) == Some(e)
    ensures BackoffOf(Apply(s, i, e), s.threads[i].req.account) >= s.threads[i].pc.until
    ensures forall b :: BackoffOf(Apply(s, i, e), b) >= BackoffOf(s, b)
  {
    hide Key, ValidTicket, SlotsAfter, PermitsAfter, MutexAfter, LocksAfter, EntriesAfter, Moved;
  }

  /** A call between its upstream request and the end of the response: it awaits the head of the
      response, deals with it, or passes on the body. */
  predicate InFlight(t: Thread) {
    var pc := Core(t.pc);
    || pc.Await? || pc.Backoff? || pc.RevokeLookup? || pc.RevokeWait? || pc.RevokeCheck? || pc.Release? || pc.Body?
    || (InPersist(pc) && pc.job.Revoke?)
  }

  lemma InFlightHoldsSlot(t: Thread)
    requires ShapeOk(t) && InFlight(t)
    ensures t.slot
  {
  }

  /** At most two business requests per account are in flight, from the upstream request to the end of
      the streamed response. */
  lemma RequestsInFlight(states: seq<State>, actions: seq<Action>, n: nat, a: int)
    requires IsRun(states, actions) && n < |states|
    ensures Count(states[n].threads, (t: Thread) => InFlight(t) && t.req.account == a) <= 2
  {
    hide IsRun, Key, ShapeOk, ResourcesOk, InFlight;
    var s := states[n];
    SafeAlong(states, actions, n);
    ShapesOf(s);
    SlotCountOf(s, a);
    forall i | 0 <= i < |s.threads| && InFlight(s.threads[i]) ensures s.threads[i].slot {
      InFlightHoldsSlot(s.threads[i]);
    }
    CountWeaker(s.threads, (t: Thread) => InFlight(t) && t.req.account == a, HoldsSlot(a));
  }

  // ---- harvests ----

  predicate HarvestsFor(t: Thread, k: string) {
    InHarvest(Core(t.pc)) && RequestKey(t.req) == k
  }

  lemma HarvesterHolds(clock: int, entries: map<string, Entry>, t: Thread)
    requires ShapeOk(t) && DataOk(clock, entries, t) && InEntry(Core(t.pc))
    ensures t.held == Some(RequestKey(t.req))
    ensures InHarvest(Core(t.pc)) ==> t.permit
  {
    hide Key, CargoOk;
  }

  /** At most one harvest per key and three in all are in flight. */
  lemma HarvestsInFlight(states: seq<State>, actions: seq<Action>, n: nat)
    requires IsRun(states, actions) && n < |states|
    ensures forall i, j | 0 <= i < j < |states[n].threads| && InHarvest(Core(states[n].threads[i].pc))
                          && InHarvest(Core(states[n].threads[j].pc)) ::
              RequestKey(states[n].threads[i].req) != RequestKey(states[n].threads[j].req)
    ensures Count(states[n].threads, (t: Thread) => InHarvest(Core(t.pc))) <= 3
  {
    hide IsRun, Key, ShapeOk, DataOk, MutexOk, SlotsOk, EntryOk, InHarvest, Core, InEntry;
    var s := states[n];
    SafeAlong(states, actions, n);
    forall i | 0 <= i < |s.threads| && InHarvest(Core(s.threads[i].pc))
      ensures s.threads[i].held == Some(RequestKey(s.threads[i].req)) && s.threads[i].permit
    {
      HarvestingIsInEntry(s.threads[i]);
      HarvesterHolds(s.clock, s.entries, s.threads[i]);
    }
    CountWeaker(s.threads, (t: Thread) => InHarvest(Core(t.pc)), HoldsPermit());
  }

  lemma HarvestingIsInEntry(t: Thread)
    requires InHarvest(Core(t.pc))
    ensures InEntry(Core(t.pc))
  {
  }

  lemma CooldownStep(s: State, i: nat, input: Input, e: Effect, k: string)
    requires Safe(s) && i < |s.threads| && ThreadStep(s, s.threads[i], input) == Some(e) && k in s.entries
    ensures var after := EntryOf(Apply(s, i, e), k);
            var pc := s.threads[i].pc;
            && (after.cooldown < s.entries[k].cooldown ==>
                  pc.Publish? && pc.ok && !pc.job.Revoke? && RequestKey(s.threads[i].req) == k)
            && (s.entries[k].blocked && !after.blocked ==>
                  pc.Publish? && pc.ok && pc.job.Import? && RequestKey(s.threads[i].req) == k)
  {
    hide Key, ThreadStep, Legal, ShapeOk, Ready, Safe, LocksOk, MutexOk,
      CargoOk, EntryOk;
    StepSafe(s, i, input, e);
  }

  /** In every run, a cooldown moves earlier only when an import or a successful harvest is
      published, and a block is lifted only by the publication of an import. */
  lemma CooldownAndBlock(states: seq<State>, actions: seq<Action>, n: nat, k: string)
    requires IsRun(states, actions) && n < |actions| && !actions[n].Crash? && k in states[n].entries
    requires var before, after := states[n].entries[k], EntryOf(states[n + 1], k);
      after.cooldown < before.cooldown || (before.blocked && !after.blocked)
    ensures actions[n].Run? && actions[n].thread < |states[n].threads|
    ensures var before, after := states[n].entries[k], EntryOf(states[n + 1], k);
      var t := states[n].threads[actions[n].thread];
      && t.pc.Publish? && t.pc.ok && !t.pc.job.Revoke? && RequestKey(t.req) == k
      && (before.blocked && !after.blocked ==> t.pc.job.Import?)
  {
    hide Key, Initial, Safe, ThreadStep, Apply;
    SafeAlong(states, actions, n);
    var s, a := states[n], actions[n];
    assert Next(s, a) == Some(states[n + 1]);
    CooldownStep(s, a.thread, a.input, ThreadStep(s, s.threads[a.thread], a.input).value, k);
  }

  lemma BlockedStep(s: State, i: nat, input: Input, e: Effect)
    requires Safe(s) && i < |s.threads| && ThreadStep(s, s.threads[i], input) == Some(e)
    requires var pc := s.threads[i].pc; pc.Decide? || pc.PermitWait? || InHarvest(pc)
    requires EntryOf(s, RequestKey(s.threads[i].req)).blocked
    ensures s.threads[i].pc.Decide? && e == Effect(Leave(None), Stay)
  {
    hide Key, ValidTicket, Legal, ShapeOk, Ready, Safe, LocksOk, MutexOk,
      Careful;
    StepSafe(s, i, input, e);
  }

  /** In every run, a call that decides about a blocked entry leaves without a ticket, and no call
      waits for a harvest of it or is in one. */
  lemma BlockedGivesNothing(states: seq<State>, actions: seq<Action>, n: nat)
    requires IsRun(states, actions) && n < |actions| && actions[n].Run? && actions[n].thread < |states[n].threads|
    requires EntryOf(states[n], RequestKey(states[n].threads[actions[n].thread].req)).blocked
    ensures var t := states[n].threads[actions[n].thread];
      && !t.pc.PermitWait? && !InHarvest(t.pc)
      && (t.pc.Decide? ==> states[n + 1].threads[actions[n].thread].pc == Leave(None))
  {
    hide Key, Initial, Safe, ThreadStep, InHarvest, EntryOf;
    SafeAlong(states, actions, n);
    var s, a := states[n], actions[n];
    var t := s.threads[a.thread];
    assert Next(s, a) == Some(states[n + 1]);
    if t.pc.Decide? || t.pc.PermitWait? || InHarvest(t.pc) {
      BlockedStep(s, a.thread, a.input, ThreadStep(s, t, a.input).value);
    }
    DecidesNothingElse(t.pc);
  }

  lemma DecidesNothingElse(pc: Pc)
    ensures pc.Decide? ==> !InHarvest(pc)
  {
  }

  /** A harvest starts only for an entry that is not blocked, whose cooldown has passed, and whose
      ticket was not fresh when the call read the clock. */
  lemma HarvestIsDue(states: seq<State>, actions: seq<Action>, n: nat, i: nat)
    requires IsRun(states, actions) && n < |states| && i < |states[n].threads|
    requires states[n].threads[i].pc.PermitWait?
    ensures var t := states[n].threads[i];
      var e := EntryOf(states[n], RequestKey(t.req));
      && !e.blocked && e.cooldown <= t.pc.now <= states[n].clock && t.since <= t.pc.now
      && !IsFresh(e.ticket, t.pc.now)
  {
    hide IsRun, Key, IsFresh, ResourcesOk, EntryOk;
    SafeAlong(states, actions, n);
    assert DataOk(states[n].clock, states[n].entries, states[n].threads[i]);
  }

  /** An import replaces only by a ticket that was issued later; a harvest is not compared. */
  lemma ImportsAreNewer(states: seq<State>, actions: seq<Action>, n: nat, i: nat)
    requires IsRun(states, actions) && n < |states| && i < |states[n].threads|
    requires states[n].threads[i].pc.Publish? && states[n].threads[i].pc.job.Import?
    ensures var t := states[n].threads[i];
      t.pc.job.ticket.issued > EntryOf(states[n], RequestKey(t.req)).ticket.issued
  {
    hide IsRun, Key, ValidTicket, ResourcesOk, EntryOk;
    SafeAlong(states, actions, n);
    assert DataOk(states[n].clock, states[n].entries, states[n].threads[i]);
  }

  predicate StartsHarvest(s: State, act: Action, k: string) {
    && act.Run? && act.thread < |s.threads|
    && s.threads[act.thread].pc.PermitWait? && !act.input.Cancel?
    && RequestKey(s.threads[act.thread].req) == k
  }

  predicate FailsHarvest(s: State, act: Action, k: string) {
    && act.Run? && act.thread < |s.threads|
    && s.threads[act.thread].pc.Harvest? && act.input.Answer? && !act.input.outcome.Granted?
    && RequestKey(s.threads[act.thread].req) == k
  }

  predicate PublishesImport(s: State, act: Action, k: string) {
    && act.Run? && act.thread < |s.threads|
    && s.threads[act.thread].pc.Publish? && s.threads[act.thread].pc.job.Import?
    && RequestKey(s.threads[act.thread].req) == k
  }

  /** The pause a failed harvest asks for. */
  function PauseAfter(outcome: Outcome): int {
    if outcome.Refused? && (outcome.terminal || outcome.limited) then 300 * SECOND else 60 * SECOND
  }

  ghost predicate Paused(s: State, k: string, until: int) {
    && k in s.entries && s.entries[k].cooldown >= until
    && forall i | 0 <= i < |s.threads| :: !HarvestsFor(s.threads[i], k)
  }

  lemma FailurePauses(s: State, i: nat, input: Input, e: Effect)
    requires Safe(s) && i < |s.threads| && ThreadStep(s, s.threads[i], input) == Some(e)
    requires s.threads[i].pc.Harvest? && input.Answer? && !input.outcome.Granted?
    ensures Paused(Apply(s, i, e), RequestKey(s.threads[i].req), s.clock + PauseAfter(input.outcome))
  {
    hide Key, ValidTicket, Legal, Ready, MutexOk, Careful,
      SlotsOk, PermitsOk, EntryOk, ShapeOk, DataOk, HarvestsFor, SlotsAfter, PermitsAfter, MutexAfter, LocksAfter;
    var k := RequestKey(s.threads[i].req);
    var s' := Apply(s, i, e);
    forall j | 0 <= j < |s'.threads| ensures !HarvestsFor(s'.threads[j], k) {
      if j == i {
        LeftHarvest(s'.threads[i], k);
      } else {
        OneHarvester(s, i, j);
      }
    }
  }

  lemma LeftHarvest(t: Thread, k: string)
    requires t.pc.Leave?
    ensures !HarvestsFor(t, k)
  {
  }

  lemma OneHarvester(s: State, i: nat, j: nat)
    requires ResourcesOk(s) && IsolationOk(s) && i < |s.threads| && j < |s.threads| && i != j
    requires s.threads[i].pc.Harvest?
    ensures !HarvestsFor(s.threads[j], RequestKey(s.threads[i].req))
  {
    hide Key, ShapeOk, DataOk, MutexOk, SlotsOk, PermitsOk, EntryOk;
    if HarvestsFor(s.threads[j], RequestKey(s.threads[i].req)) {
      HarvesterHolds(s.clock, s.entries, s.threads[i]);
      HarvesterHolds(s.clock, s.entries, s.threads[j]);
    }
  }

  lemma HarvestBegins(s: State, t: Thread, input: Input, e: Effect)
    requires ShapeOk(t) && ThreadStep(s, t, input) == Some(e) && InHarvest(Core(e.pc))
    ensures InHarvest(Core(t.pc)) || (t.pc.PermitWait? && !input.Cancel?)
  {
    hide AdmissionStep, TicketStep, CacheStep, HarvestStep, PersistStep, PublishStep, UpstreamStep, RevokeStep,
      ConfigStep;
    match PartOf(t.pc)
    case Admission => AdmissionBegins(s, t, input);
    case Ticketing => TicketBegins(s, t, input);
    case Caching => CacheBegins(s, t);
    case Persisting => PersistBegins(s, t, input);
    case Publishing => PublishBegins(s, t);
    case Upstream => UpstreamBegins(s, t, input);
    case Revoking => RevokeBegins(s, t);
    case Configuring => ConfigBegins(s, t, input);
    case _ =>
  }

  lemma AdmissionBegins(s: State, t: Thread, input: Input)
    requires ShapeOk(t) && AdmissionStep(s, t, input).Some?
    ensures InHarvest(Core(AdmissionStep(s, t, input).value.pc)) ==> InHarvest(Core(t.pc))
  {
    hide Key, ValidTicket, Importable, GrantNow;
  }

  lemma TicketBegins(s: State, t: Thread, input: Input)
    requires ShapeOk(t) && TicketStep(s, t, input).Some?
    ensures InHarvest(Core(TicketStep(s, t, input).value.pc)) ==>
      InHarvest(Core(t.pc)) || (t.pc.PermitWait? && !input.Cancel?)
  {
    hide Key, ValidTicket, Importable, GrantNow;
  }

  lemma CacheBegins(s: State, t: Thread)
    requires ShapeOk(t) && CacheStep(s, t).Some?
    ensures InHarvest(Core(CacheStep(s, t).value.pc)) ==> InHarvest(Core(t.pc))
  {
    hide Key, ValidTicket, Importable, GrantNow;
  }

  lemma PersistBegins(s: State, t: Thread, input: Input)
    requires ShapeOk(t) && PersistStep(s, t, input).Some?
    ensures InHarvest(Core(PersistStep(s, t, input).value.pc)) ==> InHarvest(Core(t.pc))
  {
    hide Key, ValidTicket, Importable, GrantNow;
  }

  lemma PublishBegins(s: State, t: Thread)
    requires ShapeOk(t) && t.pc.Publish? && PublishStep(s, t).Some?
    ensures InHarvest(Core(PublishStep(s, t).value.pc)) ==> InHarvest(Core(t.pc))
  {
    hide Key, ValidTicket, Importable, GrantNow;
  }

  lemma UpstreamBegins(s: State, t: Thread, input: Input)
    requires ShapeOk(t) && UpstreamStep(s, t, input).Some?
    ensures InHarvest(Core(UpstreamStep(s, t, input).value.pc)) ==> InHarvest(Core(t.pc))
  {
    hide Key, ValidTicket, Importable, GrantNow;
  }

  lemma RevokeBegins(s: State, t: Thread)
    requires ShapeOk(t) && RevokeStep(s, t).Some?
    ensures InHarvest(Core(RevokeStep(s, t).value.pc)) ==> InHarvest(Core(t.pc))
  {
    hide Key, ValidTicket, Importable, GrantNow;
  }

  lemma ConfigBegins(s: State, t: Thread, input: Input)
    requires ShapeOk(t) && ConfigStep(s, t, input).Some?
    ensures InHarvest(Core(ConfigStep(s, t, input).value.pc)) ==> InHarvest(Core(t.pc))
  {
    hide Key, ValidTicket, Importable, GrantNow;
  }

  lemma PauseLasts(s: State, act: Action, k: string, until: int)
    requires Safe(s) && Next(s, act).Some? && !act.Crash? && Paused(s, k, until)
    requires !StartsHarvest(s, act, k) && !PublishesImport(s, act, k)
    ensures Paused(Next(s, act).value, k, until)
  {
    hide Key, Safe, ThreadStep, ShapeOk, SlotsAfter, PermitsAfter, MutexAfter, LocksAfter, InHarvest;
    NewcomersHarvestNothing();
    match act
    case Tick(_) =>
    case Arrive(_) =>
    case Configure(_) =>
    case Run(i, input) =>
      var e := ThreadStep(s, s.threads[i], input).value;
      ShapesOf(s);
      CooldownStep(s, i, input, e, k);
      if InHarvest(Core(e.pc)) { HarvestBegins(s, s.threads[i], input, e); }
      PublisherHarvests(s.threads[i]);
      StaysInEntries(s, i, e, k);
  }

  lemma NewcomersHarvestNothing()
    ensures !InHarvest(Core(Scope))
    ensures forall c :: !InHarvest(Core(CfgWait(c)))
  {
  }

  lemma PublisherHarvests(t: Thread)
    ensures t.pc.Publish? && t.pc.job.Harvested? ==> InHarvest(Core(t.pc))
  {
  }

  lemma StaysInEntries(s: State, i: nat, e: Effect, k: string)
    requires i < |s.threads| && k in s.entries
    ensures k in Apply(s, i, e).entries
  {
  }

  lemma {:induction false} PauseAlong(states: seq<State>, actions: seq<Action>, k: string, until: int, i: nat, j: nat)
    requires IsRun(states, actions) && i <= j < |states|
    requires Paused(states[i], k, until)
    requires forall m | i <= m < j :: && !actions[m].Crash?
                                      && !StartsHarvest(states[m], actions[m], k)
                                      && !PublishesImport(states[m], actions[m], k)
    ensures Paused(states[j], k, until)
    decreases j
  {
    hide Safe, Next, Initial, Paused, StartsHarvest, PublishesImport;
    if i < j {
      PauseAlong(states, actions, k, until, i, j - 1);
      SafeAlong(states, actions, j - 1);
      assert Next(states[j - 1], actions[j - 1]) == Some(states[j]);
      PauseLasts(states[j - 1], actions[j - 1], k, until);
    }
  }

  /** After a failed harvest the next one on that key starts at least a minute later, five if it
      was denied or rate limited, unless an import came in between. */
  lemma HarvestsAreSpaced(states: seq<State>, actions: seq<Action>, k: string, i: nat, j: nat)
    requires IsRun(states, actions) && i < j < |actions|
    requires FailsHarvest(states[i], actions[i], k) && StartsHarvest(states[j], actions[j], k)
    requires forall m | i < m < j :: && !actions[m].Crash?
                                     && !StartsHarvest(states[m], actions[m], k)
                                     && !PublishesImport(states[m], actions[m], k)
    ensures states[j].clock >= states[i].clock + PauseAfter(actions[i].input.outcome)
  {
    hide Key, Safe, Initial, Paused, ThreadStep, Apply, PublishesImport;
    SafeAlong(states, actions, i);
    SafeAlong(states, actions, j);
    assert Next(states[i], actions[i]) == Some(states[i + 1]);
    var until := states[i].clock + PauseAfter(actions[i].input.outcome);
    var t := states[i].threads[actions[i].thread];
    FailurePauses(states[i], actions[i].thread, actions[i].input, ThreadStep(states[i], t, actions[i].input).value);
    PauseAlong(states, actions, k, until, i + 1, j);
    StartIsDue(states[j], actions[j].thread, k, until);
  }

  lemma StartIsDue(s: State, i: nat, k: string, until: int)
    requires Safe(s) && i < |s.threads| && s.threads[i].pc.PermitWait? && RequestKey(s.threads[i].req) == k
    requires Paused(s, k, until)
    ensures s.clock >= until
  {
    hide Key, ResourcesOk, EntryOk, HarvestsFor;
    assert DataOk(s.clock, s.entries, s.threads[i]);
  }

  // ---- which ends of a harvest set a pause ----

  lemma HarvesterData(s: State, i: nat)
    requires Safe(s) && i < |s.threads| && InHarvest(Core(s.threads[i].pc))
    ensures s.threads[i].held == Some(RequestKey(s.threads[i].req))
    ensures RequestKey(s.threads[i].req) in s.entries
    ensures var e := EntryOf(s, RequestKey(s.threads[i].req)); !e.blocked && e.cooldown <= s.clock
    ensures s.clock >= 0 && ShapeOk(s.threads[i])
  {
    hide Key, ValidTicket, ResourcesOk, EntryOk, GrantOk, ShapeOk;
    var t := s.threads[i];
    SplitSafe(s);
    ShapesOf(s);
    HarvestingIsInEntry(t);
    HarvesterHolds(s.clock, s.entries, t);
    assert DataOk(s.clock, s.entries, t);
  }

  /** How a step that ends a harvest leaves the entry. */
  lemma EndOfHarvest(s: State, t: Thread, input: Input, e: Effect)
    requires ShapeOk(t) && ThreadStep(s, t, input) == Some(e) && InHarvest(Core(t.pc)) && !InHarvest(Core(e.pc))
    ensures if t.pc.Harvest? then
        && input.Answer? && !input.outcome.Granted?
        && e.op.PutEntry? && e.op.key == RequestKey(t.req)
        && e.op.entry.cooldown == s.clock + PauseAfter(input.outcome)
      else
        && t.pc.Publish? && t.pc.job.Harvested?
        && if t.pc.ok then e.op.PutEntry? && e.op.key == RequestKey(t.req) && e.op.entry.cooldown == ZERO_TIME
           else e == Effect(Leave(None), Stay)
  {
    hide Key, ValidTicket, GrantNow;
  }

  ghost predicate EndsHarvest(states: seq<State>, actions: seq<Action>, n: nat, i: nat)
    requires IsRun(states, actions) && n < |actions|
  {
    && actions[n].Run? && actions[n].thread == i && i < |states[n].threads| && i < |states[n + 1].threads|
    && InHarvest(Core(states[n].threads[i].pc)) && !InHarvest(Core(states[n + 1].threads[i].pc))
  }

  /** In every run, the end of a harvest leaves a pause on the entry exactly if the answer was no
      ticket: not if the ticket was cached, and not if it could not be stored. */
  lemma PausesExactly(states: seq<State>, actions: seq<Action>, n: nat, i: nat)
    requires IsRun(states, actions) && n < |actions| && EndsHarvest(states, actions, n, i)
    ensures var k := RequestKey(states[n].threads[i].req);
      EntryOf(states[n + 1], k).cooldown > states[n + 1].clock <==> FailsHarvest(states[n], actions[n], k)
  {
    hide Key, Initial, Safe, ThreadStep, InHarvest, Core, ShapeOk, Moved, SlotsAfter, PermitsAfter, MutexAfter,
      LocksAfter;
    var s, a := states[n], actions[n];
    SafeAlong(states, actions, n);
    assert Next(s, a) == Some(states[n + 1]);
    var e := ThreadStep(s, s.threads[i], a.input).value;
    HarvesterData(s, i);
    MovedPc(s.threads[i], e);
    EndOfHarvest(s, s.threads[i], a.input, e);
  }

  lemma MovedPc(t: Thread, e: Effect)
    ensures Moved(t, e).pc == e.pc
  {
  }

  /** A harvest whose ticket cannot be stored ends in an error and sets no pause: the next call that
      decides about the entry goes straight to a harvest again, unless the old ticket is fresh. */
  lemma UnstoredHarvestSetsNoPause(states: seq<State>, actions: seq<Action>, n: nat, i: nat, now: int)
    requires IsRun(states, actions) && n < |actions| && actions[n].Run? && actions[n].thread == i
    requires i < |states[n].threads| && now >= states[n].clock
    requires states[n].threads[i].pc.Publish? && states[n].threads[i].pc.job.Harvested? && !states[n].threads[i].pc.ok
    ensures states[n + 1].entries == states[n].entries
    ensures states[n + 1].threads[i].pc == Leave(None)
    ensures var e := EntryOf(states[n + 1], RequestKey(states[n].threads[i].req));
      !IsFresh(e.ticket, now) ==> DecideNext(e, now) == PermitWait(now)
  {
    hide Key, ValidTicket, Initial, Safe, ThreadStep, InHarvest, Core, ShapeOk, SlotsAfter, PermitsAfter, MutexAfter,
      LocksAfter, IsFresh;
    var s, a := states[n], actions[n];
    SafeAlong(states, actions, n);
    assert Next(s, a) == Some(states[n + 1]);
    PublishesUnstored(s, s.threads[i], a.input);
    HarvesterData(s, i);
  }

  lemma PublishesUnstored(s: State, t: Thread, input: Input)
    requires t.pc.Publish? && t.pc.job.Harvested? && !t.pc.ok
    ensures InHarvest(Core(t.pc))
    ensures ThreadStep(s, t, input) == Some(Effect(Leave(None), Stay))
  {
  }

  /** A denied or limited answer reaches the entry that still holds the ticket it was for. */
  predicate Cools(s: State, act: Action, k: string) {
    && act.Run? && act.thread < |s.threads|
    && s.threads[act.thread].pc.RevokeCheck? && RequestKey(s.threads[act.thread].req) == k
    && var ticket := s.threads[act.thread].pc.ticket;
       EntryOf(s, k).ticket.value == ticket.value && EntryOf(s, k).ticket.issued == ticket.issued
  }

  lemma CoolsDown(s: State, t: Thread, e: Effect)
    requires RevokeStep(s, t) == Some(e) && t.pc.RevokeCheck?
    requires EntryOf(s, KeyOf(t.pc.ticket)).ticket.value == t.pc.ticket.value
    requires EntryOf(s, KeyOf(t.pc.ticket)).ticket.issued == t.pc.ticket.issued
    ensures e.op.PutEntry? && e.op.key == KeyOf(t.pc.ticket) && e.op.entry.cooldown == s.clock + COOLDOWN
    ensures !InHarvest(Core(e.pc))
  {
    hide Key;
  }

  lemma CheckerHolds(s: State, i: nat)
    requires Safe(s) && i < |s.threads| && s.threads[i].pc.RevokeCheck?
    ensures s.threads[i].held == Some(RequestKey(s.threads[i].req))
    ensures KeyOf(s.threads[i].pc.ticket) == RequestKey(s.threads[i].req)
  {
    hide Key, Admissible, MutexOk, SlotsOk, PermitsOk, LocksOk, EntryOk;
    var t := s.threads[i];
    assert ShapeOk(t) && DataOk(s.clock, s.entries, t);
    OwnKey(t.req, t.pc.ticket);
  }

  lemma CheckerIsAlone(s: State, i: nat, j: nat)
    requires ResourcesOk(s) && IsolationOk(s) && i < |s.threads| && j < |s.threads| && i != j
    requires s.threads[i].held == Some(RequestKey(s.threads[i].req))
    ensures !HarvestsFor(s.threads[j], RequestKey(s.threads[i].req))
  {
    hide Key, ShapeOk, DataOk, MutexOk, SlotsOk, PermitsOk, EntryOk;
    if HarvestsFor(s.threads[j], RequestKey(s.threads[i].req)) {
      HarvesterHolds(s.clock, s.entries, s.threads[j]);
    }
  }

  lemma DenialPauses(s: State, i: nat, input: Input, e: Effect)
    requires Safe(s) && i < |s.threads| && ThreadStep(s, s.threads[i], input) == Some(e)
    requires Cools(s, Run(i, input), RequestKey(s.threads[i].req))
    ensures Paused(Apply(s, i, e), RequestKey(s.threads[i].req), s.clock + COOLDOWN)
  {
    hide Key, Safe, RevokeStep, ResourcesOk, IsolationOk, ShapeOk, HarvestsFor, SlotsAfter, PermitsAfter,
      MutexAfter, LocksAfter;
    var k := RequestKey(s.threads[i].req);
    var s' := Apply(s, i, e);
    CheckerHolds(s, i);
    CoolsDown(s, s.threads[i], e);
    SplitSafe(s);
    forall j | 0 <= j < |s'.threads| ensures !HarvestsFor(s'.threads[j], k) {
      if j == i {
        NotHarvesting(s'.threads[i], k);
      } else {
        CheckerIsAlone(s, i, j);
      }
    }
  }

  lemma NotHarvesting(t: Thread, k: string)
    requires !InHarvest(Core(t.pc))
    ensures !HarvestsFor(t, k)
  {
  }

  /** After a 401, 403 or 429 for the ticket an entry still holds, the next harvest of its key starts
      at least five minutes later, unless an import came in between. */
  lemma DenialsAreSpaced(states: seq<State>, actions: seq<Action>, k: string, i: nat, j: nat)
    requires IsRun(states, actions) && i < j < |actions|
    requires Cools(states[i], actions[i], k) && StartsHarvest(states[j], actions[j], k)
    requires forall m | i < m < j :: && !actions[m].Crash?
                                     && !StartsHarvest(states[m], actions[m], k)
                                     && !PublishesImport(states[m], actions[m], k)
    ensures states[j].clock >= states[i].clock + 300 * SECOND
  {
    hide Key, Safe, Initial, Paused, ThreadStep, Apply, PublishesImport, Cools;
    SafeAlong(states, actions, i);
    SafeAlong(states, actions, j);
    assert Next(states[i], actions[i]) == Some(states[i + 1]);
    var a := actions[i];
    CoolsIsRun(states[i], a, k);
    var t := states[i].threads[a.thread];
    DenialPauses(states[i], a.thread, a.input, ThreadStep(states[i], t, a.input).value);
    PauseAlong(states, actions, k, states[i].clock + COOLDOWN, i + 1, j);
    StartIsDue(states[j], actions[j].thread, k, states[i].clock + COOLDOWN);
  }

  lemma CoolsIsRun(s: State, act: Action, k: string)
    requires Cools(s, act, k)
    ensures act.Run? && act.thread < |s.threads| && RequestKey(s.threads[act.thread].req) == k
    ensures Cools(s, Run(act.thread, act.input), k)
  {
  }

  // ---- blocks ----

  /** The publication of a revocation, or a harvest that is denied. */
  predicate Blocks(s: State, act: Action, k: string) {
    && act.Run? && act.thread < |s.threads| && RequestKey(s.threads[act.thread].req) == k
    && var pc := s.threads[act.thread].pc;
       || (pc.Publish? && pc.job.Revoke?)
       || (pc.Harvest? && act.input.Answer? && act.input.outcome.Refused? && act.input.outcome.terminal)
  }

  lemma BlockedAfter(s: State, t: Thread, input: Input, e: Effect)
    requires ThreadStep(s, t, input) == Some(e)
    requires || (t.pc.Publish? && t.pc.job.Revoke? && KeyOf(t.pc.job.ticket) == RequestKey(t.req))
             || (t.pc.Harvest? && input.Answer? && input.outcome.Refused? && input.outcome.terminal)
    ensures e.op.PutEntry? && e.op.key == RequestKey(t.req) && e.op.entry.blocked
    ensures t.pc.Publish? ==> e.op.entry.ticket == EMPTY
  {
    hide Key, ValidTicket;
  }

  lemma RevokesOwn(s: State, i: nat)
    requires Safe(s) && i < |s.threads| && s.threads[i].pc.Publish? && s.threads[i].pc.job.Revoke?
    ensures KeyOf(s.threads[i].pc.job.ticket) == RequestKey(s.threads[i].req)
  {
    hide Key, Admissible, ResourcesOk, EntryOk;
    var t := s.threads[i];
    assert DataOk(s.clock, s.entries, t);
    OwnKey(t.req, t.pc.job.ticket);
  }

  lemma BlockBegins(s: State, act: Action, k: string)
    requires Safe(s) && Next(s, act).Some? && Blocks(s, act, k)
    ensures k in Next(s, act).value.entries && Next(s, act).value.entries[k].blocked
  {
    hide Key, Safe, ThreadStep, SlotsAfter, PermitsAfter, MutexAfter, LocksAfter;
    var t := s.threads[act.thread];
    if t.pc.Publish? { RevokesOwn(s, act.thread); }
    BlockedAfter(s, t, act.input, ThreadStep(s, t, act.input).value);
  }

  /** In every run, once a revocation is published or a harvest is denied, the entry stays blocked
      until an import of its key is published. */
  lemma {:induction false} BlockLasts(states: seq<State>, actions: seq<Action>, k: string, i: nat, j: nat)
    requires IsRun(states, actions) && i < j < |states|
    requires Blocks(states[i], actions[i], k)
    requires forall m | i < m < j :: !actions[m].Crash? && !PublishesImport(states[m], actions[m], k)
    ensures k in states[j].entries && states[j].entries[k].blocked
    decreases j
  {
    hide Key, Safe, Initial, Blocks, ThreadStep, Apply;
    SafeAlong(states, actions, j - 1);
    assert Next(states[j - 1], actions[j - 1]) == Some(states[j]);
    if j == i + 1 {
      BlockBegins(states[i], actions[i], k);
    } else {
      BlockLasts(states, actions, k, i, j - 1);
      EntriesStay(states[j - 1], actions[j - 1], k);
      if k in states[j].entries && !states[j].entries[k].blocked {
        CooldownAndBlock(states, actions, j - 1, k);
      }
    }
  }

  lemma EntriesStay(s: State, act: Action, k: string)
    requires Next(s, act).Some? && !act.Crash? && k in s.entries
    ensures k in Next(s, act).value.entries
  {
    hide ThreadStep;
  }
}
