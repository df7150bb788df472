/** Who holds what: the plugin lock, the entry locks, the business slots and the harvest permits.
    The channels and locks of the machine always agree with the deferred releases of its threads,
    in every reachable state. */
module Resources {
  import opened Wrappers
  import opened Tickets
  import opened Counting
  import opened Plugin

  function Core(pc: Pc): Pc { if pc.Section? then pc.next else pc }

  /** Program points inside `p.mu.Lock()` that take more than one step. */
  predicate InsideLock(pc: Pc) {
    pc.PersistRead? || pc.PersistFilter? || pc.PersistWrite? || pc.PersistRename? || pc.PersistDone?
    || pc.CfgRead? || pc.CfgLoad?
  }

  predicate InPersist(pc: Pc) {
    pc.PersistWait? || pc.PersistRead? || pc.PersistFilter? || pc.PersistWrite? || pc.PersistRename?
    || pc.PersistDone? || pc.Publish?
  }

  /** Program points between `entry.mu.Lock()` and its release. */
  predicate InEntry(pc: Pc) {
    pc.ReadClock? || pc.ReadCandidate? || pc.Decide? || pc.PermitWait? || pc.Harvest? || pc.Leave?
    || pc.CacheRead? || InPersist(pc) || pc.RevokeCheck? || pc.Release?
  }

  /** Program points outside the span of the business slot. */
  predicate WithoutSlot(pc: Pc) {
    pc.Scope? || pc.SlotLookup? || pc.SlotWait? || pc.Done? || pc.CfgWait? || pc.CfgRead? || pc.CfgLoad?
  }

  predicate InHarvest(pc: Pc) {
    pc.Harvest? || (InPersist(pc) && pc.job.Harvested?)
  }

  /** The deferred releases of a thread match its program point. */
  predicate ShapeOk(t: Thread) {
    var pc := Core(t.pc);
    && (t.pc.Section? ==> t.pc.count >= 1 && !InsideLock(pc) && !InPersist(pc) && !pc.Section? && !pc.BackoffCheck?)
    && t.slot == !WithoutSlot(pc)
    && t.held.Some? == InEntry(pc)
    && (InHarvest(pc) ==> t.permit)
    && (t.permit ==> InHarvest(pc) || pc.Leave?)
  }

  ghost predicate MutexOk(s: State) {
    && (s.mutex.Some? ==> s.mutex.value < |s.threads| && InsideLock(s.threads[s.mutex.value].pc))
    && forall i | 0 <= i < |s.threads| && InsideLock(s.threads[i].pc) :: s.mutex == Some(i)
  }

  ghost predicate LocksOk(s: State) {
    && (forall k | k in s.locks :: s.locks[k] < |s.threads| && s.threads[s.locks[k]].held == Some(k))
    && forall i | 0 <= i < |s.threads| && s.threads[i].held.Some? ::
         s.threads[i].held.value in s.locks && s.locks[s.threads[i].held.value] == i
  }

  function HoldsSlot(a: int): Thread -> bool { (t: Thread) => t.slot && t.req.account == a }

  function HoldsPermit(): Thread -> bool { (t: Thread) => t.permit }

  ghost predicate SlotsOk(s: State) {
    forall a :: SlotsTaken(s, a) == Count(s.threads, HoldsSlot(a)) <= BUSINESS_SLOTS
  }

  ghost predicate PermitsOk(s: State) {
    s.permits == Count(s.threads, HoldsPermit()) <= HARVEST_PERMITS
  }

  ghost predicate ResourcesOk(s: State) {
    && MutexOk(s)
    && LocksOk(s)
    && SlotsOk(s)
    && PermitsOk(s)
    && forall i | 0 <= i < |s.threads| :: ShapeOk(s.threads[i])
  }

  // ---- steps ----

  /** The effects that keep channels, locks and deferred releases in agreement. */
  predicate Legal(s: State, t: Thread, e: Effect) {
    var u := Moved(t, e);
    && ShapeOk(u)
    && (e.op.Rename? || e.op.PutTmp? ==> InsideLock(t.pc))
    && (match e.op
        case TakeSlot => !t.slot && SlotsTaken(s, t.req.account) < BUSINESS_SLOTS
        case GiveSlot => t.slot
        case TakePermit => !t.permit && s.permits < HARVEST_PERMITS
        case GivePermit => t.permit
        case TakeEntry(key) => t.held.None? && key !in s.locks
        case GiveEntry => t.held.Some?
        case _ => true)
    && (match e.op
        case TakeMutex => s.mutex.None? && InsideLock(u.pc)
        case BeginConfig(_) => s.mutex.None? && InsideLock(u.pc)
        case GiveMutex(_, _) => InsideLock(t.pc) && !InsideLock(u.pc)
        case _ => InsideLock(u.pc) == InsideLock(t.pc))
  }

  lemma AdmissionLegal(s: State, t: Thread, input: Input)
    requires ShapeOk(t) && AdmissionStep(s, t, input).Some?
    ensures Legal(s, t, AdmissionStep(s, t, input).value)
  {
    hide Key, ValidTicket;
  }

  lemma TicketLegal(s: State, t: Thread, input: Input)
    requires ShapeOk(t) && TicketStep(s, t, input).Some?
    ensures Legal(s, t, TicketStep(s, t, input).value)
  {
    hide Key, ValidTicket;
  }

  lemma CacheLegal(s: State, t: Thread)
    requires ShapeOk(t) && CacheStep(s, t).Some?
    ensures Legal(s, t, CacheStep(s, t).value)
  {
    hide Key, ValidTicket;
  }

  lemma HarvestLegal(s: State, t: Thread, input: Input)
    requires ShapeOk(t) && t.pc.Harvest? && HarvestStep(s, t, input).Some?
    ensures Legal(s, t, HarvestStep(s, t, input).value)
  {
    hide Key, ValidTicket;
  }

  lemma PersistLegal(s: State, t: Thread, input: Input)
    requires ShapeOk(t) && PersistStep(s, t, input).Some?
    ensures Legal(s, t, PersistStep(s, t, input).value)
  {
    hide Key, ValidTicket;
  }

  lemma PublishLegal(s: State, t: Thread)
    requires ShapeOk(t) && t.pc.Publish? && PublishStep(s, t).Some?
    ensures Legal(s, t, PublishStep(s, t).value)
  {
    hide Key, ValidTicket;
  }

  lemma UpstreamLegal(s: State, t: Thread, input: Input)
    requires ShapeOk(t) && UpstreamStep(s, t, input).Some?
    ensures Legal(s, t, UpstreamStep(s, t, input).value)
  {
    hide Key, ValidTicket;
  }

  lemma RevokeLegal(s: State, t: Thread)
    requires ShapeOk(t) && RevokeStep(s, t).Some?
    ensures Legal(s, t, RevokeStep(s, t).value)
  {
    hide Key, ValidTicket;
  }

  lemma ConfigLegal(s: State, t: Thread, input: Input)
    requires ShapeOk(t) && ConfigStep(s, t, input).Some?
    ensures Legal(s, t, ConfigStep(s, t, input).value)
  {
    hide Key, ValidTicket;
  }

  lemma ThreadLegal(s: State, t: Thread, input: Input)
    requires ShapeOk(t) && ThreadStep(s, t, input).Some?
    ensures Legal(s, t, ThreadStep(s, t, input).value)
  {
    hide Legal, ShapeOk, AdmissionStep, TicketStep, CacheStep, HarvestStep, PersistStep, PublishStep, UpstreamStep,
      RevokeStep, ConfigStep;
    match PartOf(t.pc)
    case Admission => AdmissionLegal(s, t, input);
    case Ticketing => TicketLegal(s, t, input);
    case Caching => CacheLegal(s, t);
    case Harvesting => HarvestLegal(s, t, input);
    case Persisting => PersistLegal(s, t, input);
    case Publishing => PublishLegal(s, t);
    case Upstream => UpstreamLegal(s, t, input);
    case Revoking => RevokeLegal(s, t);
    case Configuring => ConfigLegal(s, t, input);
    case Over =>
  }

  // ---- legal effects keep the agreement ----

  lemma MutexKept(s: State, i: nat, e: Effect)
    requires i < |s.threads| && MutexOk(s) && Legal(s, s.threads[i], e)
    ensures MutexOk(Apply(s, i, e))
  {
    hide ShapeOk, InsideLock, SlotsAfter, PermitsAfter, LocksAfter, EntriesAfter, BackoffAfter;
  }

  lemma LocksKept(s: State, i: nat, e: Effect)
    requires i < |s.threads| && LocksOk(s) && Legal(s, s.threads[i], e)
    ensures LocksOk(Apply(s, i, e))
  {
    hide ShapeOk, InsideLock, SlotsAfter, PermitsAfter, MutexAfter, EntriesAfter, BackoffAfter;
  }

  lemma SlotsKept(s: State, i: nat, e: Effect)
    requires i < |s.threads| && SlotsOk(s) && Legal(s, s.threads[i], e)
    ensures SlotsOk(Apply(s, i, e))
  {
    hide ShapeOk, InsideLock, PermitsAfter, MutexAfter, LocksAfter, EntriesAfter, BackoffAfter;
    var s' := Apply(s, i, e);
    forall a ensures SlotsTaken(s', a) == Count(s'.threads, HoldsSlot(a)) <= BUSINESS_SLOTS {
      CountUpdate(s.threads, i, s'.threads[i], HoldsSlot(a));
      if HoldsSlot(a)(s.threads[i]) { CountMember(s.threads, i, HoldsSlot(a)); }
    }
  }

  lemma PermitsKept(s: State, i: nat, e: Effect)
    requires i < |s.threads| && PermitsOk(s) && Legal(s, s.threads[i], e)
    ensures PermitsOk(Apply(s, i, e))
  {
    hide ShapeOk, InsideLock, SlotsAfter, MutexAfter, LocksAfter, EntriesAfter, BackoffAfter;
    var u := Moved(s.threads[i], e);
    CountUpdate(s.threads, i, u, HoldsPermit());
    if HoldsPermit()(s.threads[i]) { CountMember(s.threads, i, HoldsPermit()); }
  }

  lemma ShapesKept(s: State, i: nat, e: Effect)
    requires i < |s.threads| && Legal(s, s.threads[i], e)
    requires forall j | 0 <= j < |s.threads| :: ShapeOk(s.threads[j])
    ensures forall j | 0 <= j < |s.threads| :: ShapeOk(Apply(s, i, e).threads[j])
  {
    hide ShapeOk, InsideLock;
  }

  lemma ArrivalKeepsResources(s: State, t: Thread)
    requires ResourcesOk(s) && ShapeOk(t) && !t.slot && t.held.None? && !t.permit && !InsideLock(t.pc)
    ensures ResourcesOk(s.(threads := s.threads + [t]))
  {
    var s' := s.(threads := s.threads + [t]);
    forall a ensures SlotsTaken(s', a) == Count(s'.threads, HoldsSlot(a)) <= BUSINESS_SLOTS {
      CountAppend(s.threads, t, HoldsSlot(a));
    }
    CountAppend(s.threads, t, HoldsPermit());
  }

  lemma RestartResources(s: State, torn: bool)
    ensures ResourcesOk(Restarted(s, torn))
  {
  }

  /** Every step of the machine keeps channels, locks and deferred releases in agreement. */
  lemma ResourcesPreserved(s: State, a: Action)
    requires ResourcesOk(s) && Next(s, a).Some?
    ensures ResourcesOk(Next(s, a).value)
  {
    hide ShapeOk, ThreadStep, Legal;
    var s' := Next(s, a).value;
    match a
    case Tick(_) =>
      assert forall b :: SlotsTaken(s', b) == SlotsTaken(s, b);
    case Arrive(req) =>
      NewcomerShape(Thread(req, Scope, false, None, false, s.clock));
      ArrivalKeepsResources(s, Thread(req, Scope, false, None, false, s.clock));
    case Configure(config) =>
      NewcomerShape(Thread(NOBODY, CfgWait(config), false, None, false, s.clock));
      ArrivalKeepsResources(s, Thread(NOBODY, CfgWait(config), false, None, false, s.clock));
    case Crash(torn) => RestartResources(s, torn);
    case Run(i, input) =>
      var e := ThreadStep(s, s.threads[i], input).value;
      ThreadLegal(s, s.threads[i], input);
      MutexKept(s, i, e);
      LocksKept(s, i, e);
      SlotsKept(s, i, e);
      PermitsKept(s, i, e);
      ShapesKept(s, i, e);
  }

  lemma NewcomerShape(t: Thread)
    requires t.pc.Scope? || t.pc.CfgWait?
    requires !t.slot && t.held.None? && !t.permit
    ensures ShapeOk(t) && !InsideLock(t.pc)
  {
  }
}
