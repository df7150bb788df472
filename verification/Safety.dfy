/** What every run keeps whatever the disk holds: the resources and the data of calls and entries.
    From it: isolation, and the harmlessness of stale answers. */
module Safety {
  import opened Wrappers
  import opened Tickets
  import opened Plugin
  import opened Resources
  import opened Isolation

  ghost predicate Safe(s: State) { ResourcesOk(s) && IsolationOk(s) }

  lemma SafeInitially(s: State)
    requires Initial(s)
    ensures Safe(s)
  {
    hide Key, Admissible;
    RestartResources(s, false);
  }

  lemma SafePreserved(s: State, a: Action)
    requires Safe(s) && Next(s, a).Some?
    ensures Safe(Next(s, a).value)
  {
    hide ResourcesOk, IsolationOk, Next;
    ResourcesPreserved(s, a);
    IsolationPreserved(s, a);
  }

  /** Resources and data are in order in every state of every run. */
  lemma {:induction false} SafeAlong(states: seq<State>, actions: seq<Action>, n: nat)
    requires IsRun(states, actions) && n < |states|
    ensures Safe(states[n])
  {
    hide Initial, Safe, Next;
    if n == 0 {
      SafeInitially(states[0]);
    } else {
      SafeAlong(states, actions, n - 1);
      assert Next(states[n - 1], actions[n - 1]) == Some(states[n]);
      SafePreserved(states[n - 1], actions[n - 1]);
    }
  }

  lemma StepSafe(s: State, i: nat, input: Input, e: Effect)
    requires Safe(s) && i < |s.threads| && ThreadStep(s, s.threads[i], input) == Some(e)
    ensures Careful(s, s.threads[i], e) && Legal(s, s.threads[i], e)
    ensures DataOk(s.clock, s.entries, s.threads[i]) && ShapeOk(s.threads[i])
    ensures Ready(s, s.threads[i])
    ensures LocksOk(s) && MutexOk(s)
  {
    hide ThreadStep, Careful, Legal, DataOk, ShapeOk, Ready, EntryOk;
    StepIsCareful(s, i, input);
    FreshReady(s, s.threads[i]);
  }

  lemma SplitSafe(s: State)
    requires Safe(s)
    ensures ResourcesOk(s) && IsolationOk(s) && LocksOk(s)
  {
    hide IsolationOk, LocksOk, MutexOk, SlotsOk, PermitsOk, ShapeOk;
  }

  lemma EmptyNotAdmissible()
    ensures !Admissible(EMPTY)
  {
  }

  lemma ClockGrows(s: State, a: Action)
    requires Next(s, a).Some?
    ensures Next(s, a).value.clock >= s.clock
  {
    hide ThreadStep;
  }

  // ---- isolation ----

  /** A ticket on its way upstream belongs to the account, model and credentials of the request
      that carries it, and was valid at an instant of that call. */
  lemma InjectedIsOwn(states: seq<State>, actions: seq<Action>, n: nat, i: nat)
    requires IsRun(states, actions) && n < |states| && i < |states[n].threads|
    requires states[n].threads[i].pc.Await? && states[n].threads[i].pc.out.Injected?
    ensures var t := states[n].threads[i];
            var g := t.pc.out.grant;
            && g.ticket.account == t.req.account
            && g.ticket.model == t.req.model
            && g.ticket.hash == t.req.hash
            && ValidTicket(g.ticket, g.at)
            && t.since <= g.at <= states[n].clock
  {
    hide IsRun, Key, Admissible, ResourcesOk, EntryOk;
    SafeAlong(states, actions, n);
    assert DataOk(states[n].clock, states[n].entries, states[n].threads[i]);
  }

  /** Every cached ticket is well formed, is filed under its own key, and was issued at most 30 s
      in the future. */
  lemma CachedIsFiled(states: seq<State>, actions: seq<Action>, n: nat, k: string)
    requires IsRun(states, actions) && n < |states| && k in states[n].entries
    requires states[n].entries[k].ticket != EMPTY
    ensures var t := states[n].entries[k].ticket;
            Admissible(t) && KeyOf(t) == k && t.issued <= Unix(states[n].clock) + 30
  {
    hide IsRun, Key, Admissible, ResourcesOk, DataOk;
    SafeAlong(states, actions, n);
  }

  // ---- stale answers ----

  /** The ticket a call is about to revoke, or is revoking. */
  function RevokedBy(pc: Pc): Option<Ticket> {
    match Core(pc)
    case RevokeLookup(ticket, status) => if status == 429 then None else Some(ticket)
    case RevokeWait(ticket, status) => if status == 429 then None else Some(ticket)
    case RevokeCheck(ticket, status) => if status == 429 then None else Some(ticket)
    case _ => if InPersist(Core(pc)) && Core(pc).job.Revoke? then Some(Core(pc).job.ticket) else None
  }

  /** A 401 or 403 answers the request that thread `t` sent with this ticket. */
  predicate Denied(t: Thread, input: Input, ticket: Ticket) {
    && t.pc.Await? && t.pc.out.Injected? && t.pc.out.grant.ticket == ticket
    && input.Response? && (input.status == 401 || input.status == 403)
  }

  lemma AdmissionStartsNoRevocation(s: State, t: Thread, input: Input)
    requires ShapeOk(t) && AdmissionStep(s, t, input).Some?
    ensures var p := RevokedBy(AdmissionStep(s, t, input).value.pc); p.None? || p == RevokedBy(t.pc)
  {
    hide Key, ValidTicket, Importable, GrantNow;
  }

  lemma TicketStartsNoRevocation(s: State, t: Thread, input: Input)
    requires ShapeOk(t) && TicketStep(s, t, input).Some?
    ensures var p := RevokedBy(TicketStep(s, t, input).value.pc); p.None? || p == RevokedBy(t.pc)
  {
    hide Key, ValidTicket, Importable, GrantNow;
  }

  lemma CacheStartsNoRevocation(s: State, t: Thread)
    requires ShapeOk(t) && CacheStep(s, t).Some?
    ensures var p := RevokedBy(CacheStep(s, t).value.pc); p.None? || p == RevokedBy(t.pc)
  {
    hide Key, ValidTicket, Importable, GrantNow;
  }

  lemma HarvestStartsNoRevocation(s: State, t: Thread, input: Input)
    requires ShapeOk(t) && t.pc.Harvest? && HarvestStep(s, t, input).Some?
    ensures var p := RevokedBy(HarvestStep(s, t, input).value.pc); p.None? || p == RevokedBy(t.pc)
  {
    hide Key, ValidTicket, Importable, GrantNow;
  }

  lemma PersistStartsNoRevocation(s: State, t: Thread, input: Input)
    requires ShapeOk(t) && PersistStep(s, t, input).Some?
    ensures var p := RevokedBy(PersistStep(s, t, input).value.pc); p.None? || p == RevokedBy(t.pc)
  {
    hide Key, ValidTicket, Importable, GrantNow;
  }

  lemma PublishStartsNoRevocation(s: State, t: Thread)
    requires ShapeOk(t) && t.pc.Publish? && PublishStep(s, t).Some?
    ensures var p := RevokedBy(PublishStep(s, t).value.pc); p.None? || p == RevokedBy(t.pc)
  {
    hide Key, ValidTicket, Importable, GrantNow;
  }

  lemma RevokeStartsNoRevocation(s: State, t: Thread)
    requires ShapeOk(t) && RevokeStep(s, t).Some?
    ensures var p := RevokedBy(RevokeStep(s, t).value.pc); p.None? || p == RevokedBy(t.pc)
  {
    hide Key, ValidTicket, Importable, GrantNow;
  }

  lemma ConfigStartsNoRevocation(s: State, t: Thread, input: Input)
    requires ShapeOk(t) && ConfigStep(s, t, input).Some?
    ensures var p := RevokedBy(ConfigStep(s, t, input).value.pc); p.None? || p == RevokedBy(t.pc)
  {
    hide Key, ValidTicket, Importable, GrantNow;
  }

  lemma UpstreamStartsRevocation(s: State, t: Thread, input: Input)
    requires UpstreamStep(s, t, input).Some?
    ensures var p := RevokedBy(UpstreamStep(s, t, input).value.pc); p.None? || Denied(t, input, p.value)
  {
    hide Key, ValidTicket;
  }

  lemma RevocationStarts(s: State, t: Thread, input: Input, e: Effect)
    requires ShapeOk(t) && ThreadStep(s, t, input) == Some(e)
    ensures RevokedBy(e.pc).None? || RevokedBy(e.pc) == RevokedBy(t.pc) || Denied(t, input, RevokedBy(e.pc).value)
  {
    hide RevokedBy, Denied, ShapeOk;
    hide AdmissionStep, TicketStep, CacheStep, HarvestStep, PersistStep, PublishStep, UpstreamStep, RevokeStep,
      ConfigStep;
    match PartOf(t.pc)
    case Admission => AdmissionStartsNoRevocation(s, t, input);
    case Ticketing => TicketStartsNoRevocation(s, t, input);
    case Caching => CacheStartsNoRevocation(s, t);
    case Harvesting => HarvestStartsNoRevocation(s, t, input);
    case Persisting => PersistStartsNoRevocation(s, t, input);
    case Publishing => PublishStartsNoRevocation(s, t);
    case Upstream => UpstreamStartsRevocation(s, t, input);
    case Revoking => RevokeStartsNoRevocation(s, t);
    case Configuring => ConfigStartsNoRevocation(s, t, input);
    case Over =>
  }

  lemma RevocationBack(s: State, a: Action, s': State, i: nat)
    requires Next(s, a) == Some(s') && i < |s'.threads|
    requires forall j | 0 <= j < |s.threads| :: ShapeOk(s.threads[j])
    requires RevokedBy(s'.threads[i].pc).Some?
    ensures i < |s.threads|
    ensures || RevokedBy(s.threads[i].pc) == RevokedBy(s'.threads[i].pc)
            || (a.Run? && a.thread == i && Denied(s.threads[i], a.input, RevokedBy(s'.threads[i].pc).value))
  {
    hide Key, ThreadStep, Denied, RevokedBy, ShapeOk;
    NewcomersRevokeNothing();
    if a.Run? && a.thread == i {
      RevocationStarts(s, s.threads[i], a.input, ThreadStep(s, s.threads[i], a.input).value);
    }
  }

  /** Behind every revocation in progress stands a 401 or 403 for a request that carried the
      revoked ticket; a 429 never leads to one. */
  lemma {:induction false} RevocationHasCause(states: seq<State>, actions: seq<Action>, n: nat, i: nat)
    returns (m: nat)
    requires IsRun(states, actions) && n < |states| && i < |states[n].threads|
    requires RevokedBy(states[n].threads[i].pc).Some?
    ensures m < n && actions[m].Run? && actions[m].thread == i && i < |states[m].threads|
    ensures Denied(states[m].threads[i], actions[m].input, RevokedBy(states[n].threads[i].pc).value)
  {
    hide Key, Next, Denied, Safe, RevokedBy, Initial;
    NoThreadsInitially(states[0]);
    var s, a := states[n - 1], actions[n - 1];
    assert Next(s, a) == Some(states[n]);
    SafeAlong(states, actions, n - 1);
    ShapesOf(s);
    RevocationBack(s, a, states[n], i);
    if RevokedBy(s.threads[i].pc) == RevokedBy(states[n].threads[i].pc) {
      m := RevocationHasCause(states, actions, n - 1, i);
    } else {
      m := n - 1;
    }
  }

  lemma NoThreadsInitially(s: State)
    requires Initial(s)
    ensures s.threads == []
  {
  }

  lemma NewcomersRevokeNothing()
    ensures RevokedBy(Scope).None?
    ensures forall c :: RevokedBy(CfgWait(c)).None?
  {
  }

  lemma ShapesOf(s: State)
    requires Safe(s)
    ensures forall i | 0 <= i < |s.threads| :: ShapeOk(s.threads[i])
  {
    hide IsolationOk, MutexOk, SlotsOk, PermitsOk, LocksOk, ShapeOk;
  }

  /** The cache changes only by its own calls: a step that replaces or removes a cached ticket is
      the publication of an imported or harvested ticket of the same key, or the revocation of
      exactly that ticket. */
  lemma CacheLosesOnlyOwn(s: State, i: nat, input: Input, e: Effect, k: string)
    requires Safe(s) && i < |s.threads| && ThreadStep(s, s.threads[i], input) == Some(e)
    requires k in s.entries && EntryOf(Apply(s, i, e), k).ticket != s.entries[k].ticket
    ensures var t := s.threads[i];
            && t.pc.Publish?
            && RequestKey(t.req) == k
            && (if t.pc.job.Revoke? then s.entries[k].ticket == t.pc.job.ticket
                else t.pc.ok && EntryOf(Apply(s, i, e), k).ticket == t.pc.job.ticket)
  {
    hide Key, ThreadStep, Legal, ShapeOk, Ready, Safe, LocksOk, MutexOk,
      CargoOk, EntryOk;
    StepSafe(s, i, input, e);
  }

  // ---- over whole runs ----

  /** Behind every revocation that a call is in the middle of stands a denial of that ticket. */
  ghost predicate WasDenied(states: seq<State>, actions: seq<Action>, m: nat, n: nat, i: nat, ticket: Ticket)
    requires IsRun(states, actions)
  {
    && m < n && m < |actions| && actions[m].Run? && actions[m].thread == i && i < |states[m].threads|
    && Denied(states[m].threads[i], actions[m].input, ticket)
  }

  /** In every run, a cached ticket is replaced or removed, other than by a crash, only by its own
      key's publication: of another ticket, or of a revocation, and then a request that carried this
      very ticket had been answered 401 or 403. */
  lemma LostEntryHasCause(states: seq<State>, actions: seq<Action>, n: nat, k: string) returns (m: nat)
    requires IsRun(states, actions) && n < |actions| && !actions[n].Crash?
    requires k in states[n].entries && EntryOf(states[n + 1], k).ticket != states[n].entries[k].ticket
    ensures actions[n].Run? && actions[n].thread < |states[n].threads|
    ensures var t := states[n].threads[actions[n].thread];
      && t.pc.Publish? && RequestKey(t.req) == k
      && (if t.pc.job.Revoke? then WasDenied(states, actions, m, n, actions[n].thread, states[n].entries[k].ticket)
          else t.pc.ok && EntryOf(states[n + 1], k).ticket == t.pc.job.ticket)
  {
    hide Key, ValidTicket, Admissible, Safe, Initial, Denied, ThreadStep, Apply;
    SafeAlong(states, actions, n);
    var s, a := states[n], actions[n];
    assert Next(s, a) == Some(states[n + 1]);
    var e := ThreadStep(s, s.threads[a.thread], a.input).value;
    CacheLosesOnlyOwn(s, a.thread, a.input, e, k);
    m := 0;
    if s.threads[a.thread].pc.job.Revoke? {
      m := RevocationHasCause(states, actions, n, a.thread);
    }
  }
}
