/** What a call has to pass before it turns to tickets and before it goes upstream, and what becomes
    of the state header on the way. */
module Gates {
  import opened Wrappers
  import opened Tickets
  import opened RequestHeaders
  import opened Plugin
  import opened Resources
  import opened Isolation
  import opened Safety
  import D = Discipline

  /** Program points of `ticket` behind the check for suspension. */
  predicate Fenced(pc: Pc) {
    pc.EntryWait? || pc.ReadClock? || pc.ReadCandidate? || pc.Decide? || pc.PermitWait? || pc.Harvest?
    || (InPersist(pc) && !pc.job.Revoke?)
  }

  /** Program points of a forwarded call behind the check of its account. */
  predicate Past(pc: Pc) { !pc.Scope? && !pc.Done? && !Configures(pc) }

  /** A call turns to tickets only for a POST to one of the two state paths, to `ticket` only for the
      harvested model; and the header is cleared or replaced exactly on those paths. */
  predicate RouteOk(t: Thread) {
    var pc := Core(t.pc);
    && (D.CanSend(pc) && !pc.Send? ==> t.req.statePath && t.req.model != "")
    && (pc.TicketLookup? || Fenced(pc) ==> t.req.model == HARVESTED_MODEL)
    && (pc.CacheLookup? || pc.CacheWait? || pc.CacheRead? ==> t.req.model != HARVESTED_MODEL)
    && (pc.Send? || pc.Await? || pc.Backoff? ==> (pc.out.Untouched? <==> !t.req.statePath))
  }

  /** A step passes a gate only where the gate is. */
  predicate GateOk(s: State, t: Thread, e: Effect) {
    && (Fenced(Core(e.pc)) ==> Fenced(Core(t.pc)) || (t.pc.TicketLookup? && t.req.account !in s.config.suspended))
    && (Past(Core(e.pc)) ==> Past(Core(t.pc)) || (t.pc.Scope? && t.req.account in s.config.accounts))
  }

  lemma SectionGates(s: State, t: Thread)
    requires ShapeOk(t) && RouteOk(t) && t.pc.Section?
    ensures var next := if t.pc.count > 1 then Section(t.pc.count - 1, t.pc.next) else t.pc.next;
      RouteOk(Moved(t, Effect(next, Stay))) && GateOk(s, t, Effect(next, Stay))
  {
    hide Key, ValidTicket;
  }

  lemma DispatchGates(s: State, t: Thread, input: Input)
    requires t.pc.BackoffCheck? && AdmissionStep(s, t, input).Some?
    ensures RouteOk(Moved(t, AdmissionStep(s, t, input).value)) && GateOk(s, t, AdmissionStep(s, t, input).value)
  {
    hide Key, ValidTicket;
  }

  lemma OpeningGates(s: State, t: Thread, input: Input)
    requires AdmissionStep(s, t, input).Some? && !t.pc.Section? && !t.pc.BackoffCheck?
    ensures RouteOk(Moved(t, AdmissionStep(s, t, input).value)) && GateOk(s, t, AdmissionStep(s, t, input).value)
  {
    hide Key, ValidTicket;
  }

  lemma AdmissionGates(s: State, t: Thread, input: Input)
    requires ShapeOk(t) && RouteOk(t) && AdmissionStep(s, t, input).Some?
    ensures RouteOk(Moved(t, AdmissionStep(s, t, input).value)) && GateOk(s, t, AdmissionStep(s, t, input).value)
  {
    hide ShapeOk, RouteOk, GateOk, Moved;
    match t.pc
    case Section(_, _) => SectionGates(s, t);
    case BackoffCheck(_) => DispatchGates(s, t, input);
    case _ => OpeningGates(s, t, input);
  }

  lemma TicketGates(s: State, t: Thread, input: Input)
    requires ShapeOk(t) && RouteOk(t) && TicketStep(s, t, input).Some?
    ensures RouteOk(Moved(t, TicketStep(s, t, input).value)) && GateOk(s, t, TicketStep(s, t, input).value)
  {
    hide Key, ValidTicket, Importable, GrantNow, IsFresh;
  }

  lemma CacheGates(s: State, t: Thread)
    requires ShapeOk(t) && RouteOk(t) && CacheStep(s, t).Some?
    ensures RouteOk(Moved(t, CacheStep(s, t).value)) && GateOk(s, t, CacheStep(s, t).value)
  {
    hide Key, ValidTicket, Importable, GrantNow, IsFresh;
  }

  lemma HarvestGates(s: State, t: Thread, input: Input)
    requires t.pc.Harvest? && ShapeOk(t) && RouteOk(t) && HarvestStep(s, t, input).Some?
    ensures RouteOk(Moved(t, HarvestStep(s, t, input).value)) && GateOk(s, t, HarvestStep(s, t, input).value)
  {
    hide Key, ValidTicket, Importable, GrantNow, IsFresh;
  }

  lemma PersistGates(s: State, t: Thread, input: Input)
    requires ShapeOk(t) && RouteOk(t) && PersistStep(s, t, input).Some?
    ensures RouteOk(Moved(t, PersistStep(s, t, input).value)) && GateOk(s, t, PersistStep(s, t, input).value)
  {
    hide Key, ValidTicket, Importable, GrantNow, IsFresh;
  }

  lemma PublishGates(s: State, t: Thread)
    requires t.pc.Publish? && ShapeOk(t) && RouteOk(t) && PublishStep(s, t).Some?
    ensures RouteOk(Moved(t, PublishStep(s, t).value)) && GateOk(s, t, PublishStep(s, t).value)
  {
    hide Key, ValidTicket, Importable, GrantNow, IsFresh;
  }

  lemma UpstreamGates(s: State, t: Thread, input: Input)
    requires ShapeOk(t) && RouteOk(t) && UpstreamStep(s, t, input).Some?
    ensures RouteOk(Moved(t, UpstreamStep(s, t, input).value)) && GateOk(s, t, UpstreamStep(s, t, input).value)
  {
    hide Key, ValidTicket, Importable, GrantNow, IsFresh;
  }

  lemma RevokeGates(s: State, t: Thread)
    requires ShapeOk(t) && RouteOk(t) && RevokeStep(s, t).Some?
    ensures RouteOk(Moved(t, RevokeStep(s, t).value)) && GateOk(s, t, RevokeStep(s, t).value)
  {
    hide Key, ValidTicket, Importable, GrantNow, IsFresh;
  }

  lemma ConfigGates(s: State, t: Thread, input: Input)
    requires ShapeOk(t) && RouteOk(t) && ConfigStep(s, t, input).Some?
    ensures RouteOk(Moved(t, ConfigStep(s, t, input).value)) && GateOk(s, t, ConfigStep(s, t, input).value)
  {
    hide Key, ValidTicket, Importable, GrantNow, IsFresh;
  }

  lemma StepGates(s: State, t: Thread, input: Input, e: Effect)
    requires ShapeOk(t) && RouteOk(t) && ThreadStep(s, t, input) == Some(e)
    ensures RouteOk(Moved(t, e)) && GateOk(s, t, e)
  {
    hide AdmissionStep, TicketStep, CacheStep, HarvestStep, PersistStep, PublishStep, UpstreamStep, RevokeStep,
      ConfigStep, ShapeOk, RouteOk, GateOk, Moved;
    match PartOf(t.pc)
    case Admission => AdmissionGates(s, t, input);
    case Ticketing => TicketGates(s, t, input);
    case Caching => CacheGates(s, t);
    case Harvesting => HarvestGates(s, t, input);
    case Persisting => PersistGates(s, t, input);
    case Publishing => PublishGates(s, t);
    case Upstream => UpstreamGates(s, t, input);
    case Revoking => RevokeGates(s, t);
    case Configuring => ConfigGates(s, t, input);
    case Over =>
  }

  lemma Newcomers(req: Request, config: Config, clock: int)
    ensures RouteOk(Thread(req, Scope, false, None, false, clock))
    ensures RouteOk(Thread(req, CfgWait(config), false, None, false, clock))
    ensures !Fenced(Core(Scope)) && !Past(Core(Scope))
    ensures !Fenced(Core(CfgWait(config))) && !Past(Core(CfgWait(config)))
  {
  }

  lemma ActionKeepsRoutes(s: State, a: Action, s': State)
    requires Next(s, a) == Some(s')
    requires forall i | 0 <= i < |s.threads| :: ShapeOk(s.threads[i]) && RouteOk(s.threads[i])
    ensures forall i | 0 <= i < |s'.threads| :: RouteOk(s'.threads[i])
  {
    hide ThreadStep, RouteOk, ShapeOk, Moved;
    match a
    case Tick(_) =>
    case Arrive(req) => Newcomers(req, Config([], []), s.clock);
    case Configure(config) => Newcomers(NOBODY, config, s.clock);
    case Crash(_) =>
    case Run(i, input) => StepGates(s, s.threads[i], input, ThreadStep(s, s.threads[i], input).value);
  }

  lemma {:induction false} RoutesAlong(states: seq<State>, actions: seq<Action>, n: nat)
    requires IsRun(states, actions) && n < |states|
    ensures forall i | 0 <= i < |states[n].threads| :: RouteOk(states[n].threads[i])
  {
    hide Initial, Safe, Next, RouteOk;
    if n == 0 {
      NoThreadsInitially(states[0]);
    } else {
      RoutesAlong(states, actions, n - 1);
      SafeAlong(states, actions, n - 1);
      ShapesOf(states[n - 1]);
      assert Next(states[n - 1], actions[n - 1]) == Some(states[n]);
      ActionKeepsRoutes(states[n - 1], actions[n - 1], states[n]);
    }
  }

  /** On the two state paths the client's state header is replaced by a ticket of the request's own or
      dropped, exactly if the client wrote it in no other spelling; on any other path the headers are
      left alone. */
  lemma NoForeignState(states: seq<State>, actions: seq<Action>, n: nat, i: nat)
    requires IsRun(states, actions) && n < |states| && i < |states[n].threads|
    requires states[n].threads[i].pc.Await?
    ensures var t := states[n].threads[i];
      var sent := Sent(t.req, t.pc.out);
      match t.pc.out
      case Untouched => !t.req.statePath && sent == t.req.headers
      case Cleared => t.req.statePath && (SendsNone(sent, STATE) <==> OneSpelling(t.req.headers, STATE))
      case Injected(g) =>
        && t.req.statePath && Owns(t.req, g.ticket) && ValidTicket(g.ticket, g.at)
        && (Sends(sent, STATE, g.ticket.value) <==> OneSpelling(t.req.headers, STATE))
  {
    hide IsRun, Key, ValidTicket, Safe, Sends, SendsNone, OneSpelling, Set, Del;
    RoutesAlong(states, actions, n);
    var t := states[n].threads[i];
    DelExactly(t.req.headers, STATE);
    if t.pc.out.Injected? {
      InjectedIsOwn(states, actions, n, i);
      SetExactly(t.req.headers, STATE, t.pc.out.grant.ticket.value);
    }
  }

  /** Every request comes with the digest of its own credentials. */
  ghost predicate Hashed(actions: seq<Action>, digest: string -> string) {
    forall m | 0 <= m < |actions| && actions[m].Arrive? ::
      actions[m].req.hash == digest(Identity(actions[m].req.headers))
  }

  lemma {:induction false} HashesAlong(
    states: seq<State>, actions: seq<Action>, digest: string -> string, n: nat, i: nat
  )
    requires IsRun(states, actions) && Hashed(actions, digest) && n < |states| && i < |states[n].threads|
    ensures var r := states[n].threads[i].req; r == NOBODY || r.hash == digest(Identity(r.headers))
  {
    hide Initial, ThreadStep, Identity;
    if n == 0 {
      NoThreadsInitially(states[0]);
    } else {
      var s, a := states[n - 1], actions[n - 1];
      assert Next(s, a) == Some(states[n]);
      if !a.Crash? && i < |s.threads| { HashesAlong(states, actions, digest, n - 1, i); }
    }
  }

  /** A ticket goes upstream only with the credentials it was issued for: those that are read from the
      headers have the ticket's digest. */
  lemma TicketIsForCredentials(
    states: seq<State>, actions: seq<Action>, digest: string -> string, n: nat, i: nat
  )
    requires IsRun(states, actions) && Hashed(actions, digest) && n < |states| && i < |states[n].threads|
    requires states[n].threads[i].pc.Await? && states[n].threads[i].pc.out.Injected?
    ensures var t := states[n].threads[i];
      t.pc.out.grant.ticket.hash == digest(Identity(Sent(t.req, t.pc.out)))
  {
    hide IsRun, Key, ValidTicket, Safe, Hashed, Identity, Set;
    var t := states[n].threads[i];
    RoutesAlong(states, actions, n);
    HashesAlong(states, actions, digest, n, i);
    InjectedIsOwn(states, actions, n, i);
    StateIsNoCredential(t.req.headers, t.pc.out.grant.ticket.value);
  }

  /** Only requests for the harvested model on a state path ever wait for a harvest or make one. */
  lemma OnlyHarvestedModel(states: seq<State>, actions: seq<Action>, n: nat, i: nat)
    requires IsRun(states, actions) && n < |states| && i < |states[n].threads|
    requires Fenced(Core(states[n].threads[i].pc))
    ensures states[n].threads[i].req.model == HARVESTED_MODEL
    ensures states[n].threads[i].req.statePath
  {
    hide IsRun;
    RoutesAlong(states, actions, n);
    FencedCanSend(Core(states[n].threads[i].pc));
  }

  lemma FencedCanSend(pc: Pc)
    requires Fenced(pc)
    ensures D.CanSend(pc) && !pc.Send?
  {
  }

  /** The step of call `i` that passed the check of its account. */
  ghost predicate PassedScope(states: seq<State>, actions: seq<Action>, m: nat, i: nat, account: int)
    requires IsRun(states, actions)
  {
    && m < |actions| && actions[m].Run? && actions[m].thread == i && i < |states[m].threads|
    && states[m].threads[i].pc.Scope? && account in states[m].config.accounts
  }

  ghost predicate PassedSuspension(states: seq<State>, actions: seq<Action>, m: nat, i: nat, account: int)
    requires IsRun(states, actions)
  {
    && m < |actions| && actions[m].Run? && actions[m].thread == i && i < |states[m].threads|
    && states[m].threads[i].pc.TicketLookup? && account !in states[m].config.suspended
  }

  lemma GatesBack(states: seq<State>, actions: seq<Action>, n: nat, i: nat)
    requires IsRun(states, actions) && n < |actions| && i < |states[n + 1].threads|
    requires var pc := Core(states[n + 1].threads[i].pc); Past(pc) || Fenced(pc)
    ensures i < |states[n].threads| && states[n].threads[i].req == states[n + 1].threads[i].req
    ensures Past(Core(states[n + 1].threads[i].pc)) ==>
      Past(Core(states[n].threads[i].pc)) || PassedScope(states, actions, n, i, states[n].threads[i].req.account)
    ensures Fenced(Core(states[n + 1].threads[i].pc)) ==>
      Fenced(Core(states[n].threads[i].pc)) || PassedSuspension(states, actions, n, i, states[n].threads[i].req.account)
  {
    hide Key, Initial, Safe, ThreadStep, ShapeOk, RouteOk, Past, Fenced, Core;
    var s, a := states[n], actions[n];
    assert Next(s, a) == Some(states[n + 1]);
    SafeAlong(states, actions, n);
    ShapesOf(s);
    RoutesAlong(states, actions, n);
    Newcomers(NOBODY, if a.Configure? then a.config else Config([], []), 0);
    if a.Run? && a.thread == i {
      StepGates(s, s.threads[i], a.input, ThreadStep(s, s.threads[i], a.input).value);
    }
  }

  /** In every run, a call that gets past the first check, to a slot, a ticket or the upstream
      request, had its account in the configured scope when that was checked. */
  lemma {:induction false} ScopeWasChecked(states: seq<State>, actions: seq<Action>, n: nat, i: nat) returns (m: nat)
    requires IsRun(states, actions) && n < |states| && i < |states[n].threads|
    requires Past(Core(states[n].threads[i].pc))
    ensures m < n && PassedScope(states, actions, m, i, states[n].threads[i].req.account)
  {
    hide Initial, Next, Past, Core, Fenced;
    NoThreadsInitially(states[0]);
    GatesBack(states, actions, n - 1, i);
    if Past(Core(states[n - 1].threads[i].pc)) {
      m := ScopeWasChecked(states, actions, n - 1, i);
    } else {
      m := n - 1;
    }
  }

  /** In every run, a call that imports, waits for a harvest or makes one had an account that was not
      suspended when that was checked. */
  lemma {:induction false} SuspensionWasChecked(states: seq<State>, actions: seq<Action>, n: nat, i: nat)
    returns (m: nat)
    requires IsRun(states, actions) && n < |states| && i < |states[n].threads|
    requires Fenced(Core(states[n].threads[i].pc))
    ensures m < n && PassedSuspension(states, actions, m, i, states[n].threads[i].req.account)
  {
    hide Initial, Next, Past, Core, Fenced;
    NoThreadsInitially(states[0]);
    GatesBack(states, actions, n - 1, i);
    if Fenced(Core(states[n - 1].threads[i].pc)) {
      m := SuspensionWasChecked(states, actions, n - 1, i);
    } else {
      m := n - 1;
    }
  }
}
