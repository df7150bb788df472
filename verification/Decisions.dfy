/** What a call finds, and what comes of it: in which cases it is refused, gets a ticket or none, and
    how its steps change entries, backoffs and the configuration. */
module Decisions {
  import opened Wrappers
  import opened Tickets
  import opened Counting
  import opened Plugin
  import opened Resources
  import opened Isolation
  import opened Safety
  import opened Reasons
  import D = Discipline
  import V = Revocation

  // ---- what comes of a call ----

  /** In every run, a call that has ended was out of scope, or was cancelled while it waited for a slot,
      or had read a backoff that was still ahead, or named no model where one is needed, or its request
      failed, or its response came to an end. */
  lemma EndHasReason(states: seq<State>, actions: seq<Action>, n: nat, i: nat) returns (m: nat, r: nat)
    requires IsRun(states, actions) && n < |states| && i < |states[n].threads|
    requires var pc := Core(states[n].threads[i].pc); pc.Finish? || pc.Done?
    ensures m < n && StepOf(states, actions, m, i) && states[m].threads[i].req == states[n].threads[i].req
    ensures var s, t, input := states[m], states[m].threads[i], actions[m].input;
      || (t.pc.Scope? && t.req.account !in s.config.accounts)
      || (t.pc.SlotWait? && input.Cancel?)
      || (t.pc.BackoffCheck? && r < m && StepOf(states, actions, r, i) && states[r].threads[i].pc.BackoffRead?
          && s.clock < BackoffOf(states[r], t.req.account))
      || (t.pc.BackoffCheck? && t.req.statePath && t.req.model == "")
      || ((t.pc.Send? || t.pc.Await?) && input.Fail?)
      || t.pc.Body?
      || Configures(t.pc)
  {
    hide IsRun, Core;
    m := EveryFactHasReason(states, actions, n, i, Ended);
    r := 0;
    if states[m].threads[i].pc.BackoffCheck? {
      r := Heard(states, actions, m, i);
    }
  }

  lemma Heard(states: seq<State>, actions: seq<Action>, m: nat, i: nat) returns (r: nat)
    requires IsRun(states, actions) && m < |states| && i < |states[m].threads|
    requires states[m].threads[i].pc.BackoffCheck?
    ensures r < m && StepOf(states, actions, r, i) && states[r].threads[i].pc.BackoffRead?
    ensures states[m].threads[i].pc.until == BackoffOf(states[r], states[m].threads[i].req.account)
  {
    hide IsRun;
    r := EveryFactHasReason(states, actions, m, i, Told(states[m].threads[i].pc.until));
  }

  /** In every run, a call that checks its backoff is refused exactly if the backoff that stood for its
      account when it read it is still ahead.  Otherwise it goes on by its path and its model. */
  lemma BackoffDecides(states: seq<State>, actions: seq<Action>, n: nat, i: nat) returns (r: nat)
    requires IsRun(states, actions) && StepOf(states, actions, n, i) && states[n].threads[i].pc.BackoffCheck?
    ensures r < n && StepOf(states, actions, r, i) && states[r].threads[i].pc.BackoffRead?
    ensures i < |states[n + 1].threads|
    ensures var t, pc := states[n].threads[i], states[n + 1].threads[i].pc;
      var until := BackoffOf(states[r], t.req.account);
      && (pc == Finish <==> states[n].clock < until)
      && (pc == Send(Untouched) <==> until <= states[n].clock && !t.req.statePath)
      && (pc == Section(1, Finish) <==> until <= states[n].clock && t.req.statePath && t.req.model == "")
      && (pc == TicketLookup <==> until <= states[n].clock && t.req.statePath && t.req.model == "gpt-6-astra")
      && (pc == CacheLookup <==>
            until <= states[n].clock && t.req.statePath && t.req.model != "" && t.req.model != "gpt-6-astra")
  {
    hide Key, ValidTicket, Initial;
    assert Next(states[n], actions[n]) == Some(states[n + 1]);
    r := Heard(states, actions, n, i);
  }

  /** The step at which the call read its clock. */
  lemma Timed(states: seq<State>, actions: seq<Action>, m: nat, i: nat, now: int) returns (c: nat)
    requires IsRun(states, actions) && m < |states| && i < |states[m].threads|
    requires Shows(Core(states[m].threads[i].pc), Read(now))
    ensures c < m && StepOf(states, actions, c, i) && states[c].threads[i].pc.ReadClock? && states[c].clock == now
  {
    hide IsRun, Core;
    c := EveryFactHasReason(states, actions, m, i, Read(now));
  }

  /** In every run, a call that goes upstream without a ticket on a state path, or is about to: its
      account was suspended; or nothing was cached for its key; or what was cached was not valid; or its
      entry was blocked, or cooling down without a valid ticket, at the clock it had read; or it was
      cancelled while it waited for a harvest; or the harvest had no client, was denied, or brought
      nothing while the old ticket was no longer valid; or its new ticket could not be stored. */
  lemma NoTicketHasReason(states: seq<State>, actions: seq<Action>, n: nat, i: nat) returns (m: nat, c: nat)
    requires IsRun(states, actions) && n < |states| && i < |states[n].threads|
    requires Shows(Core(states[n].threads[i].pc), Without)
    ensures m < n && StepOf(states, actions, m, i) && states[m].threads[i].req == states[n].threads[i].req
    ensures var s, t, input := states[m], states[m].threads[i], actions[m].input;
      var e := EntryOf(s, RequestKey(t.req));
      || (t.pc.TicketLookup? && t.req.account in s.config.suspended)
      || (t.pc.CacheLookup? && RequestKey(t.req) !in s.entries)
      || (t.pc.CacheRead? && !ValidTicket(e.ticket, s.clock))
      || (t.pc.Decide? && c < m && StepOf(states, actions, c, i) && states[c].threads[i].pc.ReadClock?
          && (e.blocked || (states[c].clock < e.cooldown && !ValidTicket(e.ticket, states[c].clock))))
      || (t.pc.PermitWait? && input.Cancel?)
      || (t.pc.Harvest? && input.Answer? && input.outcome.NoClient?)
      || (t.pc.Harvest? && input.Answer? && input.outcome.Refused?
          && (input.outcome.terminal || !ValidTicket(e.ticket, s.clock)))
      || (t.pc.Publish? && c < m && FileFails(states, actions, c, i))
  {
    hide IsRun, Core, Key, ValidTicket, FileFails;
    m := EveryFactHasReason(states, actions, n, i, Without);
    var pc := states[m].threads[i].pc;
    c := 0;
    if pc.Decide? {
      ShowsRead(pc);
      c := Timed(states, actions, m, i, pc.now);
    } else if pc.Publish? {
      c := NotStored(states, actions, m, i, pc.job);
    }
  }

  lemma ShowsRead(pc: Pc)
    requires pc.Decide? || pc.ReadCandidate? || pc.PermitWait?
    ensures Shows(Core(pc), Read(pc.now))
  {
  }

  /** The store cannot be read or parsed, or the new one cannot be written or renamed. */
  ghost predicate FileFails(states: seq<State>, actions: seq<Action>, m: nat, i: nat)
    requires IsRun(states, actions)
  {
    && StepOf(states, actions, m, i)
    && var pc, fails := states[m].threads[i].pc, actions[m].input.Fail?;
       (pc.PersistRead? && (fails || states[m].store.Malformed?)) || ((pc.PersistWrite? || pc.PersistRename?) && fails)
  }

  /** In every run, storing fails only because a file operation of that very attempt did. */
  lemma NotStored(states: seq<State>, actions: seq<Action>, n: nat, i: nat, job: Job) returns (m: nat)
    requires IsRun(states, actions) && n < |states| && i < |states[n].threads|
    requires states[n].threads[i].pc == PersistDone(job, false) || states[n].threads[i].pc == Publish(job, false)
    ensures m < n && FileFails(states, actions, m, i) && states[m].threads[i].pc.job == job
  {
    hide IsRun, Key;
    m := EveryFactHasReason(states, actions, n, i, Unstored(job));
  }

  /** In every run, a ticket that is given out was cached, valid at the clock the call had read, in an
      entry that was not blocked, and less than 3000 s old or protected by a cooldown; or it was cached
      and valid when a call of another model looked, or when a harvest was refused but not denied; or it
      is the one the call has just harvested and stored. */
  lemma TicketHasReason(states: seq<State>, actions: seq<Action>, n: nat, i: nat, g: Grant) returns (m: nat, c: nat)
    requires IsRun(states, actions) && n < |states| && i < |states[n].threads|
    requires Shows(Core(states[n].threads[i].pc), With(g))
    ensures m < n && StepOf(states, actions, m, i) && states[m].threads[i].req == states[n].threads[i].req
    ensures var s, t, input := states[m], states[m].threads[i], actions[m].input;
      var e := EntryOf(s, RequestKey(t.req));
      || (t.pc.Decide? && c < m && StepOf(states, actions, c, i) && states[c].threads[i].pc.ReadClock?
          && g == Grant(e.ticket, states[c].clock) && ValidTicket(e.ticket, g.at) && !e.blocked
          && (g.at / 1_000_000_000 < e.ticket.issued + 3000 || g.at < e.cooldown))
      || (t.pc.CacheRead? && g == Grant(e.ticket, s.clock) && ValidTicket(e.ticket, s.clock))
      || (t.pc.Harvest? && input.Answer? && input.outcome.Refused? && !input.outcome.terminal
          && g == Grant(e.ticket, s.clock) && ValidTicket(e.ticket, s.clock))
      || (t.pc == Publish(Harvested(g.ticket, g.at), true) && c < m && StepOf(states, actions, c, i)
          && states[c].threads[i].pc.Harvest? && actions[c].input == Answer(Granted(g.ticket))
          && states[c].clock == g.at)
  {
    hide IsRun, Core, Key, ValidTicket;
    m := EveryFactHasReason(states, actions, n, i, With(g));
    var pc := states[m].threads[i].pc;
    c := 0;
    if pc.Decide? {
      ShowsRead(pc);
      c := Timed(states, actions, m, i, pc.now);
    } else if pc.Publish? {
      ShowsStoring(pc, g);
      c := EveryFactHasReason(states, actions, m, i, Storing(g.ticket, g.at));
    }
  }

  lemma ShowsStoring(pc: Pc, g: Grant)
    requires pc == Publish(Harvested(g.ticket, g.at), true)
    ensures Shows(Core(pc), Storing(g.ticket, g.at))
  {
  }

  /** In every run, a call imports exactly the candidate that it read, at the clock it had read, if it
      was for its key, valid, and newer than what was cached. */
  lemma ImportHasReason(states: seq<State>, actions: seq<Action>, n: nat, i: nat) returns (m: nat, c: nat)
    requires IsRun(states, actions) && n < |states| && i < |states[n].threads|
    requires InPersist(states[n].threads[i].pc) && states[n].threads[i].pc.job.Import?
    ensures m < n && StepOf(states, actions, m, i) && c < m && StepOf(states, actions, c, i)
    ensures var s, t, job := states[m], states[m].threads[i], states[n].threads[i].pc.job;
      && states[c].threads[i].pc.ReadClock? && states[c].clock == job.now
      && t.pc == ReadCandidate(job.now) && actions[m].input == Candidate(Some(job.ticket))
      && Acceptable(Some(job.ticket), RequestKey(t.req), job.now, EntryOf(s, RequestKey(t.req)).ticket)
  {
    hide IsRun, Key, ValidTicket, Acceptable;
    var job := states[n].threads[i].pc.job;
    m := EveryFactHasReason(states, actions, n, i, Importing(job.ticket, job.now));
    ShowsRead(states[m].threads[i].pc);
    c := Timed(states, actions, m, i, job.now);
  }

  // ---- the decisions themselves ----

  /** What is decided about an entry at an instant: its ticket is given out exactly if the entry is not
      blocked and the ticket is valid and either less than 3000 s old or protected by a cooldown; a
      harvest is waited for exactly without a block, a cooldown and a valid ticket of that age. */
  lemma DecideExactly(e: Entry, now: int)
    ensures DecideNext(e, now) == Leave(Some(Grant(e.ticket, now)))
       <==> !e.blocked && ValidTicket(e.ticket, now)
            && (now / 1_000_000_000 < e.ticket.issued + 3000 || now < e.cooldown)
    ensures DecideNext(e, now) == PermitWait(now)
       <==> !e.blocked && e.cooldown <= now
            && !(ValidTicket(e.ticket, now) && now / 1_000_000_000 < e.ticket.issued + 3000)
    ensures DecideNext(e, now) in {Leave(Some(Grant(e.ticket, now))), PermitWait(now), Leave(None)}
  {
    hide ValidTicket;
  }

  /** A valid cached ticket of another model is given out, and nothing else is. */
  lemma CachedIsGiven(states: seq<State>, actions: seq<Action>, n: nat, i: nat)
    requires IsRun(states, actions) && StepOf(states, actions, n, i) && states[n].threads[i].pc.CacheRead?
    ensures i < |states[n + 1].threads|
    ensures var ticket := EntryOf(states[n], RequestKey(states[n].threads[i].req)).ticket;
      states[n + 1].threads[i].pc
        == Leave(if ValidTicket(ticket, states[n].clock) then Some(Grant(ticket, states[n].clock)) else None)
  {
    hide Key, ValidTicket, Initial;
    assert Next(states[n], actions[n]) == Some(states[n + 1]);
  }

  // ---- what steps do to the shared state ----

  /** Which program points change an entry, a backoff or the configuration, and to what. */
  predicate Changes(s: State, t: Thread, input: Input, e: Effect) {
    var pc, own := t.pc, EntryOf(s, RequestKey(t.req));
    && (e.op.BeginConfig? <==> pc.CfgWait?) && (pc.CfgWait? ==> e.op == BeginConfig(pc.config))
    && (e.op.NoteBackoff? <==> pc.Backoff?) && (pc.Backoff? ==> e.op == NoteBackoff(pc.until))
    && (pc.TicketLookup? ==> e.op == PutEntry(RequestKey(t.req), own))
    && (pc.Harvest? && input.Answer? && input.outcome.NoClient? ==>
          e.op == PutEntry(RequestKey(t.req), own.(cooldown := s.clock + 60_000_000_000)))
    && (pc.Harvest? && input.Answer? && input.outcome.Refused? ==>
          var pause := if input.outcome.terminal || input.outcome.limited then 300_000_000_000 else 60_000_000_000;
          e.op == PutEntry(RequestKey(t.req), own.(cooldown := s.clock + pause, blocked := input.outcome.terminal)))
    && (pc.Harvest? && input.Answer? && input.outcome.Granted? ==> !e.op.PutEntry?)
    && (e.op.GiveMutex? ==> pc.PersistDone? || pc.CfgRead? || pc.CfgLoad?)
    && (pc.PersistDone? ==> e.op == GiveMutex(false, pc.job.Revoke? && !pc.ok))
    && (pc.CfgRead? && input.Fail? ==> e.op == GiveMutex(false, true))
    && (pc.CfgRead? && !input.Fail? ==> e.op == if s.store.Records? then Stay else GiveMutex(true, false))
    && (pc.CfgLoad? ==> (e.op == GiveMutex(true, false) <==> pc.todo == []) && (pc.todo != [] ==> !e.op.GiveMutex?))
    && (e.op.PutEntry? ==> pc.TicketLookup? || pc.Harvest? || pc.Publish? || pc.RevokeCheck? || pc.CfgLoad?)
  }

  lemma AdmissionChanges(s: State, t: Thread, input: Input)
    requires AdmissionStep(s, t, input).Some?
    ensures Changes(s, t, input, AdmissionStep(s, t, input).value)
  {
    hide Key, ValidTicket;
  }

  lemma TicketChanges(s: State, t: Thread, input: Input)
    requires TicketStep(s, t, input).Some?
    ensures Changes(s, t, input, TicketStep(s, t, input).value)
  {
    hide Key, ValidTicket, Importable;
  }

  lemma CacheChanges(s: State, t: Thread, input: Input)
    requires CacheStep(s, t).Some?
    ensures Changes(s, t, input, CacheStep(s, t).value)
  {
    hide Key, ValidTicket;
  }

  lemma HarvestChanges(s: State, t: Thread, input: Input)
    requires t.pc.Harvest? && HarvestStep(s, t, input).Some?
    ensures Changes(s, t, input, HarvestStep(s, t, input).value)
  {
    hide Key, ValidTicket;
  }

  lemma PersistChanges(s: State, t: Thread, input: Input)
    requires PersistStep(s, t, input).Some?
    ensures Changes(s, t, input, PersistStep(s, t, input).value)
  {
    hide Key, Keeps;
  }

  lemma PublishChanges(s: State, t: Thread, input: Input)
    requires t.pc.Publish?
    ensures Changes(s, t, input, PublishStep(s, t).value)
  {
    hide Key;
  }

  lemma UpstreamChanges(s: State, t: Thread, input: Input)
    requires UpstreamStep(s, t, input).Some?
    ensures Changes(s, t, input, UpstreamStep(s, t, input).value)
  {
    hide Key;
  }

  lemma RevokeChanges(s: State, t: Thread, input: Input)
    requires RevokeStep(s, t).Some?
    ensures Changes(s, t, input, RevokeStep(s, t).value)
  {
    hide Key;
  }

  lemma ConfigChanges(s: State, t: Thread, input: Input)
    requires ConfigStep(s, t, input).Some?
    ensures Changes(s, t, input, ConfigStep(s, t, input).value)
  {
    hide Key, ValidTicket;
  }

  lemma StepChanges(s: State, t: Thread, input: Input, e: Effect)
    requires ThreadStep(s, t, input) == Some(e)
    ensures Changes(s, t, input, e)
  {
    hide AdmissionStep, TicketStep, CacheStep, HarvestStep, PersistStep, PublishStep, UpstreamStep, RevokeStep,
      ConfigStep, Changes;
    match PartOf(t.pc)
    case Admission => AdmissionChanges(s, t, input);
    case Ticketing => TicketChanges(s, t, input);
    case Caching => CacheChanges(s, t, input);
    case Harvesting => HarvestChanges(s, t, input);
    case Persisting => PersistChanges(s, t, input);
    case Publishing => PublishChanges(s, t, input);
    case Upstream => UpstreamChanges(s, t, input);
    case Revoking => RevokeChanges(s, t, input);
    case Configuring => ConfigChanges(s, t, input);
    case Over =>
  }

  // ---- entries ----

  /** What becomes of the entry of key `k` when a call stands at this program point and steps. */
  function EntryRule(s: State, t: Thread, input: Input, k: string): Entry {
    var pc, e := t.pc, EntryOf(s, k);
    if RequestKey(t.req) != k && !pc.CfgLoad? then e
    else if pc.Publish? && pc.job.Revoke? then e.(ticket := EMPTY, blocked := true)
    else if pc.Publish? && pc.job.Import? && pc.ok then Entry(pc.job.ticket, ZERO_TIME, false)
    else if pc.Publish? && pc.job.Harvested? && pc.ok then Entry(pc.job.ticket, ZERO_TIME, e.blocked)
    else if pc.RevokeCheck? && e.ticket == pc.ticket then e.(cooldown := s.clock + 300_000_000_000)
    else if pc.Harvest? && input.Answer? && input.outcome.NoClient? then e.(cooldown := s.clock + 60_000_000_000)
    else if pc.Harvest? && input.Answer? && input.outcome.Refused? then
      var pause := if input.outcome.terminal || input.outcome.limited then 300_000_000_000 else 60_000_000_000;
      e.(cooldown := s.clock + pause, blocked := input.outcome.terminal)
    else if pc.CfgLoad? && pc.todo != [] && KeyOf(pc.todo[0]) == k && k !in s.entries
            && ValidTicket(pc.todo[0], s.clock)
    then Entry(pc.todo[0], ZERO_TIME, false)
    else e
  }

  lemma PublishRule(s: State, i: nat, input: Input, e: Effect, k: string)
    requires Safe(s) && i < |s.threads| && ThreadStep(s, s.threads[i], input) == Some(e) && s.threads[i].pc.Publish?
    ensures EntryOf(Apply(s, i, e), k) == EntryRule(s, s.threads[i], input, k)
  {
    hide Key, Safe, ValidTicket, SlotsAfter, PermitsAfter, MutexAfter, LocksAfter, BackoffAfter, Moved;
    if s.threads[i].pc.job.Revoke? { D.RevokesOwn(s, i); }
  }

  lemma SameAsCached(s: State, i: nat)
    requires Safe(s) && i < |s.threads| && s.threads[i].pc.RevokeCheck?
    ensures var ticket, cached := s.threads[i].pc.ticket, EntryOf(s, RequestKey(s.threads[i].req)).ticket;
      cached.value == ticket.value && cached.issued == ticket.issued <==> cached == ticket
  {
    hide Key, Admissible, ResourcesOk;
    var t := s.threads[i];
    assert DataOk(s.clock, s.entries, t);
    ShapesOf(s);
    FreshReady(s, t);
    var cached := EntryOf(s, RequestKey(t.req));
    if cached.ticket.value == t.pc.ticket.value && cached.ticket.issued == t.pc.ticket.issued {
      SameTicket(t.req, cached, s.clock, t.pc.ticket);
    }
  }

  lemma CheckRule(s: State, i: nat, input: Input, e: Effect, k: string)
    requires Safe(s) && i < |s.threads| && ThreadStep(s, s.threads[i], input) == Some(e)
    requires s.threads[i].pc.RevokeCheck?
    ensures EntryOf(Apply(s, i, e), k) == EntryRule(s, s.threads[i], input, k)
  {
    hide Key, Safe, ValidTicket, SlotsAfter, PermitsAfter, MutexAfter, LocksAfter, BackoffAfter, Moved;
    D.CheckerHolds(s, i);
    SameAsCached(s, i);
  }

  lemma LoadRule(s: State, i: nat, input: Input, e: Effect, k: string)
    requires i < |s.threads| && ThreadStep(s, s.threads[i], input) == Some(e) && s.threads[i].pc.CfgLoad?
    ensures EntryOf(Apply(s, i, e), k) == EntryRule(s, s.threads[i], input, k)
  {
    hide Key, ValidTicket, SlotsAfter, PermitsAfter, MutexAfter, LocksAfter, BackoffAfter, Moved;
  }

  lemma OtherRule(s: State, i: nat, input: Input, e: Effect, k: string)
    requires i < |s.threads| && Changes(s, s.threads[i], input, e)
    requires ThreadStep(s, s.threads[i], input) == Some(e)
    requires !s.threads[i].pc.Publish? && !s.threads[i].pc.RevokeCheck? && !s.threads[i].pc.CfgLoad?
    ensures EntryOf(Apply(s, i, e), k) == EntryRule(s, s.threads[i], input, k)
  {
    hide Key, ValidTicket, SlotsAfter, PermitsAfter, MutexAfter, LocksAfter, BackoffAfter, Moved, ThreadStep;
    if s.threads[i].pc.Harvest? { AnswersOnly(s, s.threads[i], input); }
  }

  lemma AnswersOnly(s: State, t: Thread, input: Input)
    requires t.pc.Harvest? && ThreadStep(s, t, input).Some?
    ensures input.Answer?
  {
    hide Key, ValidTicket;
  }

  /** In every run, this is all that happens to entries: a published import or harvest, a published
      revocation, the cooldown of a denied ticket that is still cached, the end of a harvest without a
      ticket, and a loaded record for a key that was not there.  A crash forgets them. */
  lemma EntriesFollow(states: seq<State>, actions: seq<Action>, n: nat, k: string)
    requires IsRun(states, actions) && n < |actions|
    ensures EntryOf(states[n + 1], k) ==
      match actions[n]
      case Crash(_) => FRESH
      case Run(i, input) => if i < |states[n].threads| then EntryRule(states[n], states[n].threads[i], input, k)
                            else EntryOf(states[n], k)
      case _ => EntryOf(states[n], k)
  {
    hide Key, Initial, Safe, ThreadStep, Apply, EntryRule, Changes;
    assert Next(states[n], actions[n]) == Some(states[n + 1]);
    if actions[n].Run? {
      var s, i, input := states[n], actions[n].thread, actions[n].input;
      var e := ThreadStep(s, s.threads[i], input).value;
      SafeAlong(states, actions, n);
      StepChanges(s, s.threads[i], input, e);
      match s.threads[i].pc
      case Publish(_, _) => PublishRule(s, i, input, e, k);
      case RevokeCheck(_, _) => CheckRule(s, i, input, e, k);
      case CfgLoad(_) => LoadRule(s, i, input, e, k);
      case _ => OtherRule(s, i, input, e, k);
    }
  }

  /** In every run, an entry that was not blocked becomes blocked exactly by a published revocation of
      its key or a harvest of it that was denied. */
  lemma BlockHasCause(states: seq<State>, actions: seq<Action>, n: nat, k: string)
    requires IsRun(states, actions) && n < |actions| && !EntryOf(states[n], k).blocked
    ensures EntryOf(states[n + 1], k).blocked <==>
      && actions[n].Run? && actions[n].thread < |states[n].threads|
      && var t, input := states[n].threads[actions[n].thread], actions[n].input;
         && RequestKey(t.req) == k
         && ((t.pc.Publish? && t.pc.job.Revoke?)
             || (t.pc.Harvest? && input.Answer? && input.outcome.Refused? && input.outcome.terminal))
  {
    hide Key, IsRun, Next, ValidTicket;
    EntriesFollow(states, actions, n, k);
  }

  // ---- backoffs and the configuration ----

  /** In every run, a backoff changes only when a 429 is recorded for its account, and then to the later
      of what stood there and what the answer asked for.  A crash forgets it. */
  lemma BackoffsFollow(states: seq<State>, actions: seq<Action>, n: nat, a: int)
    requires IsRun(states, actions) && n < |actions|
    ensures BackoffOf(states[n + 1], a) ==
      match actions[n]
      case Crash(_) => ZERO_TIME
      case Run(i, _) =>
        if i < |states[n].threads| && states[n].threads[i].pc.Backoff? && states[n].threads[i].req.account == a
        then var until := states[n].threads[i].pc.until;
             if BackoffOf(states[n], a) < until then until else BackoffOf(states[n], a)
        else BackoffOf(states[n], a)
      case _ => BackoffOf(states[n], a)
  {
    hide Key, Initial, ThreadStep, SlotsAfter, PermitsAfter, MutexAfter, LocksAfter, EntriesAfter, Moved;
    assert Next(states[n], actions[n]) == Some(states[n + 1]);
    if actions[n].Run? {
      var s, i, input := states[n], actions[n].thread, actions[n].input;
      StepChanges(s, s.threads[i], input, ThreadStep(s, s.threads[i], input).value);
    }
  }

  predicate Configured(s: State, act: Action) {
    act.Run? && act.thread < |s.threads| && s.threads[act.thread].pc.CfgWait?
  }

  lemma ConfigFollows(states: seq<State>, actions: seq<Action>, n: nat)
    requires IsRun(states, actions) && n < |actions|
    ensures states[n + 1].config ==
      if actions[n].Crash? then Config([], [])
      else if Configured(states[n], actions[n]) then states[n].threads[actions[n].thread].pc.config
      else states[n].config
  {
    hide Key, Initial, ThreadStep, SlotsAfter, PermitsAfter, MutexAfter, LocksAfter, EntriesAfter, BackoffAfter, Moved;
    assert Next(states[n], actions[n]) == Some(states[n + 1]);
    if actions[n].Run? {
      var s, i, input := states[n], actions[n].thread, actions[n].input;
      StepChanges(s, s.threads[i], input, ThreadStep(s, s.threads[i], input).value);
    }
  }

  /** In every run, the accounts in scope and the suspended ones are those of the last `ApplyConfig` to
      take the plugin lock since the process started; before the first there are none. */
  lemma {:induction false} ConfigInForce(states: seq<State>, actions: seq<Action>, n: nat) returns (m: nat)
    requires IsRun(states, actions) && n < |states|
    ensures m <= n
    ensures if m == 0 || actions[m - 1].Crash? then states[n].config == Config([], [])
      else Configured(states[m - 1], actions[m - 1])
           && states[n].config == states[m - 1].threads[actions[m - 1].thread].pc.config
    ensures forall j | m <= j < n :: !actions[j].Crash? && !Configured(states[j], actions[j])
  {
    hide Next, Configured;
    if n == 0 {
      m := 0;
    } else {
      ConfigFollows(states, actions, n - 1);
      if actions[n - 1].Crash? || Configured(states[n - 1], actions[n - 1]) {
        m := n;
      } else {
        m := ConfigInForce(states, actions, n - 1);
      }
    }
  }

  /** A failure that the code ignores: the read in `ApplyConfig`, or the writing of a revocation. */
  predicate IgnoresFailure(s: State, act: Action) {
    && act.Run? && act.thread < |s.threads|
    && var pc := s.threads[act.thread].pc;
       (pc.CfgRead? && act.input.Fail?) || (pc.PersistDone? && pc.job.Revoke? && !pc.ok)
  }

  /** The end of an `ApplyConfig` that has read the store. */
  predicate EndsLoading(s: State, act: Action) {
    && act.Run? && act.thread < |s.threads|
    && var pc := s.threads[act.thread].pc;
       (pc.CfgRead? && !act.input.Fail? && !s.store.Records?) || (pc.CfgLoad? && pc.todo == [])
  }

  lemma FlagsFollow(states: seq<State>, actions: seq<Action>, n: nat)
    requires IsRun(states, actions) && n < |actions|
    ensures states[n + 1].dirty <==>
      !actions[n].Crash? && (states[n].dirty || IgnoresFailure(states[n], actions[n]))
    ensures states[n + 1].loaded <==>
      !actions[n].Crash? && (states[n].loaded || EndsLoading(states[n], actions[n]))
  {
    hide Key, Initial, ThreadStep, SlotsAfter, PermitsAfter, MutexAfter, LocksAfter, EntriesAfter, BackoffAfter, Moved;
    assert Next(states[n], actions[n]) == Some(states[n + 1]);
    if actions[n].Run? {
      var s, i, input := states[n], actions[n].thread, actions[n].input;
      StepChanges(s, s.threads[i], input, ThreadStep(s, s.threads[i], input).value);
    }
  }

  /** In every run, `dirty` means that a failure was ignored since the process started, and `loaded` that
      an `ApplyConfig` has read the store since then; and nothing else. */
  lemma {:induction false} FlagsMean(states: seq<State>, actions: seq<Action>, n: nat)
    requires IsRun(states, actions) && n < |states|
    ensures states[n].dirty <==> exists m ::
      0 <= m < n && IgnoresFailure(states[m], actions[m]) && forall j | m < j < n :: !actions[j].Crash?
    ensures states[n].loaded <==> exists m ::
      0 <= m < n && EndsLoading(states[m], actions[m]) && forall j | m < j < n :: !actions[j].Crash?
  {
    hide Next, IgnoresFailure, EndsLoading;
    if n > 0 {
      FlagsMean(states, actions, n - 1);
      FlagsFollow(states, actions, n - 1);
      CrashIgnoresNothing(states[n - 1], actions[n - 1]);
    }
  }

  lemma CrashIgnoresNothing(s: State, act: Action)
    ensures act.Crash? ==> !IgnoresFailure(s, act) && !EndsLoading(s, act)
  {
  }

  // ---- waiting ----

  lemma StepsUnless(s: State, t: Thread)
    requires ThreadStep(s, t, Go).None?
    ensures t.pc.SlotWait? ==> SlotsTaken(s, t.req.account) >= 2
    ensures t.pc.PermitWait? ==> s.permits >= 3
    ensures t.pc.EntryWait? || t.pc.CacheWait? ==> RequestKey(t.req) in s.locks
    ensures t.pc.RevokeWait? ==> KeyOf(t.pc.ticket) in s.locks
  {
    hide Key, ValidTicket;
  }

  lemma WaiterHoldsNothing(t: Thread)
    requires ShapeOk(t) && WaitsForEntry(t.pc)
    ensures t.held.None?
  {
  }

  lemma HolderOf(s: State, i: nat, k: string)
    requires ResourcesOk(s) && i < |s.threads| && s.threads[i].held.None? && k in s.locks
    ensures exists j | 0 <= j < |s.threads| :: j != i && s.threads[j].held == Some(k)
  {
    hide MutexOk, SlotsOk, PermitsOk, ShapeOk;
    assert s.locks[k] < |s.threads| && s.threads[s.locks[k]].held == Some(k);
  }

  /** In every run, a call waits for a slot only while two calls of its account hold one, for a permit
      only while three calls hold one, and for an entry only while another call holds it. */
  lemma WaitsOnlyWhenTaken(states: seq<State>, actions: seq<Action>, n: nat, i: nat)
    requires IsRun(states, actions) && n < |states| && i < |states[n].threads|
    requires ThreadStep(states[n], states[n].threads[i], Go).None?
    ensures var s, t := states[n], states[n].threads[i];
      && (t.pc.SlotWait? ==> Count(s.threads, HoldsSlot(t.req.account)) == 2)
      && (t.pc.PermitWait? ==> Count(s.threads, HoldsPermit()) == 3)
      && (WaitsForEntry(t.pc) ==>
            var k := if t.pc.RevokeWait? then KeyOf(t.pc.ticket) else RequestKey(t.req);
            exists j | 0 <= j < |s.threads| :: j != i && s.threads[j].held == Some(k))
  {
    hide IsRun, Key, IsolationOk, MutexOk, LocksOk, ShapeOk, ThreadStep, HoldsSlot, HoldsPermit;
    var s, t := states[n], states[n].threads[i];
    SafeAlong(states, actions, n);
    StepsUnless(s, t);
    assert SlotsTaken(s, t.req.account) == Count(s.threads, HoldsSlot(t.req.account));
    if WaitsForEntry(t.pc) {
      WaiterHoldsNothing(t);
      HolderOf(s, i, if t.pc.RevokeWait? then KeyOf(t.pc.ticket) else RequestKey(t.req));
    }
  }

  /** Nothing that can go wrong is ruled out: every wait can be cancelled, every file operation and
      every request can fail, and any candidate, any answer and any response can come. */
  lemma AnythingCanHappen(s: State, t: Thread, file: Option<Ticket>, outcome: Outcome, status: int, retry: int)
    ensures t.pc.SlotWait? || t.pc.PermitWait? ==> ThreadStep(s, t, Cancel).Some?
    ensures t.pc.PersistRead? || t.pc.PersistWrite? || t.pc.PersistRename? ==> ThreadStep(s, t, Fail).Some?
    ensures t.pc.CfgRead? || t.pc.Send? || t.pc.Await? || t.pc.Body? ==> ThreadStep(s, t, Fail).Some?
    ensures t.pc.ReadCandidate? ==> ThreadStep(s, t, Input.Candidate(file)).Some?
    ensures t.pc.Await? ==> ThreadStep(s, t, Response(status, retry)).Some?
    ensures t.pc.Harvest? && !outcome.Granted? ==> ThreadStep(s, t, Answer(outcome)).Some?
    ensures t.pc.Harvest? && outcome.Granted? && Owns(t.req, outcome.ticket) && ValidTicket(outcome.ticket, s.clock) ==>
      ThreadStep(s, t, Answer(outcome)).Some?
  {
    hide Key, ValidTicket;
  }

  /** Time can pass, requests and configurations can come, and the process can crash, in every state. */
  lemma AnyTime(s: State, to: int, req: Request, config: Config, torn: bool)
    ensures to >= s.clock ==> Next(s, Tick(to)) == Some(s.(clock := to))
    ensures |req.hash| == 64 ==> Next(s, Arrive(req)).Some?
    ensures Next(s, Action.Configure(config)).Some? && Next(s, Crash(torn)).Some?
    ensures |req.hash| == 64 ==>
      var after := Next(s, Arrive(req)).value;
      |after.threads| == |s.threads| + 1
      && after.threads[|s.threads|] == Thread(req, Scope, false, None, false, s.clock)
  {
  }

  // ---- denials and limits ----

  /** The ticket whose denied or limited answer the call is dealing with. */
  function Answered(pc: Pc): Option<Ticket> {
    match pc
    case Backoff(_, out) => if out.Injected? then Some(out.grant.ticket) else None
    case RevokeLookup(ticket, _) => Some(ticket)
    case RevokeWait(ticket, _) => Some(ticket)
    case RevokeCheck(ticket, _) => Some(ticket)
    case _ => None
  }

  /** The call is at its entry, or its key has none. */
  predicate Arrived(s: State, t: Thread, ticket: Ticket) {
    || (t.pc.RevokeCheck? && t.pc.ticket == ticket)
    || (t.pc.RevokeLookup? && t.pc.ticket == ticket && KeyOf(ticket) !in s.entries)
  }

  lemma SectionGoesOn(s: State, t: Thread, input: Input, e: Effect, ticket: Ticket)
    requires ShapeOk(t) && t.pc.Section? && AdmissionStep(s, t, input) == Some(e)
    requires Answered(Core(t.pc)) == Some(ticket)
    ensures Answered(Core(e.pc)) == Some(ticket)
  {
    hide Key, ValidTicket;
  }

  lemma UpstreamGoesOn(s: State, t: Thread, input: Input, e: Effect, ticket: Ticket)
    requires UpstreamStep(s, t, input) == Some(e) && Answered(t.pc) == Some(ticket)
    ensures Answered(Core(e.pc)) == Some(ticket)
  {
    hide Key, ValidTicket;
  }

  lemma RevokeGoesOn(s: State, t: Thread, e: Effect, ticket: Ticket)
    requires RevokeStep(s, t) == Some(e) && Answered(t.pc) == Some(ticket)
    ensures Answered(Core(e.pc)) == Some(ticket) || Arrived(s, t, ticket)
  {
    hide Key, ValidTicket;
  }

  lemma AnsweredIn(pc: Pc)
    requires Answered(Core(pc)).Some?
    ensures PartOf(pc) in {Part.Admission, Part.Upstream, Part.Revoking}
    ensures PartOf(pc) == Part.Admission ==> pc.Section?
    ensures PartOf(pc) != Part.Admission ==> Core(pc) == pc
  {
  }

  lemma AnswerGoesOn(s: State, t: Thread, input: Input, e: Effect, ticket: Ticket)
    requires ShapeOk(t) && ThreadStep(s, t, input) == Some(e) && Answered(Core(t.pc)) == Some(ticket)
    ensures Answered(Core(e.pc)) == Some(ticket) || Arrived(s, t, ticket)
  {
    hide AdmissionStep, TicketStep, CacheStep, HarvestStep, PersistStep, PublishStep, UpstreamStep, RevokeStep,
      ConfigStep, ShapeOk, Answered, Core, Arrived, PartOf;
    AnsweredIn(t.pc);
    match PartOf(t.pc)
    case Admission => SectionGoesOn(s, t, input, e, ticket);
    case Upstream => UpstreamGoesOn(s, t, input, e, ticket);
    case Revoking => RevokeGoesOn(s, t, e, ticket);
    case _ =>
  }

  lemma AnswerStays(s: State, a: Action, i: nat, ticket: Ticket)
    requires Next(s, a).Some? && !a.Crash? && i < |s.threads| && ShapeOk(s.threads[i])
    requires Answered(Core(s.threads[i].pc)) == Some(ticket)
    ensures i < |Next(s, a).value.threads|
    ensures || Answered(Core(Next(s, a).value.threads[i].pc)) == Some(ticket)
            || (a.Run? && a.thread == i && Arrived(s, s.threads[i], ticket))
  {
    hide Key, ThreadStep, ShapeOk, Answered, Core, Arrived;
    V.ThreadsStay(s, a, i);
    if a.Run? && a.thread == i {
      AnswerGoesOn(s, s.threads[i], a.input, ThreadStep(s, s.threads[i], a.input).value, ticket);
    }
  }

  lemma {:induction false} AnswerArrives(states: seq<State>, actions: seq<Action>, i: nat, lo: nat, hi: nat,
                                         ticket: Ticket)
    returns (m: nat)
    requires IsRun(states, actions) && lo <= hi < |states|
    requires forall n | lo <= n < hi :: !actions[n].Crash?
    requires i < |states[lo].threads| && Answered(Core(states[lo].threads[i].pc)) == Some(ticket)
    requires i < |states[hi].threads| && Answered(Core(states[hi].threads[i].pc)) != Some(ticket)
    ensures lo <= m < hi && StepOf(states, actions, m, i) && Arrived(states[m], states[m].threads[i], ticket)
    decreases hi - lo
  {
    hide Initial, Safe, Next, Answered, Core, Arrived;
    assert Next(states[lo], actions[lo]) == Some(states[lo + 1]);
    SafeAlong(states, actions, lo);
    ShapesOf(states[lo]);
    AnswerStays(states[lo], actions[lo], i, ticket);
    if Answered(Core(states[lo + 1].threads[i].pc)) == Some(ticket) {
      m := AnswerArrives(states, actions, i, lo + 1, hi, ticket);
    } else {
      m := lo;
    }
  }

  lemma AnswerBegins(s: State, t: Thread, input: Input, e: Effect)
    requires ThreadStep(s, t, input) == Some(e) && t.pc.Await? && t.pc.out.Injected?
    requires input.Response? && (input.status == 401 || input.status == 403 || input.status == 429)
    ensures Answered(Core(e.pc)) == Some(t.pc.out.grant.ticket)
    ensures Answered(Core(Done)).None?
  {
    hide Key, ValidTicket;
  }

  lemma CheckedKey(s: State, i: nat)
    requires Safe(s) && i < |s.threads| && (s.threads[i].pc.RevokeCheck? || s.threads[i].pc.RevokeLookup?)
    ensures KeyOf(s.threads[i].pc.ticket) == RequestKey(s.threads[i].req)
  {
    hide Key, Admissible, ResourcesOk, EntryOk;
    var t := s.threads[i];
    assert DataOk(s.clock, s.entries, t);
    OwnKey(t.req, t.pc.ticket);
  }

  /** In every run without a crash, before a call ends whose ticket was answered 401, 403 or 429, it puts
      a cooldown of five minutes on the entry, or finds that another ticket is cached. */
  lemma AnswerCools(states: seq<State>, actions: seq<Action>, i: nat, lo: nat, hi: nat) returns (m: nat)
    requires IsRun(states, actions) && lo < hi < |states| && StepOf(states, actions, lo, i)
    requires forall n | lo <= n < hi :: !actions[n].Crash?
    requires states[lo].threads[i].pc.Await? && states[lo].threads[i].pc.out.Injected?
    requires actions[lo].input.Response? && actions[lo].input.status in {401, 403, 429}
    requires i < |states[hi].threads| && states[hi].threads[i].pc.Done?
    ensures lo < m < hi && StepOf(states, actions, m, i)
    ensures var ticket := states[lo].threads[i].pc.out.grant.ticket;
      var e := EntryOf(states[m], KeyOf(ticket));
      || e.ticket != ticket
      || EntryOf(states[m + 1], KeyOf(ticket)) == e.(cooldown := states[m].clock + 300_000_000_000)
  {
    hide Key, Initial, Safe, ThreadStep, Answered, Core, ValidTicket;
    var t := states[lo].threads[i];
    var ticket := t.pc.out.grant.ticket;
    assert Next(states[lo], actions[lo]) == Some(states[lo + 1]);
    AnswerBegins(states[lo], t, actions[lo].input, ThreadStep(states[lo], t, actions[lo].input).value);
    V.InjectedIsNotEmpty(states, actions, lo, i);
    m := AnswerArrives(states, actions, i, lo + 1, hi, ticket);
    SafeAlong(states, actions, m);
    CheckedKey(states[m], i);
    EntriesFollow(states, actions, m, KeyOf(ticket));
  }
}
