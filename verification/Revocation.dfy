/** How long a revocation lasts. */
module Revocation {
  import opened Wrappers
  import opened Tickets
  import opened Plugin
  import opened Resources
  import opened Isolation
  import opened Safety
  import opened Durability
  import opened Runs
  import opened History

  lemma RevokedData(clock: int, entries: map<string, Entry>, t: Thread)
    requires ShapeOk(t) && DataOk(clock, entries, t) && t.pc.Publish? && t.pc.job.Revoke?
    ensures t.held == Some(RequestKey(t.req)) && Owns(t.req, t.pc.job.ticket) && Admissible(t.pc.job.ticket)
    ensures Lookup(entries, RequestKey(t.req)).ticket == t.pc.job.ticket
  {
    hide Key, ValidTicket, Admissible;
  }

  /** What stands behind a revocation that is about to be published. */
  lemma RevokedEntryOf(s: State, i: nat)
    requires Invariant(s) && i < |s.threads| && s.threads[i].pc.Publish? && s.threads[i].pc.job.Revoke?
    ensures var t := s.threads[i].pc.job.ticket;
      && Admissible(t) && EntryOf(s, KeyOf(t)).ticket == t
      && Effective(s, KeyOf(t)) == (if s.threads[i].pc.ok then EMPTY else t)
      && (!s.threads[i].pc.ok ==> s.dirty)
  {
    hide Key, ValidTicket, Admissible, EntryOk, DurabilityOk, MutexOk, SlotsOk, PermitsOk, ShapeOk, DataOk, Owns;
    var t := s.threads[i];
    RevokedData(s.clock, s.entries, t);
    OwnKey(t.req, t.pc.job.ticket);
    RevokedProgress(s, i);
  }

  lemma RevokedProgress(s: State, i: nat)
    requires DurabilityOk(s) && i < |s.threads| && s.threads[i].pc.Publish? && s.threads[i].pc.job.Revoke?
    ensures !s.threads[i].pc.ok ==> s.dirty
  {
    hide SoundRecords, OnDisk, NothingElse, AllCached, StartupOk;
    assert ProgressOk(s, s.threads[i]);
  }

  lemma IssuedInTime(s: State, k: string)
    requires Invariant(s)
    ensures EntryOf(s, k).ticket == EMPTY || EntryOf(s, k).ticket.issued <= Unix(s.clock) + 30
  {
    hide Key, Admissible, DurabilityOk, ResourcesOk, DataOk;
  }

  // ---- a revocation that was written ----

  /** Behind the rename of a revocation, until its call gives the entry back. */
  predicate Wrote(pc: Pc) { (pc.PersistDone? || pc.Publish?) && pc.job.Revoke? && pc.ok }

  lemma WrittenComesFrom(s: State, t: Thread, input: Input, e: Effect)
    requires Ready(s, t) && ThreadStep(s, t, input) == Some(e) && Wrote(e.pc)
    ensures || (t.pc.PersistRename? && t.pc.job.Revoke? && !input.Fail?)
            || (Wrote(t.pc) && !e.op.Rename?)
  {
    hide Ready, ThreadStep, PersistStep;
    ThreadCalm(s, t, input);
    if PartOf(t.pc) == Configuring {
      ConfigWritesNothing(s, t, input);
    } else if PartOf(t.pc) == Persisting {
      PersistWrites(s, t, input, e);
    }
  }

  lemma ConfigWritesNothing(s: State, t: Thread, input: Input)
    requires PartOf(t.pc) == Configuring && ThreadStep(s, t, input).Some?
    ensures !Wrote(ThreadStep(s, t, input).value.pc)
  {
    hide Key, ValidTicket;
  }

  lemma PersistWrites(s: State, t: Thread, input: Input, e: Effect)
    requires PartOf(t.pc) == Persisting && ThreadStep(s, t, input) == Some(e) && Wrote(e.pc)
    ensures || (t.pc.PersistRename? && t.pc.job.Revoke? && !input.Fail?)
            || (Wrote(t.pc) && !e.op.Rename?)
  {
    hide Key, ValidTicket;
  }

  lemma WriterHolds(clock: int, entries: map<string, Entry>, t: Thread)
    requires ShapeOk(t) && DataOk(clock, entries, t) && InPersist(t.pc)
    ensures t.held == Some(RequestKey(t.req))
  {
    hide Key, CargoOk;
  }

  /** While one call holds an entry no other call renames for its key. */
  lemma OnlyOneRenames(s: State, i: nat, j: nat)
    requires Safe(s) && i < |s.threads| && j < |s.threads| && i != j
    requires InPersist(s.threads[i].pc) && InPersist(s.threads[j].pc)
    ensures RequestKey(s.threads[i].req) != RequestKey(s.threads[j].req)
  {
    hide Key, ShapeOk, DataOk, InPersist, MutexOk, SlotsOk, PermitsOk, EntryOk;
    WriterHolds(s.clock, s.entries, s.threads[i]);
    WriterHolds(s.clock, s.entries, s.threads[j]);
  }

  lemma NewcomersWroteNothing()
    ensures !Wrote(Scope)
    ensures forall c :: !Wrote(CfgWait(c))
  {
  }

  lemma ThreadsBack(s: State, a: Action, i: nat)
    requires Next(s, a).Some? && i < |Next(s, a).value.threads| && Wrote(Next(s, a).value.threads[i].pc)
    ensures i < |s.threads| && s.threads[i].req == Next(s, a).value.threads[i].req
    ensures if a.Run? && a.thread == i
      then ThreadStep(s, s.threads[i], a.input).Some? && Wrote(ThreadStep(s, s.threads[i], a.input).value.pc)
      else Next(s, a).value.threads[i] == s.threads[i]
  {
    hide ThreadStep, Wrote;
    NewcomersWroteNothing();
  }

  lemma WrittenBack(s: State, a: Action, i: nat)
    requires Safe(s) && Next(s, a).Some? && i < |Next(s, a).value.threads|
    requires Wrote(Next(s, a).value.threads[i].pc)
    ensures i < |s.threads| && s.threads[i].req == Next(s, a).value.threads[i].req
    ensures var k := RequestKey(s.threads[i].req);
      || (Wrote(s.threads[i].pc) && !RenamesKey(s, a, k))
      || (RenamesKey(s, a, k) && a.thread == i && s.threads[i].pc.job.Revoke?)
  {
    hide Key, Safe, Next, ThreadStep, Ready, Wrote, ShapeOk, DataOk, Careful, Legal, LocksOk, MutexOk;
    ThreadsBack(s, a, i);
    if a.Run? && a.thread == i {
      var e := ThreadStep(s, s.threads[i], a.input).value;
      StepSafe(s, i, a.input, e);
      WrittenComesFrom(s, s.threads[i], a.input, e);
      if Wrote(s.threads[i].pc) { WroteIsNoRename(s.threads[i].pc); }
    } else if RenamesKey(s, a, RequestKey(s.threads[i].req)) {
      WroteIsNoRename(s.threads[i].pc);
      OnlyOneRenames(s, i, a.thread);
    }
  }

  lemma WroteIsNoRename(pc: Pc)
    requires Wrote(pc)
    ensures InPersist(pc) && !pc.PersistRename?
  {
  }

  /** A revocation whose write succeeded leaves no record of its key on disk, whatever failed before. */
  lemma {:induction false} WrittenIsGone(states: seq<State>, actions: seq<Action>, n: nat, i: nat, r: Ticket)
    requires IsRun(states, actions) && TidyStart(states) && n < |states| && i < |states[n].threads|
    requires Wrote(states[n].threads[i].pc) && KeyOf(r) == RequestKey(states[n].threads[i].req) && r.value != ""
    ensures r !in RecordsOf(states[n].store)
  {
    hide Key, Initial, Invariant, Safe, Next, Wrote, RenamesKey, SoundRecords;
    NoThreadsInitially(states[0]);
    var s, a := states[n - 1], actions[n - 1];
    assert Next(s, a) == Some(states[n]);
    InvariantAlong(states, actions, n - 1);
    SafeAlong(states, actions, n - 1);
    WrittenBack(s, a, i);
    if RenamesKey(s, a, KeyOf(r)) {
      RenameDecides(s, a, r);
      RevocationWritesNothing(s, a, KeyOf(r), r);
    } else {
      OtherKeysStay(s, a, r);
      WrittenIsGone(states, actions, n - 1, i, r);
    }
  }

  lemma RevocationWritesNothing(s: State, a: Action, k: string, r: Ticket)
    requires RenamesKey(s, a, k) && s.threads[a.thread].pc.job.Revoke? && r.value != ""
    ensures r != NewTicket(s.threads[a.thread].pc.job)
  {
  }

  /** When a revocation is about to be published, the record of its ticket is on disk exactly when its
      write failed. */
  lemma WrittenOrNot(states: seq<State>, actions: seq<Action>, n: nat, i: nat)
    requires IsRun(states, actions) && TidyStart(states) && n < |states| && i < |states[n].threads|
    requires states[n].threads[i].pc.Publish? && states[n].threads[i].pc.job.Revoke?
    requires ValidTicket(states[n].threads[i].pc.job.ticket, states[n].clock)
    ensures states[n].threads[i].pc.job.ticket in RecordsOf(states[n].store) <==> !states[n].threads[i].pc.ok
  {
    hide Key, ValidTicket, Admissible, Initial, Next, Safe, Effective, ProgressOk, StartupOk, SoundRecords;
    var s, t := states[n], states[n].threads[i].pc.job.ticket;
    InvariantAlong(states, actions, n);
    RevokedEntryOf(s, i);
    AdmissibleHasText(t);
    RevokesOwnKey(s, i);
    if s.threads[i].pc.ok {
      WrittenIsGone(states, actions, n, i, t);
    }
  }

  lemma RevokesOwnKey(s: State, i: nat)
    requires Safe(s) && i < |s.threads| && s.threads[i].pc.Publish? && s.threads[i].pc.job.Revoke?
    ensures KeyOf(s.threads[i].pc.job.ticket) == RequestKey(s.threads[i].req)
  {
    hide Key, Admissible, ResourcesOk, EntryOk;
    assert DataOk(s.clock, s.entries, s.threads[i]);
    OwnKey(s.threads[i].req, s.threads[i].pc.job.ticket);
  }

  // ---- what a crash leaves of it ----

  lemma {:induction false} ClockMonotone(states: seq<State>, actions: seq<Action>, lo: nat, hi: nat)
    requires IsRun(states, actions) && lo <= hi < |states|
    ensures states[lo].clock <= states[hi].clock
    decreases hi
  {
    hide Initial, Next;
    if lo < hi {
      ClockMonotone(states, actions, lo, hi - 1);
      assert Next(states[hi - 1], actions[hi - 1]) == Some(states[hi]);
      ClockGrows(states[hi - 1], actions[hi - 1]);
    }
  }

  /** The error of a revocation's write is dropped.  Take any later crash and the first load after it,
      and let the revoked ticket still be valid then.  If nothing was written under its key between
      the revocation and the crash, the ticket is back exactly if the write of the revocation failed.
      Otherwise it is back exactly if it was itself the last ticket written there: by an import of a
      candidate file that was left behind, or by a harvest.  Failures before the revocation, and
      crashes in between, make no difference. */
  lemma RevocationSurvivesIffWritten(states: seq<State>, actions: seq<Action>, n: nat, i: nat, c: nat, j: nat)
    requires IsRun(states, actions) && TidyStart(states) && n <= c < j < |states|
    requires i < |states[n].threads| && states[n].threads[i].pc.Publish? && states[n].threads[i].pc.job.Revoke?
    requires actions[c].Crash?
    requires forall m | c < m < j :: !states[m].loaded && !states[m].dirty
    requires states[j].loaded && !states[j].dirty
    requires ValidTicket(states[n].threads[i].pc.job.ticket, states[j].clock)
    ensures var t := states[n].threads[i].pc.job.ticket;
      EntryOf(states[j], KeyOf(t)).ticket == t <==>
        match LastWritten(states, actions, n, c, KeyOf(t))
        case None => !states[n].threads[i].pc.ok
        case Some(last) => last == t
  {
    hide Key, ValidTicket, Admissible, Unexpired, Initial, Invariant, Effective, Next, LastWritten, SoundRecords;
    var t := states[n].threads[i].pc.job.ticket;
    InvariantAlong(states, actions, n);
    RevokedEntryOf(states[n], i);
    IssuedInTime(states[n], KeyOf(t));
    EmptyNotAdmissible();
    ClockMonotone(states, actions, n, j);
    ValidIsUnexpired(t, states[j].clock);
    UnexpiredEarlier(t, states[n].clock, states[j].clock);
    WrittenOrNot(states, actions, n, i);
    RecoveryIsHistory(states, actions, n, c, j, t);
  }

  // ---- a denial is carried out ----

  /** The call publishes the revocation of this ticket, or finds that its entry holds another one. */
  predicate Settles(s: State, t: Thread, ticket: Ticket) {
    (t.pc.Publish? && t.pc.job == Revoke(ticket)) || EntryOf(s, KeyOf(ticket)).ticket != ticket
  }

  lemma RevokeStepGoesOn(s: State, t: Thread, ticket: Ticket)
    requires RevokeStep(s, t).Some? && RevokedBy(t.pc) == Some(ticket) && ticket != EMPTY
    ensures RevokedBy(RevokeStep(s, t).value.pc) == Some(ticket) || Settles(s, t, ticket)
  {
    hide Key, ValidTicket;
  }

  lemma PersistStepGoesOn(s: State, t: Thread, input: Input, ticket: Ticket)
    requires PersistStep(s, t, input).Some? && RevokedBy(t.pc) == Some(ticket)
    ensures RevokedBy(PersistStep(s, t, input).value.pc) == Some(ticket)
  {
    hide Key, ValidTicket;
  }

  lemma AdmissionStepGoesOn(s: State, t: Thread, input: Input, ticket: Ticket)
    requires ShapeOk(t) && AdmissionStep(s, t, input).Some? && RevokedBy(t.pc) == Some(ticket)
    ensures RevokedBy(AdmissionStep(s, t, input).value.pc) == Some(ticket)
  {
    hide Key, ValidTicket;
  }

  lemma RevokesIn(pc: Pc)
    requires RevokedBy(pc).Some?
    ensures PartOf(pc) in {Part.Admission, Part.Persisting, Part.Publishing, Part.Revoking}
    ensures pc.Publish? ==> pc.job == Revoke(RevokedBy(pc).value)
    ensures PartOf(pc) == Part.Publishing ==> pc.Publish?
  {
  }

  lemma StepGoesOn(s: State, t: Thread, input: Input, e: Effect, ticket: Ticket)
    requires ShapeOk(t) && ThreadStep(s, t, input) == Some(e) && RevokedBy(t.pc) == Some(ticket) && ticket != EMPTY
    ensures RevokedBy(e.pc) == Some(ticket) || Settles(s, t, ticket)
  {
    hide AdmissionStep, TicketStep, CacheStep, HarvestStep, PersistStep, PublishStep, UpstreamStep, RevokeStep,
      ConfigStep, ShapeOk, RevokedBy, Settles, PartOf;
    RevokesIn(t.pc);
    match PartOf(t.pc)
    case Admission => AdmissionStepGoesOn(s, t, input, ticket);
    case Persisting => PersistStepGoesOn(s, t, input, ticket);
    case Revoking => RevokeStepGoesOn(s, t, ticket);
    case Publishing => PublishSettles(s, t, ticket);
    case _ =>
  }

  lemma PublishSettles(s: State, t: Thread, ticket: Ticket)
    requires t.pc.Publish? && t.pc.job == Revoke(ticket)
    ensures Settles(s, t, ticket)
  {
    hide Key;
  }

  lemma DeniedIsPursued(s: State, t: Thread, input: Input, e: Effect, ticket: Ticket)
    requires ThreadStep(s, t, input) == Some(e) && Denied(t, input, ticket)
    ensures RevokedBy(e.pc) == Some(ticket)
  {
    hide Key, ValidTicket;
  }

  lemma InjectedIsNotEmpty(states: seq<State>, actions: seq<Action>, n: nat, i: nat)
    requires IsRun(states, actions) && n < |states| && i < |states[n].threads|
    requires states[n].threads[i].pc.Await? && states[n].threads[i].pc.out.Injected?
    ensures states[n].threads[i].pc.out.grant.ticket != EMPTY
  {
    hide IsRun, Key, Admissible;
    InjectedIsOwn(states, actions, n, i);
    EmptyIsInvalid(states[n].threads[i].pc.out.grant.at);
  }

  lemma ThreadsStay(s: State, a: Action, i: nat)
    requires Next(s, a).Some? && !a.Crash? && i < |s.threads|
    ensures i < |Next(s, a).value.threads|
    ensures (a.Run? && a.thread == i) || Next(s, a).value.threads[i] == s.threads[i]
  {
    hide ThreadStep;
  }

  /** A call that is after a ticket keeps after it until it settles the matter. */
  lemma {:induction false} PursuitEnds(states: seq<State>, actions: seq<Action>, i: nat, lo: nat, hi: nat,
                                       ticket: Ticket)
    returns (m: nat)
    requires IsRun(states, actions) && lo <= hi < |states|
    requires forall n | lo <= n < hi :: !actions[n].Crash?
    requires i < |states[lo].threads| && RevokedBy(states[lo].threads[i].pc) == Some(ticket) && ticket != EMPTY
    requires i < |states[hi].threads| && RevokedBy(states[hi].threads[i].pc) != Some(ticket)
    ensures lo <= m < hi && actions[m].Run? && actions[m].thread == i && i < |states[m].threads|
    ensures Settles(states[m], states[m].threads[i], ticket)
    decreases hi - lo
  {
    hide Key, Initial, Safe, ThreadStep, RevokedBy, Settles, ShapeOk, Apply, Next;
    assert Next(states[lo], actions[lo]) == Some(states[lo + 1]);
    SafeAlong(states, actions, lo);
    ShapesOf(states[lo]);
    ThreadsStay(states[lo], actions[lo], i);
    if RevokedBy(states[lo + 1].threads[i].pc) == Some(ticket) {
      m := PursuitEnds(states, actions, i, lo + 1, hi, ticket);
    } else {
      m := lo;
      PursuitStep(states[lo], actions[lo], i, ticket);
    }
  }

  lemma PursuitStep(s: State, a: Action, i: nat, ticket: Ticket)
    requires Next(s, a).Some? && !a.Crash? && i < |s.threads| && i < |Next(s, a).value.threads|
    requires ShapeOk(s.threads[i]) && RevokedBy(s.threads[i].pc) == Some(ticket) && ticket != EMPTY
    requires RevokedBy(Next(s, a).value.threads[i].pc) != Some(ticket)
    ensures a.Run? && a.thread == i && Settles(s, s.threads[i], ticket)
  {
    hide Key, ThreadStep, RevokedBy, Settles, ShapeOk;
    ThreadsStay(s, a, i);
    StepGoesOn(s, s.threads[i], a.input, ThreadStep(s, s.threads[i], a.input).value, ticket);
  }

  /** A 401 or 403 for an injected ticket is carried out: before the call ends it publishes the
      revocation, or it finds that the entry no longer holds that ticket. */
  lemma DenialIsCarriedOut(states: seq<State>, actions: seq<Action>, i: nat, lo: nat, hi: nat, ticket: Ticket)
    returns (m: nat)
    requires IsRun(states, actions) && lo < hi < |states|
    requires forall n | lo <= n < hi :: !actions[n].Crash?
    requires actions[lo].Run? && actions[lo].thread == i && i < |states[lo].threads|
    requires Denied(states[lo].threads[i], actions[lo].input, ticket)
    requires i < |states[hi].threads| && states[hi].threads[i].pc.Done?
    ensures lo < m < hi && actions[m].Run? && actions[m].thread == i && i < |states[m].threads|
    ensures Settles(states[m], states[m].threads[i], ticket)
  {
    hide Key, Initial, Safe, ThreadStep, RevokedBy, Settles, Denied;
    assert Next(states[lo], actions[lo]) == Some(states[lo + 1]);
    DeniedWaits(states[lo].threads[i], actions[lo].input, ticket);
    InjectedIsNotEmpty(states, actions, lo, i);
    DeniedIsPursued(states[lo], states[lo].threads[i], actions[lo].input,
                    ThreadStep(states[lo], states[lo].threads[i], actions[lo].input).value, ticket);
    DoneRevokesNothing();
    m := PursuitEnds(states, actions, i, lo + 1, hi, ticket);
  }

  lemma DeniedWaits(t: Thread, input: Input, ticket: Ticket)
    requires Denied(t, input, ticket)
    ensures t.pc.Await? && t.pc.out.Injected? && t.pc.out.grant.ticket == ticket
  {
  }

  lemma DoneRevokesNothing()
    ensures RevokedBy(Done).None?
  {
  }

  /** A revoked entry has issue time 0: any valid candidate of its key is imported, also one older
      than the ticket that was revoked, and lifts the block. */
  lemma RevokedEntryTakesAnyCandidate(s: State, t: Thread, candidate: Ticket, now: int)
    requires t.pc == ReadCandidate(now) && EntryOf(s, RequestKey(t.req)).ticket == EMPTY
    ensures TicketStep(s, t, Candidate(Some(candidate))) == Some(Effect(PersistWait(Import(candidate, now)), Stay))
       <==> KeyOf(candidate) == RequestKey(t.req) && ValidTicket(candidate, now)
    ensures var u := t.(pc := Publish(Import(candidate, now), true));
      PublishStep(s, u).value.op == PutEntry(RequestKey(t.req), Entry(candidate, ZERO_TIME, false))
  {
    hide Key;
    var i := ParseState(candidate.value);
    assert ValidTicket(candidate, now) ==> candidate.issued > 0;
  }
}
