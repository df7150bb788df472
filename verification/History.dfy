/** What the disk holds under one key: what was last written there. */
module History {
  import opened Wrappers
  import opened Tickets
  import opened Plugin
  import opened Resources
  import opened Isolation
  import opened Safety
  import opened Durability
  import opened Runs

  /** The step moves the file of a `persist` call for this key into the store. */
  predicate RenamesKey(s: State, a: Action, k: string) {
    && a.Run? && a.thread < |s.threads| && s.threads[a.thread].pc.PersistRename? && !a.input.Fail?
    && RequestKey(s.threads[a.thread].req) == k
  }

  /** What the last such step between two states wrote: the new record, or `EMPTY` for a revocation. */
  function LastWritten(states: seq<State>, actions: seq<Action>, lo: nat, hi: nat, k: string): Option<Ticket>
    requires lo <= hi <= |actions| < |states|
    decreases hi
  {
    if lo == hi then None
    else if RenamesKey(states[hi - 1], actions[hi - 1], k) then
      Some(NewTicket(states[hi - 1].threads[actions[hi - 1].thread].pc.job))
    else LastWritten(states, actions, lo, hi - 1, k)
  }

  // ---- one step ----

  lemma RenameGoes(s: State, t: Thread, input: Input)
    requires t.pc.PersistRename?
    ensures ThreadStep(s, t, input)
         == Some(if input.Fail? then Effect(PersistDone(t.pc.job, false), Stay)
                 else Effect(PersistDone(t.pc.job, true), Rename))
  {
  }

  lemma StoreMovesByRename(s: State, a: Action)
    requires Next(s, a).Some? && Next(s, a).value.store != s.store
    ensures a.Run? && a.thread < |s.threads| && s.threads[a.thread].pc.PersistRename? && !a.input.Fail?
    ensures Next(s, a).value.store == s.tmp
  {
    hide ThreadStep;
    var t := s.threads[a.thread];
    var e := ThreadStep(s, t, a.input).value;
    assert e.op.Rename?;
    RenamesOnlyThere(s, t, a.input, e);
    RenameGoes(s, t, a.input);
  }

  lemma WriterOwns(clock: int, entries: map<string, Entry>, t: Thread)
    requires DataOk(clock, entries, t) && t.pc.PersistRename?
    ensures NewTicket(t.pc.job) == EMPTY || KeyOf(NewTicket(t.pc.job)) == RequestKey(t.req)
  {
    hide Key, ValidTicket, Admissible;
    OwnKey(t.req, t.pc.job.ticket);
  }

  lemma ReadyToRename(s: State, i: nat)
    requires Invariant(s) && i < |s.threads| && s.threads[i].pc.PersistRename?
    ensures s.tmp.Records?
    ensures var t := s.threads[i];
      WriteOk(RecordsOf(s.store), RequestKey(t.req), s.clock, NewTicket(t.pc.job), s.tmp.tickets)
    ensures NewTicket(s.threads[i].pc.job) == EMPTY
         || KeyOf(NewTicket(s.threads[i].pc.job)) == RequestKey(s.threads[i].req)
  {
    hide Key, WriteOk, DataOk, ResourcesOk, EntryOk, OnDisk, NothingElse, AllCached, StartupOk, SoundRecords;
    assert ProgressOk(s, s.threads[i]);
    WriterOwns(s.clock, s.entries, s.threads[i]);
  }

  /** A step that is no rename for a record's key leaves the record where it is, if it is valid, and
      never brings one. */
  lemma OtherKeysStay(s: State, a: Action, r: Ticket)
    requires Invariant(s) && Next(s, a).Some? && !RenamesKey(s, a, KeyOf(r))
    ensures r in RecordsOf(Next(s, a).value.store) ==> r in RecordsOf(s.store)
    ensures r in RecordsOf(s.store) && ValidTicket(r, s.clock) ==> r in RecordsOf(Next(s, a).value.store)
  {
    hide Key, ValidTicket, Invariant, Next, NewTicket;
    var s' := Next(s, a).value;
    if r in RecordsOf(s.store) && ValidTicket(r, s.clock) && r !in RecordsOf(s'.store) {
      StoreLosesOnlyOwn(s, a, r);
    }
    if s'.store != s.store {
      StoreMovesByRename(s, a);
      ReadyToRename(s, a.thread);
    }
  }

  /** A rename leaves exactly what it wrote under its key. */
  lemma RenameDecides(s: State, a: Action, r: Ticket)
    requires Invariant(s) && Next(s, a).Some? && RenamesKey(s, a, KeyOf(r)) && r.value != ""
    ensures r in RecordsOf(Next(s, a).value.store) <==> r == NewTicket(s.threads[a.thread].pc.job)
  {
    hide Key, Invariant, ThreadStep, NewTicket, SlotsAfter, PermitsAfter, MutexAfter, LocksAfter, EntriesAfter, Moved;
    RenameGoes(s, s.threads[a.thread], a.input);
    ReadyToRename(s, a.thread);
  }

  // ---- runs ----

  /** Well formed, and not yet past its time. */
  predicate Unexpired(t: Ticket, now: int) { Admissible(t) && Unix(now) < t.issued + 3570 }

  lemma UnexpiredEarlier(t: Ticket, before: int, now: int)
    requires before <= now && Unexpired(t, now)
    ensures Unexpired(t, before) && t.value != ""
    ensures t.issued <= Unix(before) + 30 ==> ValidTicket(t, before)
  {
  }

  lemma ValidIsUnexpired(t: Ticket, now: int)
    requires ValidTicket(t, now)
    ensures Unexpired(t, now)
  {
  }

  lemma StoredInTime(s: State, t: Ticket)
    requires Invariant(s) && t in RecordsOf(s.store)
    ensures t.issued <= Unix(s.clock) + 30
  {
    hide Key, Safe, OnDisk, NothingElse, AllCached, StartupOk, ProgressOk;
  }

  /** In every run that starts over a tidy store, crashes included, and over any stretch of it: a
      ticket that has not expired is on disk exactly if it was the last one written under its key, or,
      if none was written in the meantime, exactly if it was there before. */
  lemma {:induction false} LastWriteDecides(states: seq<State>, actions: seq<Action>, lo: nat, hi: nat, t: Ticket)
    requires IsRun(states, actions) && TidyStart(states) && lo <= hi < |states|
    requires Unexpired(t, states[hi].clock)
    ensures t in RecordsOf(states[hi].store) <==>
      match LastWritten(states, actions, lo, hi, KeyOf(t))
      case None => t in RecordsOf(states[lo].store)
      case Some(last) => t == last
    decreases hi
  {
    hide Key, ValidTicket, Unexpired, Initial, Invariant, Next, RenamesKey, SoundRecords;
    if lo < hi {
      var s, a := states[hi - 1], actions[hi - 1];
      InvariantAlong(states, actions, hi - 1);
      assert Next(s, a) == Some(states[hi]);
      ClockGrows(s, a);
      UnexpiredEarlier(t, s.clock, states[hi].clock);
      if RenamesKey(s, a, KeyOf(t)) {
        RenameDecides(s, a, t);
      } else {
        if t in RecordsOf(s.store) { StoredInTime(s, t); }
        OtherKeysStay(s, a, t);
        LastWriteDecides(states, actions, lo, hi - 1, t);
      }
    }
  }

  lemma StoredOrNot(s: State, t: Ticket)
    requires Invariant(s) && s.loaded && !s.dirty && ValidTicket(t, s.clock)
    ensures Effective(s, KeyOf(t)) == t <==> t in RecordsOf(s.store)
  {
    hide Key, ValidTicket, Admissible, Safe, Effective, ProgressOk, StartupOk;
  }

  /** After a crash at any step and the first load behind it, a key holds a ticket that is still valid
      exactly if that ticket was the last one written under the key, in whatever process, or was on
      disk before and nothing was written since. */
  lemma RecoveryIsHistory(states: seq<State>, actions: seq<Action>, lo: nat, c: nat, j: nat, t: Ticket)
    requires IsRun(states, actions) && TidyStart(states) && lo <= c < j < |states|
    requires actions[c].Crash?
    requires forall m | c < m < j :: !states[m].loaded && !states[m].dirty
    requires states[j].loaded && !states[j].dirty
    requires ValidTicket(t, states[j].clock)
    ensures EntryOf(states[j], KeyOf(t)).ticket == t <==>
      match LastWritten(states, actions, lo, c, KeyOf(t))
      case None => t in RecordsOf(states[lo].store)
      case Some(last) => t == last
  {
    hide Key, ValidTicket, Unexpired, Initial, Invariant, Effective, Next, LastWritten, SoundRecords;
    InvariantAlong(states, actions, j);
    StoreSurvivesStartup(states, actions, c, j);
    ValidIsUnexpired(t, states[j].clock);
    UnexpiredEarlier(t, states[c].clock, states[j].clock);
    LastWriteDecides(states, actions, lo, c, t);
    Unlocked(states[j], KeyOf(t));
    StoredOrNot(states[j], t);
  }
}
