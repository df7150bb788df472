/** Which accounts a cycle of the scheduler collects for. */
module Jobs {
  import opened Wrappers
  import opened Tickets
  import opened Base64
  import opened TicketTexts
  import opened Reconcile
  import C = Collector
  import R = CollectorRuns

  datatype Status = Fresh | RenewDue | Missing | Paused | ModelNotEnabled

  datatype Job = Job(id: int, interval: int)

  function Text(s: Status): string {
    match s
    case Fresh => "fresh"
    case RenewDue => "renew_due"
    case Missing => "missing"
    case Paused => "paused"
    case ModelNotEnabled => "model_not_enabled"
  }

  function Interval(s: Status): int { R.RetryInterval(Text(s)) }

  predicate Enabled(a: Account) { a.mapping == {} || C.MODEL in a.mapping || "*" in a.mapping }

  /** The clock of a cycle is read once, in whole seconds. */
  predicate Usable(t: Ticket, a: Account, now: int) { Serves(t, a, now * SECOND) }

  lemma UsableMeans(t: Ticket, a: Account, now: int)
    ensures Usable(t, a, now) <==>
      && t.account == a.id && t.model == "gpt-6-astra" && t.hash == a.hash
      && Carries(Lenient, t.value, t.issued)
      && t.issued <= now + 30 && now < t.issued + 3570
  {
    hide Serves, Carries;
    ServesMeans(t, a, now * SECOND);
  }

  ghost predicate HasUsable(tickets: seq<Ticket>, a: Account, now: int, since: int) {
    exists t | t in tickets :: Usable(t, a, now) && t.issued > since
  }

  /** The status, from the tickets alone: fresh while some usable ticket is less than 3000 s old. */
  ghost predicate StatusIs(s: Status, a: Account, tickets: seq<Ticket>, now: int) {
    if !a.eligible then s.Paused?
    else if a.mapping != {} && "gpt-6-astra" !in a.mapping && "*" !in a.mapping then s.ModelNotEnabled?
    else if HasUsable(tickets, a, now, now - 3000) then s.Fresh?
    else if exists t | t in tickets :: Usable(t, a, now) then s.RenewDue?
    else s.Missing?
  }

  method Newest(a: Account, tickets: seq<Ticket>, now: int) returns (newest: Option<Ticket>)
    ensures newest.None? <==> forall t | t in tickets :: !Usable(t, a, now)
    ensures newest.Some? ==>
      && newest.value in tickets && Usable(newest.value, a, now)
      && forall t | t in tickets && Usable(t, a, now) :: t.issued <= newest.value.issued
  {
    hide Usable;
    newest := None;
    for i := 0 to |tickets|
      invariant newest.None? <==> forall t | t in tickets[..i] :: !Usable(t, a, now)
      invariant newest.Some? ==>
        && newest.value in tickets && Usable(newest.value, a, now)
        && forall t | t in tickets[..i] && Usable(t, a, now) :: t.issued <= newest.value.issued
    {
      assert tickets[..i + 1] == tickets[..i] + [tickets[i]];
      if Usable(tickets[i], a, now) && (newest.None? || tickets[i].issued > newest.value.issued) {
        newest := Some(tickets[i]);
      }
    }
    assert tickets[..|tickets|] == tickets;
  }

  method Classify(a: Account, tickets: seq<Ticket>, now: int) returns (s: Status)
    ensures StatusIs(s, a, tickets, now)
  {
    hide Usable;
    var newest := Newest(a, tickets, now);
    s := if newest.Some? && now < newest.value.issued + 3000 then Fresh
         else if newest.Some? then RenewDue else Missing;
    if !a.eligible {
      s := Paused;
    } else if !Enabled(a) {
      s := ModelNotEnabled;
    }
  }

  function LastAttempt(attempts: map<int, int>, id: int): int { if id in attempts then attempts[id] else 0 }

  predicate Due(s: Status, attempts: map<int, int>, id: int, now: int) {
    (s.RenewDue? || s.Missing?) && now - LastAttempt(attempts, id) >= Interval(s)
  }

  /** An account is due 20 seconds behind its last attempt if it has no ticket, and 300 seconds behind it
      if its ticket is to be renewed. */
  lemma DueExactly(s: Status, attempts: map<int, int>, id: int, now: int)
    ensures Due(s, attempts, id, now) <==>
      var last := if id in attempts then attempts[id] else 0;
      (s.Missing? && now >= last + 20) || (s.RenewDue? && now >= last + 300)
  {
  }

  /** The attempts recorded, and the jobs given out, after the first `n` accounts. */
  function Recorded(attempts: map<int, int>, accounts: seq<Account>, statuses: seq<Status>, now: int, n: nat)
    : map<int, int>
    requires n <= |accounts| && n <= |statuses|
  {
    if n == 0 then attempts
    else
      var prior, id := Recorded(attempts, accounts, statuses, now, n - 1), accounts[n - 1].id;
      if Due(statuses[n - 1], prior, id, now) then prior[id := now] else prior
  }

  function Given(attempts: map<int, int>, accounts: seq<Account>, statuses: seq<Status>, now: int, n: nat): seq<Job>
    requires n <= |accounts| && n <= |statuses|
  {
    if n == 0 then []
    else
      var prior, id := Recorded(attempts, accounts, statuses, now, n - 1), accounts[n - 1].id;
      Given(attempts, accounts, statuses, now, n - 1)
      + if Due(statuses[n - 1], prior, id, now) then [Job(id, Interval(statuses[n - 1]))] else []
  }

  /** `attempts` of the state file, by account, as there is one model. */
  class Scheduler {
    var attempts: map<int, int>

    constructor ()
      ensures attempts == map[]
    {
      attempts := map[];
    }

    method SelectJobs(accounts: seq<Account>, tickets: seq<Ticket>, now: int)
      returns (jobs: seq<Job>, statuses: seq<Status>)
      modifies this
      ensures |statuses| == |accounts|
      ensures forall i | 0 <= i < |accounts| :: StatusIs(statuses[i], accounts[i], tickets, now)
      ensures attempts == Recorded(old(attempts), accounts, statuses, now, |accounts|)
      ensures jobs == Given(old(attempts), accounts, statuses, now, |accounts|)
    {
      hide StatusIs, Interval;
      jobs, statuses := [], [];
      for n := 0 to |accounts|
        invariant |statuses| == n
        invariant forall i | 0 <= i < n :: StatusIs(statuses[i], accounts[i], tickets, now)
        invariant attempts == Recorded(old(attempts), accounts, statuses, now, n)
        invariant jobs == Given(old(attempts), accounts, statuses, now, n)
      {
        var status := Classify(accounts[n], tickets, now);
        SamePrefix(old(attempts), accounts, statuses, status, now, n);
        statuses := statuses + [status];
        var id := accounts[n].id;
        if Due(status, attempts, id, now) {
          jobs := jobs + [Job(id, Interval(status))];
          attempts := attempts[id := now];
        }
      }
    }
  }

  lemma {:induction false} SamePrefix(attempts: map<int, int>, accounts: seq<Account>, statuses: seq<Status>,
                                      status: Status, now: int, n: nat)
    requires n <= |accounts| && n <= |statuses|
    ensures Recorded(attempts, accounts, statuses + [status], now, n) == Recorded(attempts, accounts, statuses, now, n)
    ensures Given(attempts, accounts, statuses + [status], now, n) == Given(attempts, accounts, statuses, now, n)
  {
    hide Due;
    if n > 0 {
      SamePrefix(attempts, accounts, statuses, status, now, n - 1);
    }
  }

  /** An account gets one job exactly when it is due, and then this cycle is its last attempt. */
  lemma {:induction false} JobsAreDue(attempts: map<int, int>, accounts: seq<Account>, statuses: seq<Status>,
                                      now: int, n: nat, id: int)
    requires DistinctIds(accounts) && n <= |accounts| == |statuses|
    ensures forall job | job in Given(attempts, accounts, statuses, now, n) && job.id == id ::
      exists i | 0 <= i < n ::
        accounts[i].id == id && Due(statuses[i], attempts, id, now) && job.interval == Interval(statuses[i])
    ensures forall i | 0 <= i < n && accounts[i].id == id && Due(statuses[i], attempts, id, now) ::
      Job(id, Interval(statuses[i])) in Given(attempts, accounts, statuses, now, n)
    ensures LastAttempt(Recorded(attempts, accounts, statuses, now, n), id)
         == if exists i | 0 <= i < n :: accounts[i].id == id && Due(statuses[i], attempts, id, now) then now
            else LastAttempt(attempts, id)
    ensures (forall i | 0 <= i < n :: accounts[i].id != id) ==>
      LastAttempt(Recorded(attempts, accounts, statuses, now, n), id) == LastAttempt(attempts, id)
  {
    hide Interval;
    if n > 0 {
      JobsAreDue(attempts, accounts, statuses, now, n - 1, id);
    }
  }

  // ---- over cycles ----

  datatype Cycle = Cycle(accounts: seq<Account>, statuses: seq<Status>, now: int)

  ghost predicate WellFormed(c: Cycle) { DistinctIds(c.accounts) && |c.statuses| == |c.accounts| }

  ghost function AttemptsAt(attempts: map<int, int>, cycles: seq<Cycle>, n: nat): map<int, int>
    requires n <= |cycles|
    requires forall c | c in cycles :: WellFormed(c)
  {
    if n == 0 then attempts
    else
      var c := cycles[n - 1];
      assert c in cycles;
      Recorded(AttemptsAt(attempts, cycles, n - 1), c.accounts, c.statuses, c.now, |c.accounts|)
  }

  ghost function JobsAt(attempts: map<int, int>, cycles: seq<Cycle>, n: nat): seq<Job>
    requires n < |cycles|
    requires forall c | c in cycles :: WellFormed(c)
  {
    var c := cycles[n];
    assert c in cycles;
    Given(AttemptsAt(attempts, cycles, n), c.accounts, c.statuses, c.now, |c.accounts|)
  }

  lemma CycleMovesOn(attempts: map<int, int>, c: Cycle, id: int)
    requires WellFormed(c)
    ensures LastAttempt(Recorded(attempts, c.accounts, c.statuses, c.now, |c.accounts|), id)
         >= LastAttempt(attempts, id)
    ensures forall job | job in Given(attempts, c.accounts, c.statuses, c.now, |c.accounts|) && job.id == id ::
      && LastAttempt(Recorded(attempts, c.accounts, c.statuses, c.now, |c.accounts|), id) == c.now
      && c.now - LastAttempt(attempts, id) >= job.interval >= 20
  {
    hide Recorded, Given;
    JobsAreDue(attempts, c.accounts, c.statuses, c.now, |c.accounts|, id);
  }

  lemma {:induction false} AttemptsGrow(attempts: map<int, int>, cycles: seq<Cycle>, m: nat, n: nat, id: int)
    requires m <= n <= |cycles|
    requires forall c | c in cycles :: WellFormed(c)
    ensures LastAttempt(AttemptsAt(attempts, cycles, m), id) <= LastAttempt(AttemptsAt(attempts, cycles, n), id)
  {
    hide Recorded, LastAttempt;
    if m < n {
      AttemptsGrow(attempts, cycles, m, n - 1, id);
      CycleMovesOn(AttemptsAt(attempts, cycles, n - 1), cycles[n - 1], id);
    }
  }

  /** Two jobs for one account are an interval apart, the interval of the later one, whatever the
      clock does in between. */
  lemma JobsAreSpaced(attempts: map<int, int>, cycles: seq<Cycle>, m: nat, n: nat, first: Job, second: Job)
    requires m < n < |cycles|
    requires forall c | c in cycles :: WellFormed(c)
    requires first in JobsAt(attempts, cycles, m) && second in JobsAt(attempts, cycles, n) && first.id == second.id
    ensures cycles[n].now >= cycles[m].now + second.interval
    ensures second.interval == 20 || second.interval == 300
  {
    hide Recorded, Given, LastAttempt, Due;
    CycleMovesOn(AttemptsAt(attempts, cycles, m), cycles[m], first.id);
    AttemptsGrow(attempts, cycles, m + 1, n, first.id);
    CycleMovesOn(AttemptsAt(attempts, cycles, n), cycles[n], first.id);
    JobsAreDue(AttemptsAt(attempts, cycles, n), cycles[n].accounts, cycles[n].statuses, cycles[n].now,
               |cycles[n].accounts|, first.id);
  }
}
