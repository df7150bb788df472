/** Calls end: the machine cannot deadlock, and every schedule of its steps finishes every call. */
module Progress {
  import opened Wrappers
  import opened Tickets
  import opened Counting
  import opened Plugin
  import opened Resources
  import opened Isolation
  import opened Safety

  // ---- deadlock freedom ----

  /** The five places where a call waits for another one, besides the plugin lock. */
  predicate Waits(pc: Pc) {
    pc.SlotWait? || pc.PermitWait? || WaitsForEntry(pc)
  }

  /** An answer of the world that lets a call go on. */
  function Answering(pc: Pc): Input {
    match pc
    case ReadCandidate(_) => Candidate(None)
    case Harvest => Answer(NoClient)
    case Await(_) => Response(200, 0)
    case _ => Go
  }

  predicate Moves(s: State, i: nat, input: Input) {
    i < |s.threads| && ThreadStep(s, s.threads[i], input).Some? && !input.Cancel?
  }

  lemma Unblocked(s: State, t: Thread)
    requires ShapeOk(t) && !t.pc.Done? && !Waits(t.pc)
    requires InsideLock(t.pc) || s.mutex.None?
    ensures ThreadStep(s, t, Answering(t.pc)).Some?
  {
    hide Key, ValidTicket, Importable, GrantNow;
  }

  lemma ShapeOfHolder(t: Thread)
    requires ShapeOk(t)
    ensures t.permit ==> !t.pc.Done? && !Waits(t.pc)
    ensures t.held.Some? ==> !t.pc.Done? && (!Waits(t.pc) || t.pc.PermitWait?)
    ensures t.slot ==> !t.pc.Done? && !t.pc.SlotWait?
  {
  }

  lemma PermitComes(s: State, i: nat) returns (j: nat, input: Input)
    requires ResourcesOk(s) && s.mutex.None? && i < |s.threads| && s.threads[i].pc.PermitWait?
    ensures Moves(s, j, input)
  {
    hide Key, ValidTicket, ShapeOk, MutexOk, LocksOk, SlotsOk;
    if s.permits < HARVEST_PERMITS {
      j, input := i, Go;
    } else {
      j := CountWitness(s.threads, HoldsPermit());
      ShapeOfHolder(s.threads[j]);
      input := Answering(s.threads[j].pc);
      Unblocked(s, s.threads[j]);
    }
  }

  /** The key whose lock a call waits for. */
  function WantedKey(t: Thread): string {
    if t.pc.RevokeWait? then KeyOf(t.pc.ticket) else RequestKey(t.req)
  }

  lemma FreeLockIsTaken(s: State, t: Thread)
    requires WaitsForEntry(t.pc) && WantedKey(t) !in s.locks
    ensures ThreadStep(s, t, Go).Some?
  {
    hide Key, ValidTicket;
  }

  lemma EntryComes(s: State, i: nat) returns (j: nat, input: Input)
    requires ResourcesOk(s) && s.mutex.None? && i < |s.threads| && WaitsForEntry(s.threads[i].pc)
    ensures Moves(s, j, input)
  {
    hide Key, ValidTicket, ShapeOk, MutexOk, PermitsOk, SlotsOk, ThreadStep;
    var k := WantedKey(s.threads[i]);
    if k !in s.locks {
      FreeLockIsTaken(s, s.threads[i]);
      j, input := i, Go;
    } else {
      j := s.locks[k];
      ShapeOfHolder(s.threads[j]);
      if s.threads[j].pc.PermitWait? {
        j, input := PermitComes(s, j);
      } else {
        input := Answering(s.threads[j].pc);
        Unblocked(s, s.threads[j]);
      }
    }
  }

  lemma SlotComes(s: State, i: nat) returns (j: nat, input: Input)
    requires ResourcesOk(s) && s.mutex.None? && i < |s.threads| && s.threads[i].pc.SlotWait?
    ensures Moves(s, j, input)
  {
    hide Key, ValidTicket, ShapeOk, MutexOk, PermitsOk, LocksOk;
    var a := s.threads[i].req.account;
    if SlotsTaken(s, a) < BUSINESS_SLOTS {
      j, input := i, Go;
    } else {
      assert SlotsTaken(s, a) == Count(s.threads, HoldsSlot(a));
      j := CountWitness(s.threads, HoldsSlot(a));
      ShapeOfHolder(s.threads[j]);
      if s.threads[j].pc.PermitWait? {
        j, input := PermitComes(s, j);
      } else if WaitsForEntry(s.threads[j].pc) {
        j, input := EntryComes(s, j);
      } else {
        input := Answering(s.threads[j].pc);
        Unblocked(s, s.threads[j]);
      }
    }
  }

  lemma SomeCallSteps(s: State, unfinished: nat) returns (j: nat, input: Input)
    requires Safe(s) && unfinished < |s.threads| && !s.threads[unfinished].pc.Done?
    ensures Moves(s, j, input)
  {
    hide IsolationOk, ShapeOk, SlotsOk, PermitsOk, LocksOk, ThreadStep;
    if s.mutex.Some? {
      j := s.mutex.value;
      LockHolderRuns(s.threads[j]);
      input := Answering(s.threads[j].pc);
      Unblocked(s, s.threads[j]);
    } else {
      j := unfinished;
      var pc := s.threads[j].pc;
      if pc.PermitWait? {
        j, input := PermitComes(s, j);
      } else if WaitsForEntry(pc) {
        j, input := EntryComes(s, j);
      } else if pc.SlotWait? {
        j, input := SlotComes(s, j);
      } else {
        input := Answering(pc);
        Unblocked(s, s.threads[j]);
      }
    }
  }

  lemma LockHolderRuns(t: Thread)
    requires InsideLock(t.pc)
    ensures !t.pc.Done? && !Waits(t.pc)
  {
  }

  /** In every reachable state with an unfinished call some call can step, without cancelling. */
  lemma NoDeadlock(states: seq<State>, actions: seq<Action>, n: nat, unfinished: nat) returns (j: nat, input: Input)
    requires IsRun(states, actions) && n < |states|
    requires unfinished < |states[n].threads| && !states[n].threads[unfinished].pc.Done?
    ensures Moves(states[n], j, input)
  {
    hide IsRun, Safe, ThreadStep;
    SafeAlong(states, actions, n);
    j, input := SomeCallSteps(states[n], unfinished);
  }

  // ---- every schedule ends ----

  function JobStage(job: Job): nat {
    match job
    case Import(_, _) => 80
    case Harvested(_, _) => 60
    case Revoke(_) => 20
  }

  /** How far a call is from its end; only the two record loops stay on one stage. */
  function StageOf(pc: Pc): nat {
    match pc
    case Scope => 120
    case SlotLookup => 118
    case SlotWait => 116
    case BackoffRead => 114
    case BackoffCheck(_) => 112
    case TicketLookup => 104
    case EntryWait => 102
    case ReadClock => 100
    case ReadCandidate(_) => 98
    case PersistWait(job) => JobStage(job) + 8
    case PersistRead(job) => JobStage(job) + 7
    case PersistFilter(job, _, _) => JobStage(job) + 6
    case PersistWrite(job, _) => JobStage(job) + 5
    case PersistRename(job) => JobStage(job) + 4
    case PersistDone(job, _) => JobStage(job) + 3
    case Publish(job, _) => JobStage(job) + 2
    case Decide(_) => 78
    case PermitWait(_) => 74
    case Harvest => 70
    case CacheLookup => 104
    case CacheWait => 102
    case CacheRead => 100
    case Leave(_) => 55
    case Send(_) => 45
    case Await(_) => 42
    case Backoff(_, _) => 40
    case RevokeLookup(_, _) => 36
    case RevokeWait(_, _) => 35
    case RevokeCheck(_, _) => 34
    case Release => 15
    case Body => 12
    case Finish => 8
    case Done => 0
    case CfgWait(_) => 20
    case CfgRead => 19
    case CfgLoad(_) => 18
    case Section(_, _) => 0
  }

  function Stage(pc: Pc): nat { StageOf(Core(pc)) + if pc.Section? then pc.count else 0 }

  function Rank(t: Thread): nat { Stage(t.pc) + Bit(t.permit) }

  function Todo(t: Thread): nat {
    if t.pc.PersistFilter? || t.pc.CfgLoad? then |t.pc.todo| else 0
  }

  predicate Below(u: Thread, t: Thread) {
    Rank(u) < Rank(t) || (Rank(u) == Rank(t) && Todo(u) < Todo(t))
  }

  lemma SectionDescends(s: State, t: Thread)
    requires ShapeOk(t) && t.pc.Section?
    ensures var next := if t.pc.count > 1 then Section(t.pc.count - 1, t.pc.next) else t.pc.next;
      Below(Moved(t, Effect(next, Stay)), t)
  {
    hide Key, ValidTicket, StageOf;
  }

  lemma OpeningDescends(s: State, t: Thread, input: Input)
    requires ShapeOk(t) && AdmissionStep(s, t, input).Some? && !t.pc.Section?
    ensures Below(Moved(t, AdmissionStep(s, t, input).value), t)
  {
    hide Key, ValidTicket;
  }

  lemma AdmissionDescends(s: State, t: Thread, input: Input)
    requires ShapeOk(t) && AdmissionStep(s, t, input).Some?
    ensures Below(Moved(t, AdmissionStep(s, t, input).value), t)
  {
    if t.pc.Section? {
      hide ShapeOk, Below, Moved;
      SectionDescends(s, t);
    } else {
      OpeningDescends(s, t, input);
    }
  }

  lemma TicketDescends(s: State, t: Thread, input: Input)
    requires ShapeOk(t) && TicketStep(s, t, input).Some?
    ensures Below(Moved(t, TicketStep(s, t, input).value), t)
  {
    hide Key, ValidTicket, Importable, GrantNow;
  }

  lemma CacheDescends(s: State, t: Thread)
    requires ShapeOk(t) && CacheStep(s, t).Some?
    ensures Below(Moved(t, CacheStep(s, t).value), t)
  {
    hide Key, ValidTicket, Importable, GrantNow;
  }

  lemma HarvestDescends(s: State, t: Thread, input: Input)
    requires ShapeOk(t) && t.pc.Harvest? && HarvestStep(s, t, input).Some?
    ensures Below(Moved(t, HarvestStep(s, t, input).value), t)
  {
    hide Key, ValidTicket, Importable, GrantNow;
  }

  lemma FilterDescends(s: State, t: Thread, input: Input)
    requires t.pc.PersistFilter? && PersistStep(s, t, input).Some?
    ensures Below(Moved(t, PersistStep(s, t, input).value), t)
  {
    hide Key, ValidTicket, Keeps, NewTicket, JobKey;
  }

  lemma FileDescends(s: State, t: Thread, input: Input)
    requires !t.pc.PersistFilter? && PersistStep(s, t, input).Some?
    ensures Below(Moved(t, PersistStep(s, t, input).value), t)
  {
    hide Key, ValidTicket, Keeps, NewTicket, JobKey, JobStage;
  }

  lemma PersistDescends(s: State, t: Thread, input: Input)
    requires ShapeOk(t) && PersistStep(s, t, input).Some?
    ensures Below(Moved(t, PersistStep(s, t, input).value), t)
  {
    hide Below, Moved, PersistStep;
    if t.pc.PersistFilter? {
      FilterDescends(s, t, input);
    } else {
      FileDescends(s, t, input);
    }
  }

  lemma PublishDescends(s: State, t: Thread)
    requires ShapeOk(t) && t.pc.Publish? && PublishStep(s, t).Some?
    ensures Below(Moved(t, PublishStep(s, t).value), t)
  {
    hide Key, ValidTicket, Importable, GrantNow;
  }

  lemma UpstreamDescends(s: State, t: Thread, input: Input)
    requires ShapeOk(t) && UpstreamStep(s, t, input).Some?
    ensures Below(Moved(t, UpstreamStep(s, t, input).value), t)
  {
    hide Key, ValidTicket, Importable, GrantNow;
  }

  lemma RevokeDescends(s: State, t: Thread)
    requires ShapeOk(t) && RevokeStep(s, t).Some?
    ensures Below(Moved(t, RevokeStep(s, t).value), t)
  {
    hide Key, ValidTicket, Importable, GrantNow;
  }

  lemma ConfigDescends(s: State, t: Thread, input: Input)
    requires ShapeOk(t) && ConfigStep(s, t, input).Some?
    ensures Below(Moved(t, ConfigStep(s, t, input).value), t)
  {
    hide Key, ValidTicket, Importable, GrantNow;
  }

  lemma ThreadDescends(s: State, t: Thread, input: Input, e: Effect)
    requires ShapeOk(t) && ThreadStep(s, t, input) == Some(e)
    ensures Below(Moved(t, e), t)
  {
    hide AdmissionStep, TicketStep, CacheStep, HarvestStep, PersistStep, PublishStep, UpstreamStep, RevokeStep,
      ConfigStep, ShapeOk, Below, Moved;
    match PartOf(t.pc)
    case Admission => AdmissionDescends(s, t, input);
    case Ticketing => TicketDescends(s, t, input);
    case Caching => CacheDescends(s, t);
    case Harvesting => HarvestDescends(s, t, input);
    case Persisting => PersistDescends(s, t, input);
    case Publishing => PublishDescends(s, t);
    case Upstream => UpstreamDescends(s, t, input);
    case Revoking => RevokeDescends(s, t);
    case Configuring => ConfigDescends(s, t, input);
    case Over =>
  }

  function Sum(ts: seq<Thread>, f: Thread -> nat): nat {
    if |ts| == 0 then 0 else f(ts[0]) + Sum(ts[1..], f)
  }

  lemma {:induction false} SumUpdate(ts: seq<Thread>, i: nat, u: Thread, f: Thread -> nat)
    requires i < |ts|
    ensures Sum(ts[i := u], f) == Sum(ts, f) - f(ts[i]) + f(u)
  {
    if i == 0 {
      assert ts[i := u][1..] == ts[1..];
    } else {
      SumUpdate(ts[1..], i - 1, u, f);
      assert ts[i := u][1..] == ts[1..][i - 1 := u];
    }
  }

  /** The work left in a state: stages to go, then records to go. */
  function StagesLeft(s: State): nat { Sum(s.threads, Rank) }

  function RecordsLeft(s: State): nat { Sum(s.threads, Todo) }

  /** Every step of every call, whatever the world answers, leaves less work. */
  lemma StepsDescend(s: State, i: nat, input: Input)
    requires Safe(s) && Next(s, Run(i, input)).Some?
    ensures var s' := Next(s, Run(i, input)).value;
            StagesLeft(s') < StagesLeft(s) || (StagesLeft(s') == StagesLeft(s) && RecordsLeft(s') < RecordsLeft(s))
  {
    hide Safe, ShapeOk, ThreadStep, Stage, Moved, Todo, Rank;
    ShapesOf(s);
    var e := ThreadStep(s, s.threads[i], input).value;
    ThreadDescends(s, s.threads[i], input, e);
    SumUpdate(s.threads, i, Moved(s.threads[i], e), Rank);
    SumUpdate(s.threads, i, Moved(s.threads[i], e), Todo);
  }

  /** `acts` are steps of calls that lead from `s` to `s'`. */
  ghost predicate LeadsTo(s: State, acts: seq<Action>, s': State)
    decreases |acts|
  {
    if |acts| == 0 then s' == s
    else
      && acts[0].Run? && !acts[0].input.Cancel?
      && Next(s, acts[0]).Some?
      && LeadsTo(Next(s, acts[0]).value, acts[1..], s')
  }

  lemma {:induction false} AllCanFinish(s: State) returns (acts: seq<Action>, s': State)
    requires Safe(s)
    ensures LeadsTo(s, acts, s')
    ensures forall t | t in s'.threads :: t.pc.Done?
    decreases StagesLeft(s), RecordsLeft(s)
  {
    hide Safe, ThreadStep, Apply, StagesLeft, RecordsLeft;
    if i :| 0 <= i < |s.threads| && !s.threads[i].pc.Done? {
      var j, input := SomeCallSteps(s, i);
      var act := Run(j, input);
      StepsDescend(s, j, input);
      SafePreserved(s, act);
      var rest;
      rest, s' := AllCanFinish(Next(s, act).value);
      acts := [act] + rest;
      assert acts[1..] == rest;
    } else {
      acts, s' := [], s;
    }
  }

  /** From every reachable state all calls can be run to their end, without cancelling any. */
  lemma EveryCallCanFinish(states: seq<State>, actions: seq<Action>, n: nat) returns (acts: seq<Action>, end: State)
    requires IsRun(states, actions) && n < |states|
    ensures LeadsTo(states[n], acts, end)
    ensures forall t | t in end.threads :: t.pc.Done?
  {
    hide IsRun, Safe, LeadsTo;
    SafeAlong(states, actions, n);
    acts, end := AllCanFinish(states[n]);
  }

  // ---- all schedules ----

  /** `acts` are any steps of calls, cancelled waits included, that lead from `s` to `end`. */
  ghost predicate Schedule(s: State, acts: seq<Action>, end: State)
    decreases |acts|
  {
    if |acts| == 0 then end == s
    else acts[0].Run? && Next(s, acts[0]).Some? && Schedule(Next(s, acts[0]).value, acts[1..], end)
  }

  lemma {:induction false} ScheduleIsSafe(s: State, acts: seq<Action>, end: State)
    requires Safe(s) && Schedule(s, acts, end)
    ensures Safe(end)
    decreases |acts|
  {
    hide Safe, Next;
    if |acts| > 0 {
      SafePreserved(s, acts[0]);
      ScheduleIsSafe(Next(s, acts[0]).value, acts[1..], end);
    }
  }

  /** Every schedule that cannot be continued without cancelling a wait has finished every call. */
  lemma EveryScheduleFinishes(states: seq<State>, actions: seq<Action>, n: nat, acts: seq<Action>, end: State)
    requires IsRun(states, actions) && n < |states| && Schedule(states[n], acts, end)
    requires forall i, input :: !Moves(end, i, input)
    ensures forall t | t in end.threads :: t.pc.Done?
  {
    hide IsRun, Safe, Schedule, Moves;
    SafeAlong(states, actions, n);
    ScheduleIsSafe(states[n], acts, end);
    forall i | 0 <= i < |end.threads| ensures end.threads[i].pc.Done? {
      if !end.threads[i].pc.Done? {
        var j, input := SomeCallSteps(end, i);
      }
    }
  }

  /** The `m`-th action is a step of a call and leads to the next state. */
  ghost predicate StepsAt(s: nat -> State, a: nat -> Action, m: nat) {
    a(m).Run? && Next(s(m), a(m)) == Some(s(m + 1))
  }

  lemma {:induction false} NoEndlessSchedule(s: nat -> State, a: nat -> Action, n: nat)
    requires Safe(s(n)) && forall m: nat | m >= n :: StepsAt(s, a, m)
    ensures false
    decreases StagesLeft(s(n)), RecordsLeft(s(n))
  {
    hide Safe, Next, StagesLeft, RecordsLeft;
    assert StepsAt(s, a, n);
    assert a(n) == Run(a(n).thread, a(n).input);
    StepsDescend(s(n), a(n).thread, a(n).input);
    SafePreserved(s(n), a(n));
    NoEndlessSchedule(s, a, n + 1);
  }

  /** And no schedule goes on for ever, whatever the world answers: from a reachable state on, an
      endless sequence of states and actions is somewhere not one of steps. */
  lemma EveryScheduleEnds(
    states: seq<State>, actions: seq<Action>, n: nat, s: nat -> State, a: nat -> Action
  )
    requires IsRun(states, actions) && n < |states| && s(0) == states[n]
    ensures exists m: nat :: !StepsAt(s, a, m)
  {
    hide IsRun, Safe, StepsAt;
    SafeAlong(states, actions, n);
    if forall m: nat :: StepsAt(s, a, m) { NoEndlessSchedule(s, a, 0); }
  }
}
