/** What any sequence of the collector's turns for one account and credential keeps. */
module CollectorRuns {
  import opened Wrappers
  import opened Tickets
  import opened Rotation
  import opened Sequences
  import opened Base64
  import opened TicketTexts
  import opened Collector
  import H = Harvest

  datatype Call = Call(routes: seq<Route>, world: World)

  /** The clock runs forward within a call, the interval is one of the two the scheduler uses, and a
      stop asks for at least five minutes, as `StopsPause` shows of every probe. */
  predicate Sane(w: World) {
    && w.now <= w.started <= w.captured <= w.verified
    && (w.interval == 20 || w.interval == 300)
    && (Captured(w).stop ==> Captured(w).cooldown >= 300)
    && (Verified(w).stop ==> Verified(w).cooldown >= 300)
  }

  lemma StopsPause(p: H.Probe, code: int, hint: Option<int>, lines: seq<H.Line>, exitCode: int)
    requires H.ProbeMeans(p, code, hint, lines, exitCode)
    ensures p.stop ==> p.cooldown >= 300
  {
    hide H.LastStop, H.Any, H.LastModel;
  }

  function RetryInterval(status: string): (s: int)
    ensures s == 20 || s == 300
    ensures s == 20 <==> status == "missing"
  {
    if status == "missing" then 20 else 300
  }

  /** The turn that call `n` is, and the schedule before it. */
  function At(a: Account, st: Schedule, calls: seq<Call>, n: nat): Schedule
    requires n <= |calls|
    decreases n, 0
  {
    if n == 0 then st else TurnAt(a, st, calls, n - 1).schedule
  }

  function TurnAt(a: Account, st: Schedule, calls: seq<Call>, n: nat): Turned
    requires n < |calls|
    decreases n, 1
  {
    Turn(a, calls[n].routes, At(a, st, calls, n), calls[n].world)
  }

  predicate HasStopped(t: Turned) {
    t.report.Tried? && exists p | p in t.report.probes :: p.stop
  }

  /** When a turn lets the account try again: the cooldown of the probe that stopped it behind the end
      of that probe, or else the interval behind its start. */
  function Until(probes: seq<H.Probe>, w: World): int {
    if |probes| == 1 && probes[0].stop then w.captured + probes[0].cooldown * 1_000_000_000
    else if |probes| == 2 && probes[1].stop then w.verified + probes[1].cooldown * 1_000_000_000
    else w.started + w.interval * 1_000_000_000
  }

  /** What a turn does, case by case: it pauses, it has no time left, it gets no route or no time for
      one, or it probes the route that is next, a second time exactly if the first probe did not stop,
      completed with the required model, and brought a text that carries a recent issue time. */
  lemma TurnExactly(a: Account, routes: seq<Route>, st: Schedule, w: World)
    ensures var t := Turn(a, routes, st, w);
      && (t.report.Paused? <==> st.authBlock || w.now < st.nextAttempt)
      && (t.report.Exhausted? <==> !st.authBlock && st.nextAttempt <= w.now && w.deadline < w.mono)
      && (!t.report.Tried? ==> t.schedule == st)
    ensures var t := Turn(a, routes, st, w);
      t.report.Tried? ==>
        && (t.report.route.None? <==>
              OrderRoutes(routes, st.position) == [] || w.deadline < w.loopMono + 65 * 1_000_000_000)
        && (t.report.route.None? ==> t.report.probes == [] && t.schedule.position == st.position)
        && (t.report.route.Some? ==> OrderRoutes(routes, st.position) == [t.report.route.value])
        && (t.report.route.Some? ==>
              var missed := Missed(routes, st.position, t.report.route.value);
              t.schedule.position == if t.report.queued.None? then missed
                                     else missed.(preferred := Some(t.report.route.value.key)))
        && t.schedule.nextAttempt == Until(t.report.probes, w)
    ensures var t, nothing := Turn(a, routes, st, w), H.Probe(false, None, false, false, 0);
      var c := if w.capture.Some? then w.capture.value.probe else nothing;
      t.report.Tried? && t.report.route.Some? ==>
        t.report.probes ==
          if !c.stop && c.completed && c.actualModel == Some("gpt-6-astra") && Recent(w.capture.value.value, w)
          then [c, if w.verify.Some? then w.verify.value else nothing] else [c]
  {
    hide OrderRoutes, Missed, Candidate;
    AtMostOne(routes, st.position);
    FoundMeans(a, w);
  }

  /** The text carries an issue time less than 3000 s before the first reading of the clock and at most
      30 s behind the second. */
  ghost predicate Recent(value: string, w: World) {
    exists issued ::
      && Carries(Lenient, value, issued)
      && w.judged < (issued + 3000) * 1_000_000_000 && issued * 1_000_000_000 <= w.judgedAgain + 30_000_000_000
  }

  lemma FoundMeans(a: Account, w: World)
    ensures Found(a, w).Some? <==> Recent(CapturedValue(w), w)
  {
    hide Candidate, Carries;
    var value := CapturedValue(w);
    if Found(a, w).Some? {
      CandidateMeans(a.id, MODEL, a.hash, value, w.judged, w.judgedAgain, Found(a, w).value);
    }
    if Recent(value, w) {
      var issued :|
        && Carries(Lenient, value, issued)
        && w.judged < (issued + 3000) * 1_000_000_000 && issued * 1_000_000_000 <= w.judgedAgain + 30_000_000_000;
      CandidateMeans(a.id, MODEL, a.hash, value, w.judged, w.judgedAgain, Ticket(a.id, MODEL, a.hash, value, issued));
    }
  }

  lemma TurnMovesOn(a: Account, routes: seq<Route>, st: Schedule, w: World)
    requires Sane(w)
    ensures var t := Turn(a, routes, st, w);
      && t.schedule.nextAttempt >= st.nextAttempt
      && (t.report.Tried? ==>
            && w.now >= st.nextAttempt && !st.authBlock
            && t.schedule.nextAttempt == Until(t.report.probes, w) >= w.started + w.interval * SECOND
            && (HasStopped(t) ==> t.schedule.nextAttempt >= w.captured + 300 * SECOND))
  {
    hide OrderRoutes, Missed, Candidate;
  }

  lemma {:induction false} NextAttemptNeverDecreases(a: Account, st: Schedule, calls: seq<Call>, m: nat, n: nat)
    requires m <= n <= |calls|
    requires forall c | c in calls :: Sane(c.world)
    ensures At(a, st, calls, m).nextAttempt <= At(a, st, calls, n).nextAttempt
  {
    if m < n {
      NextAttemptNeverDecreases(a, st, calls, m, n - 1);
      TurnMovesOn(a, calls[n - 1].routes, At(a, st, calls, n - 1), calls[n - 1].world);
    }
  }

  /** Of two calls that reach the route loop the later one starts when the earlier one allows it: an
      interval later, or after the cooldown of the probe that stopped it, five minutes or more. */
  lemma CallsAreSpaced(a: Account, st: Schedule, calls: seq<Call>, m: nat, n: nat)
    requires m < n < |calls|
    requires forall c | c in calls :: Sane(c.world)
    requires TurnAt(a, st, calls, m).report.Tried? && TurnAt(a, st, calls, n).report.Tried?
    ensures calls[n].world.now >= Until(TurnAt(a, st, calls, m).report.probes, calls[m].world)
         >= calls[m].world.started + calls[m].world.interval * SECOND
    ensures HasStopped(TurnAt(a, st, calls, m)) ==> calls[n].world.now >= calls[m].world.captured + 300 * SECOND
  {
    hide Turn, HasStopped;
    TurnMovesOn(a, calls[m].routes, At(a, st, calls, m), calls[m].world);
    NextAttemptNeverDecreases(a, st, calls, m + 1, n);
    TurnMovesOn(a, calls[n].routes, At(a, st, calls, n), calls[n].world);
  }

  /** Once the credentials are blocked no later call sends a request or changes anything. */
  lemma {:induction false} AuthBlockAbsorbs(a: Account, st: Schedule, calls: seq<Call>, m: nat, n: nat)
    requires m <= n <= |calls| && At(a, st, calls, m).authBlock
    ensures At(a, st, calls, n) == At(a, st, calls, m)
    ensures n < |calls| ==> TurnAt(a, st, calls, n).report == Paused
  {
    hide OnRoute, OrderRoutes;
    if m < n {
      AuthBlockAbsorbs(a, st, calls, m, n - 1);
    }
  }

  /** The credentials are blocked exactly by a probe that stops and says so. */
  lemma BlockHasCause(a: Account, routes: seq<Route>, st: Schedule, w: World)
    requires !st.authBlock
    ensures var t := Turn(a, routes, st, w);
      t.schedule.authBlock <==> t.report.Tried? && exists p | p in t.report.probes :: p.stop && p.authBlock
  {
    hide OrderRoutes, Missed, Candidate, Good;
    var t := Turn(a, routes, st, w);
    if t.schedule.authBlock {
      assert t.report.probes[|t.report.probes| - 1].authBlock;
    }
  }

  /** A ticket is handed over only after a capture and a verification on the same route in the same
      call, both complete with the required model, and neither of them a stop.  The route is the
      preferred one afterwards exactly if it brought a ticket. */
  lemma QueuedIsVerified(a: Account, routes: seq<Route>, st: Schedule, w: World)
    requires Turn(a, routes, st, w).report.Tried?
    ensures var report := Turn(a, routes, st, w).report;
      report.queued.Some? <==>
        && report.route.Some? && report.probes == [Captured(w), Verified(w)]
        && (forall p | p in report.probes :: Good(p) && !p.stop)
    ensures var report := Turn(a, routes, st, w).report;
      report.queued.Some? ==>
        && report.route.value in routes
        && report.queued == Candidate(a.id, MODEL, a.hash, CapturedValue(w), w.judged, w.judgedAgain)
    ensures var report := Turn(a, routes, st, w).report;
      report.route.Some? ==>
        (Turn(a, routes, st, w).schedule.position.preferred == Some(report.route.value.key) <==> report.queued.Some?)
  {
    hide OrderRoutes, Missed, Candidate, Good;
    AtMostOne(routes, st.position);
    var report := Turn(a, routes, st, w).report;
    if report.route.Some? {
      MissedShape(routes, st.position, IndexOf(routes, report.route.value));
      QueuedOnRoute(a, Schedule(Missed(routes, st.position, report.route.value), w.started + w.interval * SECOND,
                                st.authBlock), report.route.value, w);
    }
  }

  lemma QueuedOnRoute(a: Account, st: Schedule, r: Route, w: World)
    ensures var report := OnRoute(a, st, r, w).report;
      report.queued.Some? <==>
        && report.probes == [Captured(w), Verified(w)]
        && (forall p | p in report.probes :: Good(p) && !p.stop)
  {
    hide Candidate, Good;
    assert [Captured(w), Verified(w)][0] == Captured(w) && [Captured(w), Verified(w)][1] == Verified(w);
  }

  /** The candidate files after the first `n` calls, as `Collect` leaves them. */
  function IncomingAt(a: Account, st: Schedule, calls: seq<Call>, incoming: map<string, Ticket>, n: nat)
    : map<string, Ticket>
    requires n <= |calls|
  {
    if n == 0 then incoming
    else
      var prior, report := IncomingAt(a, st, calls, incoming, n - 1), TurnAt(a, st, calls, n - 1).report;
      if report.Tried? && report.queued.Some? then prior[KeyOf(report.queued.value) := report.queued.value] else prior
  }

  /** Over any calls, a candidate file that was not there before comes from one call that captured
      the ticket and verified it on the same route. */
  lemma {:induction false} IncomingIsVerified(a: Account, st: Schedule, calls: seq<Call>, incoming: map<string, Ticket>,
                                              n: nat, k: string) returns (m: nat)
    requires n <= |calls|
    requires k in IncomingAt(a, st, calls, incoming, n)
    requires k !in incoming || incoming[k] != IncomingAt(a, st, calls, incoming, n)[k]
    ensures m < n && TurnAt(a, st, calls, m).report.Tried?
    ensures var report, w := TurnAt(a, st, calls, m).report, calls[m].world;
      && report.queued == Some(IncomingAt(a, st, calls, incoming, n)[k]) && KeyOf(report.queued.value) == k
      && report.route.Some? && report.probes == [Captured(w), Verified(w)]
      && (forall p | p in report.probes :: Good(p) && !p.stop)
  {
    hide Turn, Good, KeyOf;
    var report := TurnAt(a, st, calls, n - 1).report;
    if report.Tried? && report.queued.Some? && KeyOf(report.queued.value) == k {
      m := n - 1;
      QueuedIsVerified(a, calls[m].routes, At(a, st, calls, m), calls[m].world);
    } else {
      m := IncomingIsVerified(a, st, calls, incoming, n - 1, k);
    }
  }

  // ---- rotation over whole runs ----

  /** The routes tried by the first `n` calls, in order. */
  function Visited(a: Account, st: Schedule, calls: seq<Call>, n: nat): seq<Route>
    requires n <= |calls|
  {
    if n == 0 then []
    else
      var t := TurnAt(a, st, calls, n - 1);
      Visited(a, st, calls, n - 1) + if t.report.Tried? && t.report.route.Some? then [t.report.route.value] else []
  }

  predicate Captures(t: Turned) { t.report.Tried? && t.report.queued.Some? }

  lemma TurnMisses(a: Account, routes: seq<Route>, st: Schedule, w: World)
    requires !Captures(Turn(a, routes, st, w))
    ensures var t := Turn(a, routes, st, w);
      if t.report.Tried? && t.report.route.Some?
      then && OrderRoutes(routes, st.position) == [t.report.route.value]
           && t.report.route.value in routes
           && t.schedule.position == Missed(routes, st.position, t.report.route.value)
      else t.schedule.position == st.position
  {
    hide OrderRoutes, Missed, Candidate, Good;
    AtMostOne(routes, st.position);
  }

  /** The position after `k` attempts that bring nothing. */
  ghost function Rotate(routes: seq<Route>, at: Position, k: nat): Position
    requires Distinct(routes) && routes != []
    decreases k
  {
    if k == 0 then at
    else
      Rotate(routes, Missed(routes, at, Choice(routes, at)), k - 1)
  }

  lemma {:induction false} AttemptsExtend(routes: seq<Route>, at: Position, k: nat)
    requires Distinct(routes) && routes != []
    ensures |OrderRoutes(routes, Rotate(routes, at, k))| == 1
    ensures OrderRoutes(routes, Rotate(routes, at, k))[0] in routes
    ensures var r := OrderRoutes(routes, Rotate(routes, at, k))[0];
      && Attempts(routes, at, k + 1) == Attempts(routes, at, k) + [r]
      && Rotate(routes, at, k + 1) == Missed(routes, Rotate(routes, at, k), r)
    decreases k
  {
    hide OrderRoutes, Missed, Distinct;
    OneRoute(routes, Rotate(routes, at, k));
    OneRoute(routes, at);
    var next := Missed(routes, at, OrderRoutes(routes, at)[0]);
    if k > 0 {
      AttemptsExtend(routes, next, k - 1);
    } else {
      assert Rotate(routes, at, 1) == Rotate(routes, next, 0);
    }
  }

  /** As long as nothing is captured the calls visit exactly the attempts of module `Rotation`,
      whatever pauses, deadlines and stops come between. */
  lemma {:induction false} VisitedAreAttempts(a: Account, routes: seq<Route>, st: Schedule, calls: seq<Call>, n: nat)
    requires Distinct(routes) && routes != [] && n <= |calls|
    requires forall c | c in calls :: c.routes == routes
    requires forall m | 0 <= m < n :: !Captures(TurnAt(a, st, calls, m))
    ensures Visited(a, st, calls, n) == Attempts(routes, st.position, |Visited(a, st, calls, n)|)
    ensures At(a, st, calls, n).position == Rotate(routes, st.position, |Visited(a, st, calls, n)|)
  {
    hide Turn, OrderRoutes, Missed, Distinct, Captures;
    if n == 0 {
      NoAttempts(routes, st.position);
    } else {
      VisitedAreAttempts(a, routes, st, calls, n - 1);
      var seen := Visited(a, st, calls, n - 1);
      assert !Captures(TurnAt(a, st, calls, n - 1));
      TurnMisses(a, calls[n - 1].routes, At(a, st, calls, n - 1), calls[n - 1].world);
      AttemptsExtend(routes, st.position, |seen|);
    }
  }

  lemma {:induction false} AttemptsGrow(routes: seq<Route>, at: Position, k: nat, l: nat, r: Route)
    requires Distinct(routes) && routes != [] && k <= l && r in Attempts(routes, at, k)
    ensures r in Attempts(routes, at, l)
    decreases l
  {
    hide OrderRoutes, Missed, Distinct;
    if k < l {
      AttemptsGrow(routes, at, k, l - 1, r);
      AttemptsExtend(routes, at, l - 1);
    }
  }

  /** Rotation fairness over whole runs: with a fixed list of n routes without a generator, calls
      that made n + 1 attempts and captured nothing have tried every route. */
  lemma RunsAreFair(a: Account, routes: seq<Route>, st: Schedule, calls: seq<Call>, r: Route)
    requires Distinct(routes) && Find(routes, Generates).None? && r in routes
    requires forall c | c in calls :: c.routes == routes
    requires forall m | 0 <= m < |calls| :: !Captures(TurnAt(a, st, calls, m))
    requires |Visited(a, st, calls, |calls|)| > |routes|
    ensures r in Visited(a, st, calls, |calls|)
  {
    hide Turn, OrderRoutes, Missed, Distinct, Captures;
    VisitedAreAttempts(a, routes, st, calls, |calls|);
    Fairness(routes, st.position, r);
    AttemptsGrow(routes, st.position, |routes| + 1, |Visited(a, st, calls, |calls|)|, r);
  }
}
