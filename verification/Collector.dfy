/** `collect`: one turn of the collector for an account, and what runs of turns keep.  Times are in
    nanoseconds. */
module Collector {
  import opened Wrappers
  import opened Tickets
  import opened Rotation
  import opened Sequences
  import H = Harvest

  const MODEL := "gpt-6-astra"
  const PROBE_BUDGET := 65 * SECOND

  datatype Account = Account(id: int, hash: string)

  /** What the collector remembers for one account and credential. */
  datatype Schedule = Schedule(position: Position, nextAttempt: int, authBlock: bool)

  const UNSEEN := Schedule(START, 0, false)

  /** A completed `request`: its report and the state header it found. */
  datatype Reply = Reply(probe: H.Probe, value: string)

  /** What a `request` that raises is reported as. */
  const RAISED := H.Probe(false, None, false, false, 0)

  /** What the world contributes to one call: the readings of the wall clock and of the monotonic
      clock in the order in which they are taken, the answers to the two requests (`None` when the
      request raises), and the caller's deadline and interval. */
  datatype World = World(now: int, mono: int, started: int, loopMono: int,
                         capture: Option<Reply>, captured: int, judged: int, judgedAgain: int,
                         verify: Option<H.Probe>, verified: int, deadline: int, interval: int)

  datatype Report =
    | Paused
    | Exhausted
    | Tried(route: Option<Route>, probes: seq<H.Probe>, queued: Option<Ticket>)

  datatype Turned = Turned(schedule: Schedule, report: Report)

  function Captured(w: World): H.Probe { if w.capture.Some? then w.capture.value.probe else RAISED }

  function CapturedValue(w: World): string { if w.capture.Some? then w.capture.value.value else "" }

  function Verified(w: World): H.Probe { if w.verify.Some? then w.verify.value else RAISED }

  /** Complete, with the required model. */
  predicate Good(p: H.Probe) { p.completed && p.actualModel == Some(MODEL) }

  function Found(a: Account, w: World): Option<Ticket> {
    Candidate(a.id, MODEL, a.hash, CapturedValue(w), w.judged, w.judgedAgain)
  }

  function Stopped(st: Schedule, p: H.Probe, now: int): Schedule {
    st.(authBlock := p.authBlock, nextAttempt := now + p.cooldown * SECOND)
  }

  /** A turn that reached its route. */
  function OnRoute(a: Account, st: Schedule, r: Route, w: World): Turned {
    var c, v := Captured(w), Verified(w);
    if c.stop then Turned(Stopped(st, c, w.captured), Tried(Some(r), [c], None))
    else if Found(a, w).None? || !Good(c) then Turned(st, Tried(Some(r), [c], None))
    else if v.stop then Turned(Stopped(st, v, w.verified), Tried(Some(r), [c, v], None))
    else if Good(v) then
      Turned(st.(position := st.position.(preferred := Some(r.key))), Tried(Some(r), [c, v], Found(a, w)))
    else Turned(st, Tried(Some(r), [c, v], None))
  }

  function Turn(a: Account, routes: seq<Route>, st: Schedule, w: World): Turned {
    if st.authBlock || st.nextAttempt > w.now then Turned(st, Paused)
    else if w.mono > w.deadline then Turned(st, Exhausted)
    else
      var begun := st.(nextAttempt := w.started + w.interval * SECOND);
      var ordered := OrderRoutes(routes, st.position);
      AtMostOne(routes, st.position);
      if ordered == [] || w.loopMono + PROBE_BUDGET > w.deadline
      then Turned(begun, Tried(None, [], None))
      else OnRoute(a, begun.(position := Missed(routes, st.position, ordered[0])), ordered[0], w)
  }

  class Collector {
    var schedules: map<string, Schedule>
    /** The candidate files, by the key whose digest is their name. */
    var incoming: map<string, Ticket>

    constructor ()
      ensures schedules == map[] && incoming == map[]
    {
      schedules, incoming := map[], map[];
    }

    static function Name(a: Account): string { Decimal(a.id) + ":" + a.hash }

    function ScheduleOf(a: Account): Schedule
      reads this
    {
      if Name(a) in schedules then schedules[Name(a)] else UNSEEN
    }

    ghost predicate Files(report: Report, before: map<string, Ticket>)
      reads this
    {
      incoming == if report.Tried? && report.queued.Some?
                  then before[KeyOf(report.queued.value) := report.queued.value]
                  else before
    }

    /** The body of the loop; `last` when it leaves the loop. */
    method Probe(a: Account, routes: seq<Route>, route: Route, w: World) returns (report: Report, last: bool)
      requires route in routes && Name(a) in schedules
      modifies this
      ensures var st := old(schedules[Name(a)]);
        var turn := OnRoute(a, st.(position := Missed(routes, st.position, route)), route, w);
        report == turn.report && schedules == old(schedules)[Name(a) := turn.schedule]
      ensures Files(report, old(incoming))
    {
      hide Missed, Candidate, KeyOf, Name;
      var st := schedules[Name(a)];
      st := st.(position := Missed(routes, st.position, route));
      schedules := schedules[Name(a) := st];
      var probe, value := Captured(w), CapturedValue(w);
      report, last := Tried(Some(route), [probe], None), false;
      if probe.stop {
        schedules, last := schedules[Name(a) := Stopped(st, probe, w.captured)], true;
        return;
      }
      var ticket := Candidate(a.id, MODEL, a.hash, value, w.judged, w.judgedAgain);
      if ticket.None? || !Good(probe) {
        return;
      }
      var again := Verified(w);
      report := Tried(Some(route), [probe, again], None);
      if again.stop {
        schedules, last := schedules[Name(a) := Stopped(st, again, w.verified)], true;
      } else if Good(again) {
        incoming := incoming[KeyOf(ticket.value) := ticket.value];
        schedules, last := schedules[Name(a) := st.(position := st.position.(preferred := Some(route.key)))], true;
        report := report.(queued := ticket);
      }
    }

    /** The loop runs over the one route `OrderRoutes` picks. */
    method Collect(a: Account, routes: seq<Route>, w: World) returns (report: Report)
      modifies this
      ensures var turn := Turn(a, routes, old(ScheduleOf(a)), w);
        report == turn.report && schedules == old(schedules)[Name(a) := turn.schedule]
      ensures Files(report, old(incoming))
    {
      hide OrderRoutes, Missed, OnRoute, KeyOf, Name;
      var st := ScheduleOf(a);
      schedules := schedules[Name(a) := st];
      if st.authBlock || st.nextAttempt > w.now {
        return Paused;
      }
      if w.mono > w.deadline {
        return Exhausted;
      }
      schedules := schedules[Name(a) := st.(nextAttempt := w.started + w.interval * SECOND)];
      var ordered := OrderRoutes(routes, st.position);
      AtMostOne(routes, st.position);
      report := Tried(None, [], None);
      var i := 0;
      while i < |ordered|
        invariant 0 <= i <= |ordered|
        invariant i == 0 ==>
                    && report == Tried(None, [], None) && incoming == old(incoming)
                    && schedules == old(schedules)[Name(a) := st.(nextAttempt := w.started + w.interval * SECOND)]
        invariant i == 1 ==>
                    && report == Turn(a, routes, st, w).report && Files(report, old(incoming))
                    && schedules == old(schedules)[Name(a) := Turn(a, routes, st, w).schedule]
      {
        if w.loopMono + PROBE_BUDGET > w.deadline {
          break;
        }
        var last;
        report, last := Probe(a, routes, ordered[i], w);
        i := i + 1;
        if last {
          break;
        }
      }
    }
  }

  lemma AtMostOne(routes: seq<Route>, at: Position)
    ensures |OrderRoutes(routes, at)| <= 1
    ensures forall r | r in OrderRoutes(routes, at) :: r in routes
  {
    if routes != [] {
      hide Ranked, Filter;
      forall r | r in OrderRoutes(routes, at) ensures r in routes {
        FilterMember(Ranked(routes, at), (x: Route) => Some(x.key) != at.lastRoute, r);
        RankedMember(routes, at, r);
      }
    }
  }
}
