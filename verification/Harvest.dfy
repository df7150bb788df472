/** Reading the event stream of a harvest: the plugin's loop and the collector's loop, one
    declarative meaning for both, and the outcome each draws from it. */
module Harvest {
  import opened Wrappers
  import opened Tickets
  import P = Plugin

  /** An event after JSON parsing.  A field that is missing reads as empty.  `error` and
      `responseError` are the codes of the two error objects, `None` for a missing or empty one. */
  datatype Event = Event(kind: string, model: string, code: string,
                         error: Option<string>, responseError: Option<string>)

  /** A line of the stream: its length, and the event if it is a `data:` line that parses. */
  datatype Line = Line(length: nat, event: Option<Event>)

  const LIMIT := 1048576

  predicate Completes(l: Line) { l.event.Some? && l.event.value.kind == "response.completed" }

  predicate Fails(l: Line) {
    l.event.Some? && l.event.value.kind in ["response.failed", "response.incomplete", "error"]
  }

  // ---- the declarative meaning ----

  ghost predicate Any(lines: seq<Line>, p: Line -> bool) { exists i | 0 <= i < |lines| :: p(lines[i]) }

  ghost predicate Completed(lines: seq<Line>) { Any(lines, Completes) }

  ghost predicate Failed(lines: seq<Line>) { Any(lines, Fails) }

  /** The model of the last completed event. */
  function LastModel(lines: seq<Line>): Option<string> {
    if |lines| == 0 then None
    else
      var last := lines[|lines| - 1];
      if Completes(last) then Some(last.event.value.model) else LastModel(lines[..|lines| - 1])
  }

  /** A complete stream without any failure, even after completion, whose last completed event
      names the requested model. */
  ghost predicate Accepted(lines: seq<Line>, model: string) {
    Completed(lines) && !Failed(lines) && LastModel(lines) == Some(model)
  }

  function Size(lines: seq<Line>): nat {
    if |lines| == 0 then 0 else Size(lines[..|lines| - 1]) + lines[|lines| - 1].length + 1
  }

  function Optional(o: Option<string>): string { if o.Some? then o.value else "" }

  predicate Contains(text: string, part: string) {
    exists i | 0 <= i <= |text| :: part <= text[i..]
  }

  function Codes(e: Event): string { Optional(e.error) + Optional(e.responseError) + e.code }

  predicate Limiting(l: Line) {
    Fails(l) && (Contains(Codes(l.event.value), "usage_limit")
                 || Contains(Codes(l.event.value), "rate_limit")
                 || Contains(Codes(l.event.value), "insufficient_quota"))
  }

  predicate Terminating(l: Line) {
    Fails(l) && (Contains(Codes(l.event.value), "invalid_api_key")
                 || Contains(Codes(l.event.value), "token_expired")
                 || Contains(Codes(l.event.value), "account_deactivated"))
  }

  ghost predicate LastAt(lines: seq<Line>, i: nat)
    requires i < |lines|
  {
    Completes(lines[i]) && forall j | i < j < |lines| :: !Completes(lines[j])
  }

  lemma {:induction false} LastModelAt(lines: seq<Line>, i: nat)
    requires i < |lines| && LastAt(lines, i)
    ensures LastModel(lines) == Some(lines[i].event.value.model)
  {
    if i < |lines| - 1 {
      LastModelAt(lines[..|lines| - 1], i);
    }
  }

  lemma {:induction false} LastExists(lines: seq<Line>) returns (i: nat)
    requires LastModel(lines).Some?
    ensures i < |lines| && LastAt(lines, i)
  {
    i := |lines| - 1;
    if !Completes(lines[i]) {
      i := LastExists(lines[..|lines| - 1]);
    }
  }

  /** What `LastModel` means by position: no completed event stands behind the one it reads. */
  lemma LastModelMeans(lines: seq<Line>, model: string)
    ensures LastModel(lines) == Some(model)
       <==> exists i | 0 <= i < |lines| :: LastAt(lines, i) && lines[i].event.value.model == model
  {
    if LastModel(lines) == Some(model) {
      var i := LastExists(lines);
      LastModelAt(lines, i);
    }
    if i :| 0 <= i < |lines| && LastAt(lines, i) && lines[i].event.value.model == model {
      LastModelAt(lines, i);
    }
  }

  /** What an event counts as, by its fields: the three kinds of failure, and in the three codes of a
      failure, one behind the other, the words of a limit and of a denial. */
  lemma EventMeans(l: Line)
    ensures Completes(l) <==> exists e :: l.event == Some(e) && e.kind == "response.completed"
    ensures Fails(l) <==>
      exists e :: l.event == Some(e)
                  && (e.kind == "response.failed" || e.kind == "response.incomplete" || e.kind == "error")
    ensures forall e: Event | l.event == Some(e) ::
      var codes := (if e.error.Some? then e.error.value else "")
                   + (if e.responseError.Some? then e.responseError.value else "") + e.code;
      && (Limiting(l) <==> Fails(l) && (Inside(codes, "usage_limit") || Inside(codes, "rate_limit")
                                        || Inside(codes, "insufficient_quota")))
      && (Terminating(l) <==> Fails(l) && (Inside(codes, "invalid_api_key") || Inside(codes, "token_expired")
                                           || Inside(codes, "account_deactivated")))
  {
    forall text, part ensures Contains(text, part) <==> Inside(text, part) { ContainsMeans(text, part); }
    hide Contains, Inside;
  }

  /** And for the collector: a failure stops it exactly if its code, of the first error object or else of
      the second, is one of six. */
  lemma StopMeans(l: Line)
    ensures forall e: Event | l.event == Some(e) ::
      var code := if e.error.Some? then e.error else e.responseError;
      Stops(l) <==>
        Fails(l) && code.Some?
        && (code.value == "usage_limit_reached" || code.value == "rate_limit_exceeded"
            || code.value == "insufficient_quota" || code.value == "invalid_api_key"
            || code.value == "token_expired" || code.value == "account_deactivated")
  {
  }

  /** The text consists of something, the part, and something. */
  ghost predicate Inside(text: string, part: string) { exists before, after :: text == before + part + after }

  lemma ContainsMeans(text: string, part: string)
    ensures Contains(text, part) <==> Inside(text, part)
  {
    if Contains(text, part) {
      var i :| 0 <= i <= |text| && part <= text[i..];
      assert text == text[..i] + part + text[i + |part|..];
    }
    if Inside(text, part) {
      var before, after :| text == before + part + after;
      assert text[|before|..] == part + after;
    }
  }

  // ---- the plugin's loop ----

  datatype Scan = TooLarge | Scanned(completed: bool, failed: bool, limited: bool, terminal: bool, matches: bool)

  ghost predicate ScanMeans(r: Scan, lines: seq<Line>, model: string) {
    if Size(lines) > LIMIT then r.TooLarge?
    else
      && r.Scanned?
      && (r.completed <==> Completed(lines))
      && (r.failed <==> Failed(lines))
      && (r.limited <==> Any(lines, Limiting))
      && (r.terminal <==> Any(lines, Terminating))
      && (r.completed && !r.failed && r.matches <==> Accepted(lines, model))
  }

  method ScanEvents(lines: seq<Line>, model: string) returns (r: Scan)
    ensures ScanMeans(r, lines, model)
  {
    hide Any, Codes, Contains;
    NothingYet(lines, Completes);
    NothingYet(lines, Fails);
    NothingYet(lines, Limiting);
    NothingYet(lines, Terminating);
    var completed, failed, limited, terminal, matches := false, false, false, false, false;
    var size := 0;
    for n := 0 to |lines|
      invariant size == Size(lines[..n]) <= LIMIT
      invariant completed <==> Completed(lines[..n])
      invariant failed <==> Failed(lines[..n])
      invariant limited <==> Any(lines[..n], Limiting)
      invariant terminal <==> Any(lines[..n], Terminating)
      invariant completed <==> LastModel(lines[..n]).Some?
      invariant completed ==> (matches <==> LastModel(lines[..n]) == Some(model))
    {
      var line := lines[n];
      size := size + line.length + 1;
      FoldsExtend(lines, n);
      AnyExtends(lines, n, Completes);
      AnyExtends(lines, n, Fails);
      AnyExtends(lines, n, Limiting);
      AnyExtends(lines, n, Terminating);
      if size > LIMIT {
        SizeGrows(lines, n + 1);
        return TooLarge;
      }
      if Completes(line) {
        completed := true;
        matches := line.event.value.model == model;
      } else if Fails(line) {
        failed := true;
        limited := limited || Limiting(line);
        terminal := terminal || Terminating(line);
      }
    }
    assert lines[..|lines|] == lines;
    return Scanned(completed, failed, limited, terminal, matches);
  }

  lemma NothingYet(lines: seq<Line>, p: Line -> bool)
    ensures !Any(lines[..0], p)
  {
  }

  lemma AnyExtends(lines: seq<Line>, n: nat, p: Line -> bool)
    requires n < |lines|
    ensures Any(lines[..n + 1], p) <==> Any(lines[..n], p) || p(lines[n])
  {
    assert lines[..n + 1][n] == lines[n];
    assert forall i | 0 <= i < n :: lines[..n + 1][i] == lines[..n][i];
  }

  lemma FoldsExtend(lines: seq<Line>, n: nat)
    requires n < |lines|
    ensures Size(lines[..n + 1]) == Size(lines[..n]) + lines[n].length + 1
    ensures LastModel(lines[..n + 1])
         == if Completes(lines[n]) then Some(lines[n].event.value.model) else LastModel(lines[..n])
    ensures LastStop(lines[..n + 1])
         == if Stops(lines[n]) then ErrorCode(lines[n].event.value) else LastStop(lines[..n])
  {
    assert lines[..n + 1][..n] == lines[..n] && lines[..n + 1][n] == lines[n];
  }

  lemma {:induction false} SizeGrows(lines: seq<Line>, n: nat)
    requires n <= |lines|
    ensures Size(lines[..n]) <= Size(lines)
    decreases |lines| - n
  {
    if n < |lines| {
      SizeGrows(lines, n + 1);
      assert lines[..n + 1][..n] == lines[..n];
    } else {
      assert lines[..n] == lines;
    }
  }

  /** The answer to a harvest request. */
  datatype Reply =
    | TransportError
    | HttpReply(status: int, state: string, lines: seq<Line>, broken: bool)

  ghost predicate Readable(reply: Reply) {
    reply.HttpReply? && reply.status == 200 && Size(reply.lines) <= LIMIT
  }

  ghost predicate Denied(reply: Reply) {
    || (reply.HttpReply? && (reply.status == 401 || reply.status == 403))
    || (Readable(reply) && Any(reply.lines, Terminating))
  }

  /** `ticket` looks for 429 and the limit codes in the text of the error.  That text also holds
      the length of the state, so a state of 429 characters counts as a limit too. */
  ghost predicate Limited(reply: Reply) {
    || (reply.HttpReply? && reply.status == 429)
    || (Readable(reply) && (Any(reply.lines, Limiting) || Contains(Decimal(|reply.state|), "429")))
  }

  /** `harvest`: what the plugin makes of a reply.  The ticket it grants is the request's own, and
      valid now; that is the only way a ticket reaches the machine of module `Plugin`. */
  method HarvestOutcome(req: P.Request, reply: Reply, now: int) returns (o: P.Outcome)
    requires |req.hash| == 64
    ensures o.Granted? <==>
              && Readable(reply) && !reply.broken && Accepted(reply.lines, req.model)
              && ParseState(reply.state).Some?
              && InWindow(ParseState(reply.state).value, now)
              && req.account > 0 && req.model != ""
    ensures o.Granted? ==>
              && (o.ticket.account, o.ticket.model, o.ticket.hash) == (req.account, req.model, req.hash)
              && o.ticket.value == reply.state
              && ValidTicket(o.ticket, now)
    ensures o.Refused? ==> (o.terminal <==> Denied(reply)) && (o.limited <==> Limited(reply))
    ensures !o.NoClient?
  {
    if reply.TransportError? {
      return P.Refused(false, false);
    }
    var terminal := reply.status == 401 || reply.status == 403;
    if reply.status != 200 {
      return P.Refused(terminal, reply.status == 429);
    }
    var scan := ScanEvents(reply.lines, req.model);
    if scan.TooLarge? {
      return P.Refused(false, false);
    }
    terminal := terminal || scan.terminal;
    var parsed := ParseState(reply.state);
    var t := Ticket(req.account, req.model, req.hash, reply.state, if parsed.Some? then parsed.value else 0);
    if reply.broken || !scan.completed || scan.failed || !scan.matches || parsed.None? || !ValidTicket(t, now) {
      return P.Refused(terminal, scan.limited || Contains(Decimal(|reply.state|), "429"));
    }
    return P.Granted(t);
  }

  // ---- the collector's loop ----

  /** What `request` reports; a key that Python leaves out of the dictionary is `None` or false. */
  datatype Probe = Probe(completed: bool, actualModel: Option<string>, stop: bool, authBlock: bool, cooldown: int)

  const STOP_CODES := ["usage_limit_reached", "rate_limit_exceeded", "insufficient_quota",
                       "invalid_api_key", "token_expired", "account_deactivated"]
  const AUTH_CODES := ["invalid_api_key", "token_expired", "account_deactivated"]

  /** The code the collector reads from a failure event. */
  function ErrorCode(e: Event): Option<string> {
    if e.error.Some? then e.error else e.responseError
  }

  predicate Stops(l: Line) {
    Fails(l) && ErrorCode(l.event.value).Some? && ErrorCode(l.event.value).value in STOP_CODES
  }

  /** The code of the last event that stops the collector. */
  function LastStop(lines: seq<Line>): Option<string> {
    if |lines| == 0 then None
    else
      var last := lines[|lines| - 1];
      if Stops(last) then ErrorCode(last.event.value) else LastStop(lines[..|lines| - 1])
  }

  /** What an HTTP status alone asks for: the pause of a 401, 403 or 429, in seconds, from the
      parsed error body and headers if they parse. */
  function StatusCooldown(hint: Option<int>): (c: int)
    ensures c >= 300
  {
    match hint
    case None => 3600
    case Some(seconds) => if seconds > 300 then seconds else 300
  }

  /** Whether the credentials are blocked: by the last stopping event, or else by the status. */
  predicate Blocks(code: int, last: Option<string>) {
    if last.Some? then last.value in AUTH_CODES else code == 401 || code == 403
  }

  predicate StopStatus(code: int) { code == 401 || code == 403 || code == 429 }

  ghost predicate ProbeMeans(p: Probe, code: int, hint: Option<int>, lines: seq<Line>, exitCode: int) {
    && (p.completed <==> Completed(lines) && !Failed(lines) && exitCode == 0)
    && p.actualModel == LastModel(lines)
    && (p.stop <==> StopStatus(code) || Any(lines, Stops))
    && (p.authBlock <==> Blocks(code, LastStop(lines)))
    && (p.authBlock ==> p.stop)
    && (p.stop ==> p.cooldown == if LastStop(lines).Some? || hint.None? then 3600
                                 else if hint.value > 300 then hint.value else 300)
  }

  method ProbeEvents(code: int, hint: Option<int>, lines: seq<Line>, exitCode: int) returns (p: Probe)
    ensures ProbeMeans(p, code, hint, lines, exitCode)
  {
    hide Any;
    NothingYet(lines, Completes);
    NothingYet(lines, Fails);
    NothingYet(lines, Stops);
    var stop, authBlock, cooldown := false, false, 0;
    if StopStatus(code) {
      stop, authBlock, cooldown := true, code == 401 || code == 403, StatusCooldown(hint);
    }
    var complete, failed := false, false;
    var model: Option<string> := None;
    for n := 0 to |lines|
      invariant complete <==> Completed(lines[..n])
      invariant failed <==> Failed(lines[..n])
      invariant model == LastModel(lines[..n])
      invariant stop <==> StopStatus(code) || Any(lines[..n], Stops)
      invariant LastStop(lines[..n]).Some? ==> stop
      invariant authBlock <==> Blocks(code, LastStop(lines[..n]))
      invariant stop ==> cooldown == if LastStop(lines[..n]).Some? then 3600 else StatusCooldown(hint)
    {
      var line := lines[n];
      FoldsExtend(lines, n);
      AnyExtends(lines, n, Completes);
      AnyExtends(lines, n, Fails);
      AnyExtends(lines, n, Stops);
      if Completes(line) {
        complete := true;
        model := Some(line.event.value.model);
      }
      if Fails(line) {
        failed := true;
        if Stops(line) {
          stop, authBlock, cooldown := true, ErrorCode(line.event.value).value in AUTH_CODES, 3600;
        }
      }
    }
    assert lines[..|lines|] == lines;
    p := Probe(complete && !failed && exitCode == 0, model, stop, authBlock, cooldown);
  }

  lemma InsideCodes(e: Event)
    requires ErrorCode(e).Some?
    ensures Contains(Codes(e), ErrorCode(e).value)
  {
    ContainsMeans(Codes(e), ErrorCode(e).value);
    hide Contains;
    var first, second := Optional(e.error), Optional(e.responseError);
    if e.error.Some? {
      assert Codes(e) == "" + first + (second + e.code);
      assert Inside(Codes(e), first);
    } else {
      assert Inside(Codes(e), second);
    }
  }

  lemma PrefixInside(text: string, whole: string, part: string)
    requires Contains(text, whole) && part <= whole
    ensures Contains(text, part)
  {
    var i :| 0 <= i <= |text| && whole <= text[i..];
    assert part <= text[i..];
  }

  /** An event that stops the collector makes the plugin treat the credentials as denied or
      limited: as denied when the collector blocks them. */
  lemma StopsCount(l: Line)
    requires Stops(l)
    ensures ErrorCode(l.event.value).value in AUTH_CODES ==> Terminating(l)
    ensures Terminating(l) || Limiting(l)
  {
    hide Contains;
    var e := l.event.value;
    InsideCodes(e);
    if ErrorCode(e).value == STOP_CODES[0] {
      PrefixInside(Codes(e), ErrorCode(e).value, "usage_limit");
    } else if ErrorCode(e).value == STOP_CODES[1] {
      PrefixInside(Codes(e), ErrorCode(e).value, "rate_limit");
    }
  }

  lemma {:induction false} LastStopExists(lines: seq<Line>) returns (i: nat)
    requires LastStop(lines).Some?
    ensures i < |lines| && Stops(lines[i]) && ErrorCode(lines[i].event.value) == LastStop(lines)
  {
    i := |lines| - 1;
    if !Stops(lines[i]) {
      i := LastStopExists(lines[..|lines| - 1]);
    }
  }

  /** The two loops agree on every stream within the plugin's size limit: they accept the same
      streams, and one that stops the collector without a stop status is denied or limited for the
      plugin, denied if the collector blocks the credentials. */
  lemma LoopsAgree(lines: seq<Line>, model: string, code: int, hint: Option<int>, scan: Scan, probe: Probe)
    requires Size(lines) <= LIMIT
    requires ScanMeans(scan, lines, model) && ProbeMeans(probe, code, hint, lines, 0)
    ensures scan.completed && !scan.failed && scan.matches
       <==> probe.completed && probe.actualModel == Some(model)
    ensures probe.stop && !StopStatus(code) ==> scan.terminal || scan.limited
    ensures probe.authBlock && !StopStatus(code) ==> scan.terminal
  {
    hide Stops, Terminating, Limiting;
    if Any(lines, Stops) {
      var i :| 0 <= i < |lines| && Stops(lines[i]);
      StopsCount(lines[i]);
    }
    if LastStop(lines).Some? {
      var i := LastStopExists(lines);
      StopsCount(lines[i]);
    }
  }
}
