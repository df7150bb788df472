/** The frames of one forwarded request: what `Forward` receives, sends upstream and sends back. */
module Stream {
  import B = Base64

  type Byte = B.Byte

  const BODY_LIMIT := 0x1000_0000
  const BUFFER := 32 * 1024

  /** A frame from the host; one that carries neither a start, a chunk nor the end of the body
      counts as an empty chunk. */
  datatype Received = Opening | Data(bytes: seq<Byte>) | BodyEnd

  /** A frame to the host.  A chunk is memory of its own, as the host reads it later. */
  datatype Frame =
    | Start(status: int)
    | Chunk(data: array<Byte>)
    | End(received: nat)
    | Error(code: string, requestSent: bool)

  /** What the reader of the upstream body returns: filled reads, then a last one with the end of
      the body or an error.  Any of them may be empty. */
  datatype Answer =
    | TransportError
    | Answer(status: int, parts: seq<seq<Byte>>, last: seq<Byte>, broken: bool)

  function Flat(parts: seq<seq<Byte>>): seq<Byte> {
    if parts == [] then [] else Flat(parts[..|parts| - 1]) + parts[|parts| - 1]
  }

  // ---- the protocol ----

  datatype Phase = Silent | Streaming | Over | Broken

  function Advance(p: Phase, f: Frame): Phase {
    match (p, f)
    case (Silent, Start(_)) => Streaming
    case (Silent, Error(_, _)) => Over
    case (Streaming, Chunk(_)) => Streaming
    case (Streaming, End(_)) => Over
    case (Streaming, Error(_, _)) => Over
    case _ => Broken
  }

  function PhaseOf(frames: seq<Frame>): Phase {
    if frames == [] then Silent else Advance(PhaseOf(frames[..|frames| - 1]), frames[|frames| - 1])
  }

  ghost predicate Complete(frames: seq<Frame>) {
    || (|frames| == 1 && frames[0].Error?)
    || (&& |frames| >= 2 && frames[0].Start?
        && (frames[|frames| - 1].End? || frames[|frames| - 1].Error?)
        && forall i | 0 < i < |frames| - 1 :: frames[i].Chunk?)
  }

  lemma {:induction false} PhaseShape(frames: seq<Frame>)
    ensures PhaseOf(frames).Silent? <==> frames == []
    ensures PhaseOf(frames).Streaming? <==>
      frames != [] && frames[0].Start? && forall i | 0 < i < |frames| :: frames[i].Chunk?
    ensures PhaseOf(frames).Over? <==> Complete(frames)
  {
    if frames != [] {
      PhaseShape(frames[..|frames| - 1]);
    }
  }

  lemma PhaseAppend(frames: seq<Frame>, f: Frame)
    ensures PhaseOf(frames + [f]) == Advance(PhaseOf(frames), f)
  {
    assert (frames + [f])[..|frames|] == frames;
  }

  lemma {:induction false} BrokenStays(frames: seq<Frame>, n: nat)
    requires n <= |frames|
    ensures PhaseOf(frames[..n]).Broken? ==> PhaseOf(frames).Broken?
    decreases |frames| - n
  {
    if n < |frames| {
      assert frames[..n + 1][..n] == frames[..n];
      BrokenStays(frames, n + 1);
    } else {
      assert frames[..n] == frames;
    }
  }

  /** The automaton accepts exactly the beginnings of complete answers: Start Chunk* End, Start
      Chunk* Error, or one Error. */
  lemma LegalIsPrefix(frames: seq<Frame>)
    ensures !PhaseOf(frames).Broken? <==> exists whole :: Complete(whole) && frames <= whole
  {
    PhaseShape(frames);
    if !PhaseOf(frames).Broken? {
      var rest := match PhaseOf(frames)
        case Silent => [Error("", false)]
        case Streaming => [End(0)]
        case _ => [];
      assert rest != [] ==> Complete(frames + rest);
      assert rest == [] ==> frames + rest == frames;
      assert Complete(frames + rest) && frames <= frames + rest;
    }
    if whole :| Complete(whole) && frames <= whole {
      PhaseShape(whole);
      assert whole[..|frames|] == frames;
      BrokenStays(whole, |frames|);
    }
  }

  // ---- what a list of frames carries ----

  ghost function Buffers(frames: seq<Frame>): set<array<Byte>> {
    set f | f in frames && f.Chunk? :: f.data
  }

  ghost function Payload(frames: seq<Frame>): seq<Byte>
    reads Buffers(frames)
  {
    if frames == [] then []
    else
      var rest, f := frames[..|frames| - 1], frames[|frames| - 1];
      Payload(rest) + if f.Chunk? then f.data[..] else []
  }

  lemma PayloadAppend(frames: seq<Frame>, f: Frame)
    ensures Payload(frames + [f]) == Payload(frames) + if f.Chunk? then f.data[..] else []
  {
    assert (frames + [f])[..|frames|] == frames;
  }

  /** The host's side of the stream: which of its frames can still be delivered is its own affair.
      A frame that cannot is lost, and `Forward` stops there. */
  class Host {
    const accepts: nat -> bool
    var frames: seq<Frame>
    var upstream: seq<seq<Byte>>

    constructor (accepts: nat -> bool)
      ensures this.accepts == accepts && frames == [] && upstream == []
    {
      this.accepts, frames, upstream := accepts, [], [];
    }

    method Send(f: Frame) returns (ok: bool)
      modifies this`frames
      ensures ok <==> accepts(|old(frames)|)
      ensures frames == if ok then old(frames) + [f] else old(frames)
    {
      ok := accepts(|frames|);
      if ok {
        frames := frames + [f];
      }
    }
  }

  // ---- the request body ----

  datatype Gathered = Lost | TooLarge | Body(bytes: seq<Byte>)

  function BytesOf(r: Received): seq<Byte> { if r.Data? then r.bytes else [] }

  function Joined(rs: seq<Received>): seq<Byte> {
    if rs == [] then []
    else
      var last := rs[|rs| - 1];
      Joined(rs[..|rs| - 1]) + if last.Data? then last.bytes else []
  }

  /** The first end of the body. */
  ghost predicate EndsAt(rs: seq<Received>, e: nat) {
    e < |rs| && rs[e].BodyEnd? && forall i | 0 <= i < e :: !rs[i].BodyEnd?
  }

  /** The first `e` frames already carry more than the limit, and none of them ends the body. */
  ghost predicate Overflows(rs: seq<Received>, e: nat) {
    e <= |rs| && |Joined(rs[..e])| > BODY_LIMIT && forall i | 0 <= i < e :: !rs[i].BodyEnd?
  }

  lemma {:induction false} JoinedGrows(rs: seq<Received>, m: nat, n: nat)
    requires m <= n <= |rs|
    ensures |Joined(rs[..m])| <= |Joined(rs[..n])|
  {
    if m < n {
      JoinedGrows(rs, m, n - 1);
      assert rs[..n][..n - 1] == rs[..n - 1];
    }
  }

  /** The body does not depend on how the host cuts it into chunks; it is refused when it is longer
      than the limit, and lost when the stream ends before it does. */
  method Gather(rs: seq<Received>) returns (g: Gathered)
    ensures forall e: nat | EndsAt(rs, e) ::
      g == if |Joined(rs[..e])| <= BODY_LIMIT then Body(Joined(rs[..e])) else TooLarge
    ensures g.Body? ==> exists e: nat :: EndsAt(rs, e)
    ensures g.TooLarge? <==> exists e :: Overflows(rs, e)
  {
    var body: seq<Byte>, n := [], 0;
    while n < |rs|
      invariant n <= |rs| && body == Joined(rs[..n]) && |body| <= BODY_LIMIT
      invariant forall i | 0 <= i < n :: !rs[i].BodyEnd?
    {
      if rs[n].BodyEnd? {
        NotTooLarge(rs, n);
        assert EndsAt(rs, n);
        return Body(body);
      }
      assert rs[..n + 1][..n] == rs[..n];
      var chunk := BytesOf(rs[n]);
      if |body| + |chunk| > BODY_LIMIT {
        forall e: nat | EndsAt(rs, e) ensures |Joined(rs[..e])| > BODY_LIMIT { JoinedGrows(rs, n + 1, e); }
        assert Overflows(rs, n + 1);
        return TooLarge;
      }
      body, n := body + chunk, n + 1;
    }
    NotTooLarge(rs, n);
    return Lost;
  }

  lemma NotTooLarge(rs: seq<Received>, n: nat)
    requires n <= |rs| && |Joined(rs[..n])| <= BODY_LIMIT && (n < |rs| ==> rs[n].BodyEnd?)
    ensures !exists e :: Overflows(rs, e)
  {
    forall e | Overflows(rs, e) ensures false {
      JoinedGrows(rs, e, n);
    }
  }

  // ---- the answer ----

  /** Everything the reader delivers. */
  function Delivered(a: Answer): seq<Byte> {
    if a.TransportError? then [] else Flat(a.parts) + a.last
  }

  predicate Fits(a: Answer) {
    a.Answer? ==> |a.last| <= BUFFER && forall i | 0 <= i < |a.parts| :: |a.parts[i]| <= BUFFER
  }

  /** What every frame of an answer says is so: an error reports whether the request went upstream,
      an end how many bytes came before it. */
  ghost predicate Truthful(frames: seq<Frame>, called: bool, size: nat) {
    && (forall f | f in frames && f.Error? :: f.requestSent == called)
    && (forall f | f in frames && f.End? :: f.received == size)
  }

  predicate Ends(frames: seq<Frame>) { frames != [] && frames[|frames| - 1].End? }

  method Copied(buf: array<Byte>, n: nat) returns (copy: array<Byte>)
    requires n <= buf.Length
    ensures fresh(copy) && copy[..] == buf[..n]
  {
    copy := new Byte[n];
    forall i | 0 <= i < n { copy[i] := buf[i]; }
  }

  method Fill(buf: array<Byte>, data: seq<Byte>)
    requires |data| <= buf.Length
    modifies buf
    ensures buf[..|data|] == data
  {
    forall i | 0 <= i < |data| { buf[i] := data[i]; }
  }

  lemma FlatTake(parts: seq<seq<Byte>>, i: nat)
    requires i < |parts|
    ensures Flat(parts[..i + 1]) == Flat(parts[..i]) + parts[i]
  {
    assert parts[..i + 1][..i] == parts[..i];
  }

  lemma {:induction false} FlatPrefix(parts: seq<seq<Byte>>, i: nat)
    requires i <= |parts|
    ensures Flat(parts[..i]) <= Flat(parts)
    decreases |parts| - i
  {
    if i < |parts| {
      FlatTake(parts, i);
      FlatPrefix(parts, i + 1);
    } else {
      assert parts[..i] == parts;
    }
  }

  ghost predicate NoLast(frames: seq<Frame>) { forall f | f in frames :: !f.End? && !f.Error? }

  /** One read of the upstream body into the shared buffer, sent on as a chunk of its own. */
  method Forwarded(host: Host, buf: array<Byte>, data: seq<Byte>) returns (ok: bool)
    requires |data| <= buf.Length && buf !in Buffers(host.frames)
    requires PhaseOf(host.frames).Streaming?
    modifies host`frames, buf
    ensures PhaseOf(host.frames).Streaming? && buf !in Buffers(host.frames)
    ensures Payload(host.frames) == old(Payload(host.frames)) + if ok then data else []
    ensures old(NoLast(host.frames)) ==> NoLast(host.frames)
    ensures old(host.frames) <= host.frames
    ensures (forall k :: host.accepts(k)) ==> ok
  {
    ok := true;
    Fill(buf, data);
    if |data| > 0 {
      var copy := Copied(buf, |data|);
      ok := host.Send(Chunk(copy));
      PhaseAppend(old(host.frames), Chunk(copy));
      PayloadAppend(old(host.frames), Chunk(copy));
    }
  }

  /** Sends one last frame that carries no bytes. */
  method Close(host: Host, f: Frame) returns (ok: bool)
    requires f.End? || f.Error?
    requires PhaseOf(host.frames).Streaming? || (PhaseOf(host.frames).Silent? && f.Error?)
    modifies host`frames
    ensures ok <==> host.accepts(|old(host.frames)|)
    ensures host.frames == if ok then old(host.frames) + [f] else old(host.frames)
    ensures PhaseOf(host.frames) == if ok then Over else old(PhaseOf(host.frames))
    ensures Payload(host.frames) == old(Payload(host.frames))
  {
    ghost var frames := host.frames;
    ghost var payload := Payload(frames);
    assert forall b | b in Buffers(frames) :: allocated(b);
    ok := host.Send(f);
    PhaseAppend(frames, f);
    PayloadAppend(frames, f);
    assert Payload(frames) == payload && payload + [] == payload;
  }

  method Begin(host: Host, status: int) returns (ok: bool)
    requires host.frames == []
    modifies host`frames
    ensures ok <==> host.accepts(0)
    ensures host.frames == if ok then [Start(status)] else []
    ensures PhaseOf(host.frames) == if ok then Streaming else Silent
    ensures Payload(host.frames) == []
  {
    ok := host.Send(Start(status));
    assert [] + [Start(status)] == [Start(status)];
    PhaseAppend([], Start(status));
    PayloadAppend([], Start(status));
  }

  /** The loop over the body, with its one buffer. */
  method RelayBody(host: Host, a: Answer) returns (ok: bool, nread: nat)
    requires a.Answer? && Fits(a) && PhaseOf(host.frames).Streaming?
    requires NoLast(host.frames) && Payload(host.frames) == []
    modifies host`frames
    ensures PhaseOf(host.frames).Streaming? && NoLast(host.frames)
    ensures Payload(host.frames) <= Delivered(a)
    ensures ok ==> Payload(host.frames) == Delivered(a) && nread == |Delivered(a)|
    ensures old(host.frames) <= host.frames
    ensures (forall k :: host.accepts(k)) ==> ok
  {
    hide PhaseOf, Payload, NoLast;
    var buf := new Byte[BUFFER];
    var i := 0;
    nread := 0;
    while true
      invariant i <= |a.parts| && buf !in Buffers(host.frames)
      invariant PhaseOf(host.frames).Streaming? && NoLast(host.frames) && old(host.frames) <= host.frames
      invariant Payload(host.frames) == Flat(a.parts[..i]) && nread == |Payload(host.frames)|
      decreases |a.parts| - i
    {
      var data := if i < |a.parts| then a.parts[i] else a.last;
      ok := Forwarded(host, buf, data);
      if !ok {
        FlatPrefix(a.parts, i);
        return;
      }
      nread := nread + |data|;
      if i == |a.parts| {
        break;
      }
      FlatTake(a.parts, i);
      i := i + 1;
    }
    assert a.parts[..i] == a.parts;
  }

  /** The response: its start, its body in chunks, its end or an error. */
  method Relay(host: Host, a: Answer) returns (done: bool)
    requires a.Answer? && Fits(a) && host.frames == []
    modifies host`frames
    ensures !PhaseOf(host.frames).Broken? && (done ==> PhaseOf(host.frames).Over?)
    ensures Payload(host.frames) <= Delivered(a)
    ensures Truthful(host.frames, true, |Payload(host.frames)|)
    ensures Ends(host.frames) ==> !a.broken && Payload(host.frames) == Delivered(a)
    ensures host.frames != [] ==> host.frames[0] == Start(a.status)
    ensures done && a.broken ==>
      host.frames != [] && host.frames[|host.frames| - 1] == Error("response_read_error", true)
    ensures done && !a.broken ==> Ends(host.frames)
    ensures (forall k :: host.accepts(k)) ==> done
  {
    hide PhaseOf, Payload, Delivered;
    done := Begin(host, a.status);
    if done {
      var nread;
      done, nread := RelayBody(host, a);
      if done {
        done := Close(host, if a.broken then Error("response_read_error", true) else End(nread));
      }
    }
  }

  // ---- the whole call ----

  /** What the checks of a request find: the address, the parts of the request, the scope of the
      account, its slot and its backoff, the model where one is needed, and the proxy. */
  datatype Checks = Checks(url: bool, request: bool, json: bool, scope: bool, slot: bool, calm: bool,
                           model: bool, proxy: bool)

  function Rest(received: seq<Received>): seq<Received> { if received == [] then [] else received[1..] }

  ghost predicate Arrives(rs: seq<Received>) { exists e: nat :: EndsAt(rs, e) && |Joined(rs[..e])| <= BODY_LIMIT }

  ghost predicate Oversized(rs: seq<Received>) { exists e :: Overflows(rs, e) }

  /** What the first check behind the body that fails is answered with; nothing if all pass. */
  function LateRefusal(c: Checks): seq<Frame> {
    if !c.request then [Error("invalid_request", false)]
    else if !c.json then [Error("invalid_body", false)]
    else if !c.scope then [Error("account_outside_scope", false)]
    else if !c.slot then [Error("account_concurrency_wait_canceled", false)]
    else if !c.calm then [Start(429), End(0)]
    else if !c.model then [Error("missing_model", false)]
    else if !c.proxy then [Error("invalid_account_proxy", false)]
    else []
  }

  /** What a request that does not go upstream is answered with; nothing if its stream is lost. */
  ghost function Refusal(received: seq<Received>, c: Checks): seq<Frame> {
    if received == [] then []
    else if !received[0].Opening? then [Error("invalid_start", false)]
    else if !c.url then [Error("invalid_upstream", false)]
    else if Oversized(Rest(received)) then [Start(413), End(0)]
    else if Arrives(Rest(received)) then LateRefusal(c)
    else []
  }

  /** A request that goes upstream. */
  ghost predicate Passes(received: seq<Received>, c: Checks) {
    && received != [] && received[0].Opening? && c.url && Arrives(Rest(received))
    && c.request && c.json && c.scope && c.slot && c.calm && c.model && c.proxy
  }

  method Refuse(host: Host, code: string) returns (done: bool)
    requires host.frames == []
    modifies host`frames
    ensures host.frames == if done then [Error(code, false)] else []
    ensures Harmless(host.frames) && (done ==> PhaseOf(host.frames).Over?)
    ensures done <==> host.accepts(0)
  {
    done := Close(host, Error(code, false));
  }

  method Dismiss(host: Host, status: int) returns (done: bool)
    requires host.frames == []
    modifies host`frames
    ensures host.frames <= [Start(status), End(0)] && (done ==> host.frames == [Start(status), End(0)])
    ensures Harmless(host.frames) && (done ==> PhaseOf(host.frames).Over?)
    ensures (forall k :: host.accepts(k)) ==> done
  {
    done := Begin(host, status);
    if done {
      done := Close(host, End(0));
    }
  }

  /** The answer to a request that did not go upstream. */
  ghost predicate Harmless(frames: seq<Frame>)
    reads Buffers(frames)
  {
    !PhaseOf(frames).Broken? && Payload(frames) == [] && Truthful(frames, false, 0)
  }

  /** The answer the request gets is the whole refusal, or a beginning of it if the stream to the host
      breaks. */
  ghost predicate Answers(frames: seq<Frame>, refusal: seq<Frame>, done: bool) {
    frames <= refusal && (done ==> frames == refusal)
  }

  /** The checks behind the body, one by one; `passed` if none fails. */
  method CheckLate(host: Host, c: Checks) returns (passed: bool, done: bool)
    requires host.frames == []
    modifies host`frames
    ensures passed <==> LateRefusal(c) == []
    ensures passed ==> host.frames == []
    ensures !passed ==> Answers(host.frames, LateRefusal(c), done) && Harmless(host.frames)
    ensures !passed && done ==> PhaseOf(host.frames).Over?
    ensures !passed && (forall k :: host.accepts(k)) ==> done
  {
    hide PhaseOf, Harmless;
    passed, done := false, false;
    if !c.request {
      done := Refuse(host, "invalid_request");
    } else if !c.json {
      done := Refuse(host, "invalid_body");
    } else if !c.scope {
      done := Refuse(host, "account_outside_scope");
    } else if !c.slot {
      done := Refuse(host, "account_concurrency_wait_canceled");
    } else if !c.calm {
      done := Dismiss(host, 429);
    } else if !c.model {
      done := Refuse(host, "missing_model");
    } else if !c.proxy {
      done := Refuse(host, "invalid_account_proxy");
    } else {
      passed := true;
    }
  }

  /** The upstream call and its answer. */
  method Call(host: Host, body: seq<Byte>, a: Answer) returns (done: bool)
    requires Fits(a) && host.frames == [] && host.upstream == []
    modifies host
    ensures host.upstream == [body]
    ensures !PhaseOf(host.frames).Broken? && (done ==> PhaseOf(host.frames).Over?)
    ensures Truthful(host.frames, true, |Payload(host.frames)|)
    ensures Payload(host.frames) <= Delivered(a)
    ensures Ends(host.frames) ==> Payload(host.frames) == Delivered(a)
    ensures done && a.TransportError? ==> host.frames == [Error("upstream_transport_error", true)]
    ensures done && a.Answer? ==>
      host.frames != [] && host.frames[0] == Start(a.status) && (Ends(host.frames) <==> !a.broken)
    ensures (forall k :: host.accepts(k)) ==> done
  {
    hide PhaseOf, Payload, Delivered;
    host.upstream := host.upstream + [body];
    NothingSent(host.frames);
    if a.TransportError? {
      done := Close(host, Error("upstream_transport_error", true));
    } else {
      done := Relay(host, a);
    }
  }

  /** The whole call.  `done` when `Forward` returns without an error of the stream itself. */
  method Forward(host: Host, received: seq<Received>, checks: Checks, a: Answer) returns (done: bool)
    requires Fits(a) && host.frames == [] && host.upstream == []
    modifies host
    ensures !PhaseOf(host.frames).Broken? && (done ==> PhaseOf(host.frames).Over?)
    // Upstream goes exactly what passes every check, once, with the joined body.
    ensures host.upstream != [] <==> Passes(received, checks)
    ensures host.upstream != [] ==>
      exists e: nat :: EndsAt(Rest(received), e) && host.upstream == [Joined(Rest(received)[..e])]
    // Everything else is refused by the first check that fails.
    ensures host.upstream == [] ==> Answers(host.frames, Refusal(received, checks), done) && Harmless(host.frames)
    // The answer of the upstream call is passed on.
    ensures Truthful(host.frames, host.upstream != [], |Payload(host.frames)|)
    ensures Payload(host.frames) <= Delivered(a)
    ensures host.upstream != [] && Ends(host.frames) ==> Payload(host.frames) == Delivered(a)
    ensures host.upstream != [] && done && a.TransportError? ==>
      host.frames == [Error("upstream_transport_error", true)]
    ensures host.upstream != [] && done && a.Answer? ==>
      host.frames != [] && host.frames[0] == Start(a.status) && (Ends(host.frames) <==> !a.broken)
    ensures (forall k :: host.accepts(k)) && (Refusal(received, checks) != [] || Passes(received, checks)) ==> done
  {
    hide PhaseOf, Payload, Delivered, Joined, LateRefusal;
    PassesLate(checks);
    if received == [] {
      NothingSent(host.frames);
      return false;
    }
    if !received[0].Opening? {
      done := Refuse(host, "invalid_start");
      return;
    }
    if !checks.url {
      done := Refuse(host, "invalid_upstream");
      return;
    }
    var body := Gather(received[1..]);
    GatherMeans(received[1..], body);
    if body.Lost? {
      NothingSent(host.frames);
      return false;
    }
    if body.TooLarge? {
      done := Dismiss(host, 413);
      return;
    }
    ghost var e: nat :| EndsAt(Rest(received), e);
    var passed;
    passed, done := CheckLate(host, checks);
    if passed {
      done := Call(host, body.bytes, a);
    }
  }

  lemma PassesLate(c: Checks)
    ensures LateRefusal(c) == []
       <==> c.request && c.json && c.scope && c.slot && c.calm && c.model && c.proxy
  {
  }

  lemma GatherMeans(rs: seq<Received>, g: Gathered)
    requires forall e: nat | EndsAt(rs, e) ::
      g == if |Joined(rs[..e])| <= BODY_LIMIT then Body(Joined(rs[..e])) else TooLarge
    requires g.Body? ==> exists e: nat :: EndsAt(rs, e)
    requires g.TooLarge? <==> exists e :: Overflows(rs, e)
    ensures g.TooLarge? <==> Oversized(rs)
    ensures g.Body? <==> Arrives(rs)
  {
    hide Joined;
  }

  lemma NothingSent(frames: seq<Frame>)
    requires frames == []
    ensures Harmless(frames) && PhaseOf(frames).Silent? && Payload(frames) == []
  {
  }
}
