/** The headers of a forwarded request, as Go keeps them: a map from names, spelled as they came, to
    values.  `Get`, `Set` and `Del` work on the canonical spelling only. */
module RequestHeaders {
  import opened Wrappers

  type Header = map<string, seq<string>>

  const STATE := "X-Codex-Turn-State"
  const AUTHORIZATION := "Authorization"
  const ACCOUNT := "ChatGPT-Account-Id"
  const BEARER := "Bearer "

  // ---- spelling ----

  function LowerChar(c: char): char { if 'A' <= c <= 'Z' then (c as int + 32) as char else c }

  function UpperChar(c: char): char { if 'a' <= c <= 'z' then (c as int - 32) as char else c }

  function Lower(s: string): string { seq(|s|, i requires 0 <= i < |s| => LowerChar(s[i])) }

  /** A byte that a header name may hold (section 5.6.2 of RFC 9110). */
  predicate NameChar(c: char) {
    || 'a' <= c <= 'z' || 'A' <= c <= 'Z' || '0' <= c <= '9'
    || c in {'!', '#', '$', '%', '&', '\'', '*', '+', '-', '.', '^', '_', '`', '|', '~'}
  }

  /** A letter is a capital at the start and behind a hyphen, and small elsewhere. */
  function Capitals(s: string): string {
    seq(|s|, i requires 0 <= i < |s| => if i == 0 || s[i - 1] == '-' then UpperChar(s[i]) else LowerChar(s[i]))
  }

  /** Go's `CanonicalMIMEHeaderKey`; a text that is no name is left alone. */
  function CanonicalKey(s: string): string {
    if forall i | 0 <= i < |s| :: NameChar(s[i]) then Capitals(s) else s
  }

  /** Whether `k` is a way to write `name`: case does not matter in a header name. */
  predicate Spells(k: string, name: string) { Lower(k) == Lower(name) }

  // ---- Go's operations ----

  function Get(h: Header, name: string): string {
    var k := CanonicalKey(name);
    if k in h && h[k] != [] then h[k][0] else ""
  }

  function Set(h: Header, name: string, value: string): Header { h[CanonicalKey(name) := [value]] }

  function Del(h: Header, name: string): Header { h - {CanonicalKey(name)} }

  /** What the digest of the credentials is taken of. */
  function Identity(h: Header): string {
    var auth := Get(h, AUTHORIZATION);
    (if BEARER <= auth then auth[|BEARER|..] else auth) + ":" + Get(h, ACCOUNT)
  }

  /** The headers of a harvest that carry credentials. */
  function HarvestHeader(h: Header): Header {
    Set(Set(map[], AUTHORIZATION, Get(h, AUTHORIZATION)), ACCOUNT, Get(h, ACCOUNT))
  }

  // ---- what goes over the wire ----

  /** The header lines for a name, in whatever spelling: the key and the number of the value. */
  ghost function Lines(h: Header, name: string): set<(string, nat)> {
    set k, i | k in h && Spells(k, name) && 0 <= i < |h[k]| :: (k, i)
  }

  /** No line for the name has another spelling than the canonical one. */
  ghost predicate OneSpelling(h: Header, name: string) {
    forall k | k in h && Spells(k, name) && k != CanonicalKey(name) :: h[k] == []
  }

  /** The lines for the name are this one value. */
  ghost predicate Sends(h: Header, name: string, value: string) {
    var k := CanonicalKey(name);
    Lines(h, name) == {(k, 0)} && k in h && h[k] == [value]
  }

  ghost predicate SendsNone(h: Header, name: string) { Lines(h, name) == {} }

  lemma CapitalsSpell(s: string)
    ensures Lower(Capitals(s)) == Lower(s)
  {
  }

  lemma CanonicalSpells(name: string)
    ensures Spells(CanonicalKey(name), name)
  {
    CapitalsSpell(name);
  }

  /** After `Set` the value is all that goes out under a name exactly if the request had one spelling of
      it. */
  lemma SetExactly(h: Header, name: string, value: string)
    ensures Sends(Set(h, name, value), name, value) <==> OneSpelling(h, name)
  {
    hide CanonicalKey, Spells;
    var k, sent := CanonicalKey(name), Set(h, name, value);
    CanonicalSpells(name);
    if OneSpelling(h, name) {
      forall line ensures line in Lines(sent, name) <==> line == (k, 0) {
        if line.0 in sent && Spells(line.0, name) && line.0 != k { assert h[line.0] == []; }
      }
    }
    if Sends(sent, name, value) {
      forall q | q in h && Spells(q, name) && q != k ensures h[q] == [] {
        assert h[q] != [] ==> (q, 0) in Lines(sent, name);
      }
    }
  }

  /** After `Del` nothing goes out under a name exactly if the request had one spelling of it. */
  lemma DelExactly(h: Header, name: string)
    ensures SendsNone(Del(h, name), name) <==> OneSpelling(h, name)
  {
    hide CanonicalKey, Spells;
    var k, sent := CanonicalKey(name), Del(h, name);
    if OneSpelling(h, name) {
      forall line ensures line !in Lines(sent, name) {
        if line.0 in sent && Spells(line.0, name) { assert h[line.0] == []; }
      }
    }
    if SendsNone(sent, name) {
      forall q | q in h && Spells(q, name) && q != k ensures h[q] == [] {
        assert h[q] != [] ==> (q, 0) in Lines(sent, name);
      }
    }
  }

  lemma NamesAreNames(name: string)
    requires name in {STATE, AUTHORIZATION, ACCOUNT}
    ensures CanonicalKey(name) == Capitals(name)
  {
    hide Capitals;
  }

  lemma CanonicalState()
    ensures CanonicalKey(STATE) == STATE
  {
    hide Lower, CanonicalKey;
    NamesAreNames(STATE);
    assert Capitals(STATE) == STATE;
  }

  lemma CanonicalAuthorization()
    ensures CanonicalKey(AUTHORIZATION) == AUTHORIZATION
  {
    hide Lower, CanonicalKey;
    NamesAreNames(AUTHORIZATION);
    assert Capitals(AUTHORIZATION) == AUTHORIZATION;
  }

  lemma CanonicalAccount()
    ensures CanonicalKey(ACCOUNT) == "Chatgpt-Account-Id"
  {
    hide Lower, CanonicalKey;
    NamesAreNames(ACCOUNT);
    assert Capitals(ACCOUNT) == "Chatgpt-Account-Id";
  }

  /** The header in small letters is another spelling: it goes upstream beside the ticket, and alone
      where there is none. */
  lemma SmallLettersPass(ticket: string, foreign: string)
    ensures var h: Header := map["x-codex-turn-state" := [foreign]];
      && ("x-codex-turn-state", 0) in Lines(Set(h, STATE, ticket), STATE)
      && ("x-codex-turn-state", 0) in Lines(Del(h, STATE), STATE)
      && Set(h, STATE, ticket)["x-codex-turn-state"] == Del(h, STATE)["x-codex-turn-state"] == [foreign]
  {
    hide CanonicalKey;
    CanonicalState();
    assert STATE[0] != "x-codex-turn-state"[0];
    assert Lower("x-codex-turn-state") == Lower(STATE);
  }

  /** The credentials that are read: the first value of each of the two headers in its canonical spelling,
      the token without its scheme, and nothing for a header that is not there. */
  lemma IdentityMeans(h: Header)
    ensures var token := if "Authorization" in h && h["Authorization"] != [] then h["Authorization"][0] else "";
      var account := if "Chatgpt-Account-Id" in h && h["Chatgpt-Account-Id"] != []
                     then h["Chatgpt-Account-Id"][0] else "";
      && (!("Bearer " <= token) ==> Identity(h) == token + ":" + account)
      && (forall rest | token == "Bearer " + rest :: Identity(h) == rest + ":" + account)
  {
    hide CanonicalKey;
    CanonicalAuthorization();
    CanonicalAccount();
    var token := Get(h, AUTHORIZATION);
    assert forall rest | token == BEARER + rest :: token[|BEARER|..] == rest;
  }

  /** A harvest is made with the credentials the digest was taken of, whatever the client sent. */
  lemma HarvestIsOwn(h: Header)
    ensures Identity(HarvestHeader(h)) == Identity(h)
  {
    hide CanonicalKey;
    CanonicalState();
    CanonicalAuthorization();
    CanonicalAccount();
  }

  /** What is done to the state header leaves the credentials that are read alone. */
  lemma StateIsNoCredential(h: Header, ticket: string)
    ensures Identity(Set(h, STATE, ticket)) == Identity(h) == Identity(Del(h, STATE))
  {
    hide CanonicalKey;
    CanonicalState();
    CanonicalAuthorization();
    CanonicalAccount();
  }

  /** The credentials that go upstream are the ones the digest was taken of, each on one line, exactly
      if each has one spelling and one value. */
  lemma CredentialsAreRead(h: Header, name: string)
    requires CanonicalKey(name) in h
    ensures Sends(h, name, Get(h, name)) <==> OneSpelling(h, name) && |h[CanonicalKey(name)]| == 1
  {
    hide CanonicalKey, Spells;
    var k := CanonicalKey(name);
    CanonicalSpells(name);
    if OneSpelling(h, name) && |h[k]| == 1 {
      forall line ensures line in Lines(h, name) <==> line == (k, 0) {
        if line.0 in h && Spells(line.0, name) && line.0 != k { assert h[line.0] == []; }
      }
    }
    if Sends(h, name, Get(h, name)) {
      forall q | q in h && Spells(q, name) && q != k ensures h[q] == [] {
        assert h[q] != [] ==> (q, 0) in Lines(h, name);
      }
    }
  }
}
