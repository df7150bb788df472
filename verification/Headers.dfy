/** The header checks of the plugin contract.  A Go map is walked in an arbitrary order; the verdict
    does not depend on it. */
module Headers {
  const MAX_COUNT := 64
  const MAX_VALUES := 16
  const MAX_BYTES := 16 * 1024

  const SENSITIVE := {"authorization", "proxy-authorization", "cookie", "set-cookie", "x-api-key", "api-key",
                      "x-goog-api-key"}

  predicate NameChar(c: char) { 'a' <= c <= 'z' || '0' <= c <= '9' || c == '-' }

  predicate ValidName(name: string) { name != "" && forall i | 0 <= i < |name| :: NameChar(name[i]) }

  predicate Control(c: char) { c == '\r' || c == '\n' || c == '\0' }

  predicate CleanValue(v: string) { forall i | 0 <= i < |v| :: !Control(v[i]) }

  predicate FieldOk(name: string, values: seq<string>) {
    && ValidName(name) && name !in SENSITIVE && |values| <= MAX_VALUES
    && forall i | 0 <= i < |values| :: CleanValue(values[i])
  }

  function Bytes(values: seq<string>): nat {
    if values == [] then 0 else Bytes(values[..|values| - 1]) + |values[|values| - 1]|
  }

  function FieldBytes(name: string, values: seq<string>): nat { |name| + Bytes(values) }

  /** The size of a header, summed over its fields in an order that is not determined. */
  ghost function Total(headers: map<string, seq<string>>): nat
    decreases |headers|
  {
    if headers == map[] then 0
    else
      var name :| name in headers;
      FieldBytes(name, headers[name]) + Total(headers - {name})
  }

  /** The order does not matter: any field may be counted first. */
  lemma {:induction false} TotalWithout(headers: map<string, seq<string>>, name: string)
    requires name in headers
    ensures Total(headers) == FieldBytes(name, headers[name]) + Total(headers - {name})
    decreases |headers|
  {
    var first :| first in headers && Total(headers) == FieldBytes(first, headers[first]) + Total(headers - {first});
    if first != name {
      TotalWithout(headers - {first}, name);
      TotalWithout(headers - {name}, first);
      assert headers - {first} - {name} == headers - {name} - {first};
    }
  }

  ghost predicate HeadersOk(headers: map<string, seq<string>>) {
    && |headers| <= MAX_COUNT
    && (forall name | name in headers :: FieldOk(name, headers[name]))
    && Total(headers) <= MAX_BYTES
  }

  method CheckName(name: string) returns (ok: bool)
    ensures ok <==> ValidName(name)
  {
    if name == "" {
      return false;
    }
    for i := 0 to |name|
      invariant forall j | 0 <= j < i :: NameChar(name[j])
    {
      if NameChar(name[i]) {
        continue;
      }
      return false;
    }
    return true;
  }

  method CheckField(name: string, values: seq<string>) returns (ok: bool, size: nat)
    ensures ok <==> FieldOk(name, values)
    ensures ok ==> size == FieldBytes(name, values)
  {
    ok, size := false, |name|;
    var legal := CheckName(name);
    if !legal || name in SENSITIVE || |values| > MAX_VALUES {
      return;
    }
    for i := 0 to |values|
      invariant size == |name| + Bytes(values[..i])
      invariant forall j | 0 <= j < i :: CleanValue(values[j])
    {
      assert values[..i + 1][..i] == values[..i];
      size := size + |values[i]|;
      if !CleanValue(values[i]) {
        return;
      }
    }
    assert values[..|values|] == values;
    ok := true;
  }

  /** The loop of `RequestContext.Validate` and of `RequestPatch.Validate`. */
  method CheckHeaders(headers: map<string, seq<string>>) returns (ok: bool)
    ensures ok <==> HeadersOk(headers)
  {
    if |headers| > MAX_COUNT {
      return false;
    }
    var bytes, rest := 0, headers;
    while rest != map[]
      invariant forall name | name in rest :: name in headers && rest[name] == headers[name]
      invariant forall name | name in headers && name !in rest :: FieldOk(name, headers[name])
      invariant bytes + Total(rest) == Total(headers)
      decreases |rest|
    {
      var name :| name in rest;
      var legal, size := CheckField(name, rest[name]);
      if !legal {
        return false;
      }
      TotalWithout(rest, name);
      bytes, rest := bytes + size, rest - {name};
    }
    return bytes <= MAX_BYTES;
  }
}
