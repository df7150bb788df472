/** Counting the members of a sequence that satisfy a predicate. */
module Counting {
  function Bit(b: bool): nat { if b then 1 else 0 }

  function Count<T>(ts: seq<T>, p: T -> bool): nat {
    if |ts| == 0 then 0 else Bit(p(ts[0])) + Count(ts[1..], p)
  }

  lemma {:induction false} CountUpdate<T>(ts: seq<T>, i: nat, t: T, p: T -> bool)
    requires i < |ts|
    ensures Count(ts[i := t], p) == Count(ts, p) - Bit(p(ts[i])) + Bit(p(t))
  {
    if i == 0 {
      assert ts[i := t][1..] == ts[1..];
    } else {
      CountUpdate(ts[1..], i - 1, t, p);
      assert ts[i := t][1..] == ts[1..][i - 1 := t];
    }
  }

  lemma {:induction false} CountAppend<T>(ts: seq<T>, t: T, p: T -> bool)
    ensures Count(ts + [t], p) == Count(ts, p) + Bit(p(t))
  {
    if |ts| == 0 {
      assert ts + [t] == [t];
    } else {
      CountAppend(ts[1..], t, p);
      assert (ts + [t])[1..] == ts[1..] + [t];
    }
  }

  lemma {:induction false} CountWitness<T>(ts: seq<T>, p: T -> bool) returns (i: nat)
    requires Count(ts, p) > 0
    ensures i < |ts| && p(ts[i])
  {
    if p(ts[0]) {
      i := 0;
    } else {
      i := CountWitness(ts[1..], p);
      i := i + 1;
    }
  }

  lemma {:induction false} CountMember<T>(ts: seq<T>, i: nat, p: T -> bool)
    requires i < |ts| && p(ts[i])
    ensures Count(ts, p) > 0
  {
    if i > 0 { CountMember(ts[1..], i - 1, p); }
  }

  lemma {:induction false} CountWeaker<T>(ts: seq<T>, p: T -> bool, q: T -> bool)
    requires forall t | t in ts :: p(t) ==> q(t)
    ensures Count(ts, p) <= Count(ts, q)
  {
    if |ts| > 0 { CountWeaker(ts[1..], p, q); }
  }

  /** One member that satisfies only the weaker predicate separates the counts. */
  lemma {:induction false} CountStrictlyWeaker<T>(ts: seq<T>, i: nat, p: T -> bool, q: T -> bool)
    requires i < |ts| && q(ts[i]) && !p(ts[i])
    requires forall t | t in ts :: p(t) ==> q(t)
    ensures Count(ts, p) < Count(ts, q)
  {
    if i == 0 {
      CountWeaker(ts[1..], p, q);
    } else {
      CountStrictlyWeaker(ts[1..], i - 1, p, q);
    }
  }
}
