/** Small shared vocabulary: optional values, the outcome of a call that may
    throw, and the decimal rendering JavaScript uses for non-negative integers. */
module Base {

  /** A value that may be absent (`undefined` / `null` in the source). */
  datatype Option<+T> = None | Some(value: T)

  /** The outcome of an async call that may reject: its value, or the
      `message` of the error it throws. */
  datatype Result<+T> = Ok(value: T) | Err(message: string) {
    predicate IsFailure() { Err? }

    function PropagateFailure<U>(): Result<U>
      requires Err?
    {
      Err(message)
    }

    function Extract(): T
      requires Ok?
    {
      value
    }
  }

  /** `response.ok`: a 2xx HTTP status. */
  predicate IsOk(status: nat) { 200 <= status <= 299 }

  predicate IsDigit(c: char) { '0' <= c <= '9' }

  function DigitChar(d: nat): (c: char)
    requires d < 10
    ensures IsDigit(c) && c as int - '0' as int == d
  {
    (('0' as int) + d) as char
  }

  function DigitValue(c: char): (d: nat)
    requires IsDigit(c)
    ensures d < 10 && DigitChar(d) == c
  {
    c as int - '0' as int
  }

  /** `String(n)` / `n.toString()` for a non-negative integer: the shortest
      decimal numeral. */
  function NatToString(n: nat): (s: string)
    ensures |s| >= 1
    ensures forall i :: 0 <= i < |s| ==> IsDigit(s[i])
    ensures |s| > 1 ==> s[0] != '0'
  {
    if n < 10 then [DigitChar(n)] else NatToString(n / 10) + [DigitChar(n % 10)]
  }

  /** Reads a decimal numeral back. */
  function ParseNat(s: string): nat
    requires forall i :: 0 <= i < |s| ==> IsDigit(s[i])
  {
    if s == [] then 0 else 10 * ParseNat(s[..|s| - 1]) + DigitValue(s[|s| - 1])
  }

  lemma {:induction false} ParseNatToString(n: nat)
    ensures ParseNat(NatToString(n)) == n
  {
    if n >= 10 {
      var prefix := NatToString(n / 10);
      var s := NatToString(n);
      assert s == prefix + [DigitChar(n % 10)];
      assert s[..|s| - 1] == prefix;
      ParseNatToString(n / 10);
    }
  }

  /** Distinct clock readings give distinct message identifiers. */
  lemma NatToStringInjective(m: nat, n: nat)
    ensures NatToString(m) == NatToString(n) <==> m == n
  {
    if NatToString(m) == NatToString(n) {
      ParseNatToString(m);
      ParseNatToString(n);
    }
  }

  /** `s.filter(keep)`: the elements that pass, in their original order. */
  function Filter<T(!new)>(s: seq<T>, keep: T -> bool): (r: seq<T>)
    ensures |r| <= |s|
    ensures forall x :: x in r <==> x in s && keep(x)
  {
    if s == [] then [] else (if keep(s[0]) then [s[0]] else []) + Filter(s[1..], keep)
  }

  /** Filtering works piecewise, so it keeps the relative order of what it
      keeps: together with the one-element case this pins `Filter` down. */
  lemma {:induction false} FilterConcat<T(!new)>(a: seq<T>, b: seq<T>, keep: T -> bool)
    ensures Filter(a + b, keep) == Filter(a, keep) + Filter(b, keep)
  {
    if a == [] {
      assert a + b == b;
    } else {
      assert (a + b)[0] == a[0];
      assert (a + b)[1..] == a[1..] + b;
      FilterConcat(a[1..], b, keep);
      var head := if keep(a[0]) then [a[0]] else [];
      assert head + (Filter(a[1..], keep) + Filter(b, keep)) == (head + Filter(a[1..], keep)) + Filter(b, keep);
    }
  }

  /** A filter every element passes gives the sequence back. */
  lemma {:induction false} FilterAll<T(!new)>(s: seq<T>, keep: T -> bool)
    requires forall i :: 0 <= i < |s| ==> keep(s[i])
    ensures Filter(s, keep) == s
  {
    if s != [] {
      FilterAll(s[1..], keep);
    }
  }

  /** Two tests that agree on every element filter alike. */
  lemma {:induction false} FilterCongruent<T(!new)>(s: seq<T>, keep: T -> bool, keep': T -> bool)
    requires forall i :: 0 <= i < |s| ==> keep(s[i]) == keep'(s[i])
    ensures Filter(s, keep) == Filter(s, keep')
  {
    if s != [] {
      FilterCongruent(s[1..], keep, keep');
    }
  }
}
