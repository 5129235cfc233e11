/**
 * Shared vocabulary of the pipeline model.
 *
 * The source passes Python dictionaries around and lets exceptions escape or
 * catches them at a stage boundary.  Here an absent value is an `Option`, an
 * operation that may end in an uncaught exception returns a `Completion`, and
 * the environment-dependent outcome of a step that the source simulates (a
 * sleep followed by a hard-coded success) is an input of type `StepOutcome`.
 */
module Outcomes {

  datatype Option<+T> = None | Some(value: T) {
    function GetOr(default: T): T {
      match this
      case Some(v) => v
      case None => default
    }
  }

  /** How a Python call ends: it returns a value, or it raises an exception
      that nobody on the way up catches. */
  datatype Completion<+T> = Normal(value: T) | Raised(exception: string)

  /** The environment's answer for a step that either finishes or raises. */
  datatype StepOutcome = Completes | Raises(message: string)

  /** `t` occurs in `s` starting at position `i`. */
  predicate OccursAt(s: string, t: string, i: int) {
    0 <= i && i + |t| <= |s| && s[i..i + |t|] == t
  }

  /** Python's `t in s` on strings: `t` occurs as a contiguous block of `s`. */
  predicate Contains(s: string, t: string) {
    exists i | 0 <= i <= |s| - |t| :: OccursAt(s, t, i)
  }

  /** A string that lacks some character of `t` cannot contain `t`. */
  lemma NotContainsMissingChar(s: string, t: string, k: nat)
    requires k < |t| && t[k] !in s
    ensures !Contains(s, t)
  {
    forall i | 0 <= i && i + |t| <= |s| ensures !OccursAt(s, t, i) {
      assert s[i..i + |t|][k] == s[i + k];
    }
  }

  function DigitChar(d: nat): char
    requires d < 10
  {
    "0123456789"[d]
  }

  /** Python's `str(n)` for a natural number: its decimal digits. */
  function NatToString(n: nat): (s: string)
    ensures |s| > 0
    ensures forall i :: 0 <= i < |s| ==> '0' <= s[i] <= '9'
  {
    if n < 10 then [DigitChar(n)] else NatToString(n / 10) + [DigitChar(n % 10)]
  }

  /** Python's `str(i)` for an integer: a minus sign for negatives, then the digits. */
  function IntToString(i: int): (s: string)
    ensures |s| > 0
    ensures (s[0] == '-') <==> i < 0
    ensures forall k :: (if i < 0 then 1 else 0) <= k < |s| ==> '0' <= s[k] <= '9'
  {
    if i < 0 then "-" + NatToString(-i) else NatToString(i)
  }

  /** The value of a string of decimal digits, most significant first. */
  function DigitsValue(s: string): int {
    if s == [] then 0 else 10 * DigitsValue(s[..|s| - 1]) + (s[|s| - 1] as int - '0' as int)
  }

  /** Python's `int(s)` on an optionally signed decimal numeral. */
  function DecimalValue(s: string): int {
    if |s| > 0 && s[0] == '-' then -DigitsValue(s[1..]) else DigitsValue(s)
  }

  lemma DigitCharValue(d: nat)
    requires d < 10
    ensures DigitChar(d) as int - '0' as int == d
  {
    assert d == 0 || d == 1 || d == 2 || d == 3 || d == 4 || d == 5 || d == 6 || d == 7 || d == 8 || d == 9;
  }

  /** Reading back the digits of `n` gives `n`. */
  lemma {:induction false} NatToStringRoundTrip(n: nat)
    ensures DigitsValue(NatToString(n)) == n
  {
    DigitCharValue(n % 10);
    if n >= 10 {
      NatToStringRoundTrip(n / 10);
      var s := NatToString(n);
      assert s[..|s| - 1] == NatToString(n / 10);
    }
  }

  /** `int(str(i)) == i`: the rendering of an integer denotes that integer,
      so distinct integers render differently. */
  lemma IntToStringRoundTrip(i: int)
    ensures DecimalValue(IntToString(i)) == i
    ensures forall j :: IntToString(j) == IntToString(i) ==> j == i
  {
    IntToStringDenotes(i);
    forall j | IntToString(j) == IntToString(i) ensures j == i {
      IntToStringDenotes(j);
    }
  }

  lemma IntToStringDenotes(i: int)
    ensures DecimalValue(IntToString(i)) == i
  {
    if i < 0 {
      NatToStringRoundTrip(-i);
      assert IntToString(i)[1..] == NatToString(-i);
    } else {
      NatToStringRoundTrip(i);
      assert NatToString(i)[0] != '-';
    }
  }
}
