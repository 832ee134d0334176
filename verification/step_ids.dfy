/**
 * Plan step identifiers. A step id is the string `step_<n>`; the model keeps
 * only the number `n` and renders it on demand. The rendering is injective,
 * so distinct numbers are distinct id strings and reasoning on numbers is
 * reasoning on ids.
 */
module StepIds {

  /** Decimal digits of `n`, most significant first, no leading zeros. */
  function Decimal(n: nat): (s: string)
    ensures |s| >= 1
    ensures forall k :: 0 <= k < |s| ==> '0' <= s[k] <= '9'
  {
    if n < 10 then [DigitChar(n)] else Decimal(n / 10) + [DigitChar(n % 10)]
  }

  function DigitChar(d: nat): (c: char)
    requires d < 10
    ensures '0' <= c <= '9' && (c as int) - ('0' as int) == d
  {
    (('0' as int) + d) as char
  }

  /** Reads a string of decimal digits back as a number. */
  function ParseDecimal(s: string): nat
    requires forall k :: 0 <= k < |s| ==> '0' <= s[k] <= '9'
  {
    if s == [] then 0
    else ParseDecimal(s[..|s| - 1]) * 10 + ((s[|s| - 1] as int) - ('0' as int))
  }

  /** Parsing undoes rendering. */
  lemma {:induction false} ParseDecimalOfDecimal(n: nat)
    ensures ParseDecimal(Decimal(n)) == n
  {
    var s := Decimal(n);
    if n >= 10 {
      assert s[..|s| - 1] == Decimal(n / 10);
      ParseDecimalOfDecimal(n / 10);
    }
  }

  /** The id string `step_<n>` of the step numbered `n`. */
  function StepName(n: nat): (s: string)
    ensures |s| > 5 && s[..5] == "step_"
  {
    "step_" + Decimal(n)
  }

  /** Different step numbers render as different id strings. */
  lemma StepNameInjective(a: nat, b: nat)
    ensures StepName(a) == StepName(b) <==> a == b
  {
    if StepName(a) == StepName(b) {
      assert Decimal(a) == StepName(a)[5..];
      assert Decimal(b) == StepName(b)[5..];
      ParseDecimalOfDecimal(a);
      ParseDecimalOfDecimal(b);
    }
  }
}
