// The argument buffer that `write_redis_args` implementations append to, and the decimal
// rendering the crate's `ToRedisArgs` uses for unsigned integers.
module RedisArgs {
  import opened Wrappers

  /** The `RedisWrite` buffer: the arguments written so far, in order. */
  class ArgWriter {
    var args: seq<string>

    constructor ()
      ensures args == []
    {
      args := [];
    }

    /** `out.write_arg(token)`: appends one argument. */
    method WriteArg(token: string)
      modifies this
      ensures args == old(args) + [token]
    {
      args := args + [token];
    }
  }

  function DigitChar(d: nat): (c: char)
    requires d < 10
    ensures '0' <= c <= '9'
  {
    "0123456789"[d]
  }

  predicate IsDigit(c: char) { '0' <= c <= '9' }

  function DigitValue(c: char): (d: nat)
    requires IsDigit(c)
    ensures d < 10 && DigitChar(d) == c
  {
    c as int - '0' as int
  }

  /** Decimal rendering of an unsigned integer, most significant digit first, no leading zero. */
  function NatToString(n: nat): (s: string)
    decreases n
  {
    if n < 10 then [DigitChar(n)] else NatToString(n / 10) + [DigitChar(n % 10)]
  }

  /** A canonical decimal numeral: non-empty, digits only, no leading zero except "0" itself. */
  predicate IsCanonicalDecimal(s: string)
  {
    |s| > 0 && (forall i :: 0 <= i < |s| ==> IsDigit(s[i])) && (s[0] == '0' ==> |s| == 1)
  }

  /** The value of a string of digits. */
  function DigitsValue(s: string): nat
    requires forall i :: 0 <= i < |s| ==> IsDigit(s[i])
  {
    if |s| == 0 then 0 else DigitsValue(s[..|s| - 1]) * 10 + DigitValue(s[|s| - 1])
  }

  /** Reads back a canonical decimal numeral; anything else is rejected. */
  function ParseDecimal(s: string): Option<nat>
  {
    if IsCanonicalDecimal(s) then Some(DigitsValue(s)) else None
  }

  lemma {:induction false} NatToStringIsCanonical(n: nat)
    ensures IsCanonicalDecimal(NatToString(n))
    ensures DigitsValue(NatToString(n)) == n
    ensures n >= 10 ==> |NatToString(n)| >= 2
    decreases n
  {
    if n >= 10 {
      NatToStringIsCanonical(n / 10);
      var s, t, c := NatToString(n), NatToString(n / 10), DigitChar(n % 10);
      assert s == t + [c];
      assert s[..|s| - 1] == t && s[0] == t[0];
      assert forall i :: 0 <= i < |s| ==> IsDigit(s[i]) by {
        forall i | 0 <= i < |s|
          ensures IsDigit(s[i])
        {
          if i < |t| {
            assert s[i] == t[i];
          }
        }
      }
      DigitCharValue(n % 10);
      assert DigitsValue(s) == DigitsValue(t) * 10 + DigitValue(c);
    }
  }

  lemma DigitCharValue(d: nat)
    requires d < 10
    ensures DigitValue(DigitChar(d)) == d
  {
  }

  /** Decimal rendering and parsing are inverse: every number reads back as itself. */
  lemma DecimalRoundTrip(n: nat)
    ensures ParseDecimal(NatToString(n)) == Some(n)
  {
    NatToStringIsCanonical(n);
  }

  /** ... and every canonical numeral is the rendering of the number it denotes. */
  lemma {:induction false} CanonicalDecimalRoundTrip(s: string)
    requires IsCanonicalDecimal(s)
    ensures NatToString(DigitsValue(s)) == s
    decreases |s|
  {
    if |s| == 1 {
      assert s[..0] == [];
      assert DigitsValue(s) == DigitValue(s[0]);
      assert s == [s[0]];
    } else {
      var p := s[..|s| - 1];
      assert forall i :: 0 <= i < |p| ==> p[i] == s[i];
      assert p[0] == s[0] != '0';
      assert IsCanonicalDecimal(p);
      CanonicalDecimalRoundTrip(p);
      LeadingDigitPositive(p);
      var q, d := DigitsValue(p), DigitValue(s[|s| - 1]);
      DivModDigit(q, d);
      assert DigitsValue(s) == q * 10 + d >= 10;
      assert NatToString(q * 10 + d) == NatToString(q) + [DigitChar(d)];
      assert s == p + [s[|s| - 1]];
    }
  }

  lemma DivModDigit(q: nat, d: nat)
    requires d < 10
    ensures (q * 10 + d) / 10 == q && (q * 10 + d) % 10 == d
  {
  }

  lemma {:induction false} LeadingDigitPositive(s: string)
    requires |s| > 0 && (forall i :: 0 <= i < |s| ==> IsDigit(s[i])) && s[0] != '0'
    ensures DigitsValue(s) > 0
    decreases |s|
  {
    if |s| > 1 {
      LeadingDigitPositive(s[..|s| - 1]);
    }
  }
}
