/** strconv.FormatUint / strconv.ParseUint in base ten, as used for tokens and expirations. */
module Decimal {
  import opened Basics

  const ZERO_DIGIT: int := 48

  predicate IsDigit(b: Byte) {
    ZERO_DIGIT <= b < ZERO_DIGIT + 10
  }

  function Format(n: nat): (s: Bytes)
    ensures s != [] && forall i | 0 <= i < |s| :: IsDigit(s[i])
  {
    var last: Byte := ZERO_DIGIT + n % 10;
    if n < 10 then [last] else Format(n / 10) + [last]
  }

  /** The number a digit string denotes; leading zeros are accepted, as ParseUint does. */
  function Parse(s: Bytes): Option<nat> {
    if s == [] then None
    else if !IsDigit(s[|s| - 1]) then None
    else if |s| == 1 then Some(s[0] - ZERO_DIGIT)
    else
      match Parse(s[..|s| - 1])
      case None => None
      case Some(n) => Some(10 * n + (s[|s| - 1] - ZERO_DIGIT))
  }

  lemma {:induction false} ParseFormat(n: nat)
    ensures Parse(Format(n)) == Some(n)
  {
    if n >= 10 {
      ParseFormat(n / 10);
      var s := Format(n);
      assert s[..|s| - 1] == Format(n / 10);
    }
  }

  lemma FormatInjective(m: nat, n: nat)
    requires Format(m) == Format(n)
    ensures m == n
  {
    ParseFormat(m);
    ParseFormat(n);
  }
}
