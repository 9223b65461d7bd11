// Small value wrappers shared by every module of the model.
module Wrappers {
  datatype Option<T> = None | Some(value: T)
  {
    predicate IsSome() { Some? }

    function GetOr(default: T): T
    {
      if Some? then value else default
    }
  }

  predicate IsDecimal(r: string)
  {
    forall j | 0 <= j < |r| :: '0' <= r[j] <= '9'
  }

  /** The value a string of decimal digits denotes, most significant digit first. */
  function DecimalValue(r: string): nat
    requires IsDecimal(r)
    decreases |r|
  {
    if |r| == 0 then 0 else 10 * DecimalValue(r[..|r| - 1]) + (r[|r| - 1] - '0') as nat
  }

  /** std::to_string of a non-negative value: its decimal digits, most significant first, without leading zeros. */
  function NatToString(n: nat): (r: string)
    ensures |r| > 0 && IsDecimal(r) && (|r| > 1 ==> r[0] != '0')
    decreases n
  {
    var digit := "0123456789"[n % 10];
    if n < 10 then [digit] else NatToString(n / 10) + [digit]
  }

  /** The digits read back as the value. */
  lemma {:induction false} NatToStringValue(n: nat)
    ensures DecimalValue(NatToString(n)) == n
    decreases n
  {
    var r := NatToString(n);
    var digit := "0123456789"[n % 10];
    assert (digit - '0') as nat == n % 10;
    if n >= 10 {
      NatToStringValue(n / 10);
      assert r[..|r| - 1] == NatToString(n / 10);
    }
  }

  /** std::to_string of an int: a leading '-' exactly for a negative value, then the decimal digits of its magnitude. */
  function IntToString(i: int): (r: string)
    ensures |r| > 0 && (r[0] == '-' <==> i < 0)
    ensures i >= 0 ==> IsDecimal(r) && DecimalValue(r) == i
    ensures i < 0 ==> IsDecimal(r[1..]) && DecimalValue(r[1..]) == -i
  {
    if i < 0 then
      NatToStringValue(-i);
      assert ("-" + NatToString(-i))[1..] == NatToString(-i);
      "-" + NatToString(-i)
    else
      NatToStringValue(i);
      NatToString(i)
  }
}
