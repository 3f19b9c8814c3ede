/** Decimal texts and the numbers they denote, apart from how any of them is printed. */
module Decimals {

  predicate Decimal(s: string) {
    forall c | c in s :: '0' <= c <= '9'
  }

  function Number(s: string): (n: nat)
    requires Decimal(s)
  {
    if s == "" then 0
    else
      var n, last := |s| - 1, s[|s| - 1];
      assert last in s && forall c | c in s[..n] :: c in s;
      10 * Number(s[..n]) + (last as int - 48)
  }
}
