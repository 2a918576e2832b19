/** The scripts compute in double precision; the model computes in integers. */
module LuaNumbers {
  import opened Base

  const TWO_53: int := 0x20_0000_0000_0000

  /** Any monotone rounding that is exact on the integers a double holds exactly. */
  ghost predicate DoubleRounding(round: int -> int) {
    && (forall x :: -TWO_53 <= x <= TWO_53 ==> round(x) == x)
    && (forall x, y :: x <= y ==> round(x) <= round(y))
  }

  /** For usage within limits, a budget comparison in doubles has the integer outcome, however
      large the requested amount, and an admitted sum is stored exactly. */
  lemma BudgetComparisonIsExact(round: int -> int, used: int, add: int, limit: int)
    requires DoubleRounding(round) && 0 <= used <= limit <= MAX_COST_MICROS && 0 <= add
    ensures round(round(used) + round(add)) > round(limit) <==> used + add > limit
    ensures used + add <= limit ==> round(round(used) + round(add)) == used + add
  {
    if add > limit {
      var wide := if add <= TWO_53 then add else TWO_53;
      assert round(wide) <= round(add);
      assert round(if used + wide <= TWO_53 then used + wide else TWO_53) <= round(used + round(add));
    }
  }
}
