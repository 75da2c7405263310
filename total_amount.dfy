/**
 * The total-amount calculator: the principal of a record plus, for expense
 * records only, every extra charge with its tax. Python's Decimal values are
 * modelled as exact reals.
 */
module TotalAmount {
  import opened Wrappers
  import opened Records

  /** One charge line's contribution: its amount plus its tax, the reference sums of a one-line list. */
  function ExtraAmountTotal(ea: ExtraAmount): (t: real)
    ensures t == SumAmounts([ea]) + SumTaxes([ea])
  {
    assert [ea][1..] == [];
    ea.amount + ea.tax
  }

  /**
   * Python's `sum` over the per-line totals: a running sum from 0, left to
   * right. It equals the sum of all amounts plus the sum of all taxes, so
   * nothing is rounded or lost.
   */
  function ExtrasTotal(eas: seq<ExtraAmount>): (total: real)
    ensures total == SumAmounts(eas) + SumTaxes(eas)
    decreases |eas|
  {
    if eas == [] then 0.0
    else
      var init, last := eas[..|eas| - 1], eas[|eas| - 1];
      assert eas == init + [last];
      SumAmountsSnoc(init, last);
      SumTaxesSnoc(init, last);
      ExtrasTotal(init) + ExtraAmountTotal(last)
  }

  /** Reference definition: the sum of the charge amounts alone. */
  function SumAmounts(eas: seq<ExtraAmount>): (total: real)
  {
    if eas == [] then 0.0 else eas[0].amount + SumAmounts(eas[1..])
  }

  /** Reference definition: the sum of the charge taxes alone. */
  function SumTaxes(eas: seq<ExtraAmount>): (total: real)
  {
    if eas == [] then 0.0 else eas[0].tax + SumTaxes(eas[1..])
  }

  /** `calculate_total_amount`: extras count only on an expense record that has them. */
  function CalculateTotalAmount(r: Record): (total: real)
    ensures r.recordType != Expense ==> total == r.amount
    ensures r.extraAmounts.None? ==> total == r.amount
    ensures r.extraAmounts == Some([]) ==> total == r.amount
    ensures r.recordType == Expense && r.extraAmounts.Some? ==>
              total == r.amount + SumAmounts(r.extraAmounts.value) + SumTaxes(r.extraAmounts.value)
  {
    var hasExtraAmounts := r.recordType == Expense && r.extraAmounts.Some?;
    var extraAmountTotal := if hasExtraAmounts then ExtrasTotal(r.extraAmounts.value) else 0.0;
    r.amount + extraAmountTotal
  }

  lemma {:induction false} SumAmountsSnoc(eas: seq<ExtraAmount>, ea: ExtraAmount)
    ensures SumAmounts(eas + [ea]) == SumAmounts(eas) + ea.amount
  {
    if eas != [] {
      assert (eas + [ea])[1..] == eas[1..] + [ea];
      SumAmountsSnoc(eas[1..], ea);
    }
  }

  lemma {:induction false} SumTaxesSnoc(eas: seq<ExtraAmount>, ea: ExtraAmount)
    ensures SumTaxes(eas + [ea]) == SumTaxes(eas) + ea.tax
  {
    if eas != [] {
      assert (eas + [ea])[1..] == eas[1..] + [ea];
      SumTaxesSnoc(eas[1..], ea);
    }
  }

  /** The charges of two lists add up to the charges of their concatenation. */
  lemma {:induction false} ExtrasTotalAppend(a: seq<ExtraAmount>, b: seq<ExtraAmount>)
    ensures ExtrasTotal(a + b) == ExtrasTotal(a) + ExtrasTotal(b)
  {
    if b != [] {
      assert (a + b)[..|a + b| - 1] == a + b[..|b| - 1];
      assert (a + b)[|a + b| - 1] == b[|b| - 1];
      ExtrasTotalAppend(a, b[..|b| - 1]);
    } else {
      assert a + b == a;
    }
  }

  /** Non-negative charges never lower the total below the principal. */
  lemma {:induction false} ChargesOnlyAdd(r: Record)
    requires r.extraAmounts.Some? ==>
               forall i :: 0 <= i < |r.extraAmounts.value| ==>
                 r.extraAmounts.value[i].amount >= 0.0 && r.extraAmounts.value[i].tax >= 0.0
    ensures CalculateTotalAmount(r) >= r.amount
  {
    if r.recordType == Expense && r.extraAmounts.Some? {
      var eas := r.extraAmounts.value;
      AmountsNonNegative(eas);
      TaxesNonNegative(eas);
    }
  }

  lemma {:induction false} AmountsNonNegative(eas: seq<ExtraAmount>)
    requires forall i :: 0 <= i < |eas| ==> eas[i].amount >= 0.0
    ensures SumAmounts(eas) >= 0.0
  {
    if eas != [] {
      AmountsNonNegative(eas[1..]);
    }
  }

  lemma {:induction false} TaxesNonNegative(eas: seq<ExtraAmount>)
    requires forall i :: 0 <= i < |eas| ==> eas[i].tax >= 0.0
    ensures SumTaxes(eas) >= 0.0
  {
    if eas != [] {
      TaxesNonNegative(eas[1..]);
    }
  }
}
