/** `InvestmentForm.clean_amount`: the pledge window. */
module Forms {
  import opened Wrappers

  const MinimumPledge: int := 2000
  const MaximumPledge: int := 5000

  /** The one validation error a rejected amount produces. */
  datatype AmountError = BelowMinimum | AboveMaximum

  /**
   * Accepts an amount in [2000, 5000] unchanged. The lower bound is
   * checked first, so each rejected amount carries exactly one error.
   */
  function CleanAmount(amount: int): (r: Result<int, AmountError>)
    ensures r.Ok? <==> MinimumPledge <= amount <= MaximumPledge
    ensures r.Ok? ==> r.value == amount
    ensures amount < MinimumPledge <==> r == Err(BelowMinimum)
    ensures amount > MaximumPledge <==> r == Err(AboveMaximum)
  {
    if amount < MinimumPledge then Err(BelowMinimum)
    else if amount > MaximumPledge then Err(AboveMaximum)
    else Ok(amount)
  }
}
