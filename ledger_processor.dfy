/// The ledger processor: feeds payments to a property it holds, catching the
/// property up to each payment's period first.
module Processing {
  import opened Common
  import opened Tables
  import opened PropertySpec
  import opened Properties
  import opened LedgerSpec

  class LedgerProcessor {
    const property: Property

    constructor(property: Property)
      ensures this.property == property
    {
      this.property := property;
    }

    /// Forwards a payment whose sender has a slice to the property; a
    /// payment from anyone else is dropped.
    method ProcessPayment(payment: Payment) returns (err: Option<Error>)
      requires property.Valid()
      modifies property
      ensures property.Valid()
      ensures property.Abs() == ProcessOne(old(property.Abs()), payment).state
      ensures err == ProcessOne(old(property.Abs()), payment).error
    {
      if payment.sender.name in property.mortgageSlices {
        err := property.AcceptPayment(payment.sender, payment.amount, payment.period);
      } else {
        err := None;
      }
    }

    /// Sorts the payments by period, then for each one advances the property
    /// until the counter reaches its period and forwards it; the first error
    /// stops processing.
    method ProcessPayments(payments: seq<Payment>) returns (err: Option<Error>)
      requires property.Valid()
      modifies property
      ensures property.Valid()
      ensures property.Abs() == ProcessLedger(old(property.Abs()), payments).state
      ensures err == ProcessLedger(old(property.Abs()), payments).error
    {
      var sorted := SortByPeriod(payments);
      var current: nat := 0;
      var i := 0;
      while i < |sorted|
        invariant 0 <= i <= |sorted|
        invariant property.Valid()
        invariant ProcessLedger(old(property.Abs()), payments) == ProcessFrom(property.Abs(), sorted[i..], current)
      {
        current, err := CatchUpTo(current, sorted[i].period);
        if err.Some? {
          return;
        }
        err := ProcessPayment(sorted[i]);
        assert sorted[i..][1..] == sorted[i + 1..];
        if err.Some? {
          return;
        }
        i := i + 1;
      }
      err := None;
    }

    /// The inner loop of ProcessPayments: advances the property while the
    /// counter is below the period, counting each advance.
    method CatchUpTo(current: nat, period: nat) returns (reached: nat, err: Option<Error>)
      requires property.Valid()
      modifies property
      ensures property.Valid()
      ensures Run(property.Abs(), reached, err) == CatchUp(old(property.Abs()), current, period)
    {
      reached := current;
      while reached < period
        invariant property.Valid()
        invariant CatchUp(old(property.Abs()), current, period) == CatchUp(property.Abs(), reached, period)
        decreases period - reached
      {
        err := property.AdvancePeriod();
        if err.Some? {
          return;
        }
        reached := reached + 1;
      }
      err := None;
    }

    /// Advances the property by exactly one period.
    method AdvancePeriod() returns (err: Option<Error>)
      requires property.Valid()
      modifies property
      ensures property.Valid()
      ensures property.Abs() == PropertyAdvance(old(property.Abs())).state
      ensures err == PropertyAdvance(old(property.Abs())).error
    {
      err := property.AdvancePeriod();
    }

    /// The property's tables of the requested type, the full tables unless
    /// another type is asked for.
    method GetTables(tableType: TableType := Full) returns (r: Result<map<string, AmortizationTable>>)
      requires property.Valid()
      ensures r == PropertyTables(property.Abs(), tableType)
    {
      r := property.GetAmortizationSchedule(tableType);
    }
  }
}
