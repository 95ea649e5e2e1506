/// A co-owned property: one flexible slice per stakeholder name, all paying
/// into one common fund. The property keeps every slice as the value the
/// slice class stands for and fans payments and period advances out to them.
module Properties {
  import opened Common
  import opened Tables
  import opened SliceSpec
  import opened Stakes
  import opened PropertySpec

  class Property {
    const stakeholders: map<string, Party>
    const commonFund: Party
    const parties: map<string, Parties>
    const loanInfo: LoanInfo
    /// The order the name-keyed dictionaries list their names in.
    const order: seq<string>
    /// Every stakeholder's slice, by name.
    var mortgageSlices: map<string, SliceState>

    /// The property as a value.
    function Abs(): PropertyState
      reads this
    {
      PropertyState(stakeholders, commonFund, loanInfo, mortgageSlices, order)
    }

    /// The parties of every slice are its stakeholder and the common fund,
    /// and the property is in shape.
    predicate Valid()
      reads this
    {
      && parties.Keys == stakeholders.Keys
      && (forall n :: n in parties ==> parties[n] == Parties(stakeholders[n], commonFund))
      && PropertyShaped(Abs())
    }

    /// Builds a property, or fails by dividing by zero when no party of the
    /// list is a stakeholder.
    static method New(params: PropertyParams) returns (r: Result<Property>)
      requires params.loanInfo.annualRate > 0.0 && params.loanInfo.totalPeriods >= 1
      ensures r.Ok? <==> InitialProperty(params).Ok?
      ensures r.Err? ==> r.error == InitialProperty(params).error
      ensures r.Ok? ==> fresh(r.value) && r.value.Valid() && r.value.Abs() == InitialProperty(params).value
    {
      var stakeholders := StakeholdersByName(params.stakeholders);
      if |stakeholders| == 0 {
        return Err(DivisionByZero);
      }
      var p := new Property(params, stakeholders);
      return Ok(p);
    }

    /// Splits the cost and the debt evenly over the names, gives every name
    /// its stake, then queues every known name's down payment.
    constructor(params: PropertyParams, stakeholderMap: map<string, Party>)
      requires params.loanInfo.annualRate > 0.0 && params.loanInfo.totalPeriods >= 1
      requires stakeholderMap == StakeholdersByName(params.stakeholders) && |stakeholderMap| > 0
      ensures Valid() && Abs() == InitialProperty(params).value
    {
      var count := |stakeholderMap| as real;
      var stakeValue := params.purchaseCost / count;
      var stakeDebt := (params.purchaseCost - params.purchaseDownPayment) / count;
      var slices := StakeSlices(stakeholderMap, stakeValue, stakeDebt, params.loanInfo);
      slices := QueueDownPayments(params, stakeholderMap, stakeValue, stakeDebt, slices);
      stakeholders := stakeholderMap;
      commonFund := CommonFund;
      parties := PartiesByName(stakeholderMap);
      loanInfo := params.loanInfo;
      order := NameOrder(params.stakeholders);
      new;
      mortgageSlices := slices;
      InitialPropertyOf(params, stakeholderMap, stakeValue, stakeDebt, slices, Abs());
    }

    /// Queues, for every name with a down payment that has a slice, that
    /// amount as a period-0 payment from the stakeholder to the common fund.
    static method QueueDownPayments(params: PropertyParams, stakeholders: map<string, Party>,
                                    stakeValue: real, stakeDebt: real, slices: map<string, SliceState>)
      returns (queued: map<string, SliceState>)
      requires params.loanInfo.annualRate > 0.0 && params.loanInfo.totalPeriods >= 1
      requires forall n :: n in stakeholders ==> stakeholders[n].name == n
      requires slices == StakeSlices(stakeholders, stakeValue, stakeDebt, params.loanInfo)
      ensures queued == InitialSlices(params, stakeholders, stakeValue, stakeDebt)
    {
      queued := QueueEach(params, stakeholders, stakeValue, stakeDebt, slices);
      InitialSlicesAre(params, stakeholders, stakeValue, stakeDebt, queued);
    }

    /// The loop of QueueDownPayments: every name ends with its new slice.
    static method QueueEach(params: PropertyParams, stakeholders: map<string, Party>,
                            stakeValue: real, stakeDebt: real, slices: map<string, SliceState>)
      returns (queued: map<string, SliceState>)
      requires params.loanInfo.annualRate > 0.0 && params.loanInfo.totalPeriods >= 1
      requires forall n :: n in stakeholders ==> stakeholders[n].name == n
      requires slices == StakeSlices(stakeholders, stakeValue, stakeDebt, params.loanInfo)
      ensures queued.Keys == stakeholders.Keys
      ensures forall n :: n in queued ==> queued[n] == NewSlice(params, stakeValue, stakeDebt, stakeholders[n])
    {
      queued := slices;
      var todo := params.stakeholderDownPayments.Keys;
      while todo != {}
        invariant todo <= params.stakeholderDownPayments.Keys
        invariant queued.Keys == stakeholders.Keys
        invariant forall n :: n in queued && n in params.stakeholderDownPayments && n !in todo ==>
          queued[n] == NewSlice(params, stakeValue, stakeDebt, stakeholders[n])
        invariant forall n :: n in queued && (n !in params.stakeholderDownPayments || n in todo) ==>
          queued[n] == StakeSlice(stakeValue, stakeDebt, Parties(stakeholders[n], CommonFund), params.loanInfo)
        decreases todo
      {
        var name :| name in todo;
        if name in queued {
          var payment := Payment(params.stakeholderDownPayments[name], stakeholders[name], CommonFund, 0, None);
          NewSliceQueues(params, stakeValue, stakeDebt, stakeholders[name]);
          queued := queued[name := AcceptStep(queued[name], payment).state];
        }
        todo := todo - {name};
      }
      forall n | n in queued
        ensures queued[n] == NewSlice(params, stakeValue, stakeDebt, stakeholders[n])
      {
        NewSliceQueues(params, stakeValue, stakeDebt, stakeholders[n]);
      }
    }

    /// Forwards a payment of the given amount and period from the named
    /// stakeholder to the common fund; an unknown name is refused.
    method AcceptPayment(stakeholder: Party, amount: real, period: int) returns (err: Option<Error>)
      requires Valid()
      modifies this
      ensures Valid()
      ensures Abs() == PropertyAccept(old(Abs()), stakeholder, amount, period).state
      ensures err == PropertyAccept(old(Abs()), stakeholder, amount, period).error
    {
      PropertyAcceptShaped(Abs(), stakeholder, amount, period);
      if stakeholder.name !in mortgageSlices {
        return Some(UnknownStakeholder);
      }
      var payment := NewPayment(amount, stakeholders[stakeholder.name], commonFund, period, None);
      if payment.Err? {
        return Some(payment.error);
      }
      var step := AcceptStep(mortgageSlices[stakeholder.name], payment.value);
      mortgageSlices := mortgageSlices[stakeholder.name := step.state];
      err := step.error;
    }

    /// Advances every slice once, in the order of the names; the first
    /// slice that fails stops the advance.
    method AdvancePeriod() returns (err: Option<Error>)
      requires Valid()
      modifies this
      ensures Valid()
      ensures Abs() == PropertyAdvance(old(Abs())).state
      ensures err == PropertyAdvance(old(Abs())).error
    {
      PropertyAdvanceShaped(Abs());
      AdvanceReapplicable();
      err := ApplyInOrder(AdvanceStep);
    }

    /// Applies a slice operation to each slice of the order in turn,
    /// stopping at the first error.
    method ApplyInOrder(step: SliceState --> Step) returns (err: Option<Error>)
      requires Reapplicable(step) && RoundReady(step, mortgageSlices, order)
      modifies this
      ensures (mortgageSlices, err) == Round(step, old(mortgageSlices), order, 0)
    {
      var i := 0;
      while i < |order|
        invariant 0 <= i <= |order|
        invariant RoundReady(step, mortgageSlices, order)
        invariant Round(step, old(mortgageSlices), order, 0) == Round(step, mortgageSlices, order, i)
      {
        var result := step(mortgageSlices[order[i]]);
        mortgageSlices := mortgageSlices[order[i] := result.state];
        if result.error.Some? {
          return result.error;
        }
        i := i + 1;
      }
      err := None;
    }

    /// The table of the requested type of every slice, by name.
    method GetAmortizationSchedule(tableType: TableType) returns (r: Result<map<string, AmortizationTable>>)
      requires Valid()
      ensures r == PropertyTables(Abs(), tableType)
    {
      assert forall n :: n in order ==> n in mortgageSlices && Shaped(mortgageSlices[n]);
      var tables := map[];
      var i := 0;
      while i < |order|
        invariant 0 <= i <= |order|
        invariant forall n :: n in tables <==> n in order[..i]
        invariant forall n :: n in tables ==> Ok(tables[n]) == SliceTable(mortgageSlices[n], tableType)
      {
        var name := order[i];
        assert order[..i + 1] == order[..i] + [name];
        var table := SliceTable(mortgageSlices[name], tableType);
        if table.Err? {
          TableMeansVerified(mortgageSlices[name], tableType);
          CollectFails(SliceTables(Abs(), tableType), name);
          return Err(table.error);
        }
        tables := tables[name := table.value];
        i := i + 1;
      }
      assert order[..|order|] == order;
      CollectAllOk(SliceTables(Abs(), tableType), tables);
      return Ok(tables);
    }
  }
}
