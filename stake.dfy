/// A co-owner's stake: a nominal slice of the mortgage (the share of the
/// debt the co-owner owes), a baseline loan of the stake's full value on the
/// same terms, and the flexible slice built from the two.
module Stakes {
  import opened Common
  import opened Tables
  import opened Combine
  import opened Schedule
  import opened Reconstruction
  import opened Loans
  import opened SliceSpec
  import opened Slices

  /// A loan on the mortgage's terms of the given value, paying from period 1
  /// with no extra payments: what Loan(mortgage_info, value) builds.
  function PlainLoan(info: LoanInfo, value: real): LoanSpec
  {
    LoanSpec(info, value, 1, map[])
  }

  /// The slice a new stake starts with: the baseline loan of the stake's
  /// value as the individual loan, the loan of the stake's debt as the
  /// nominal slice, in period 0 with nothing queued.
  function StakeSlice(baselineValue: real, loanPrincipal: real, parties: Parties, info: LoanInfo): (s: SliceState)
    requires info.annualRate > 0.0 && info.totalPeriods >= 1
    ensures Consistent(s) && PendingCurrent(s)
    ensures s.baseline.info == info && s.nominal.info == info
    ensures s.currentPeriod == 0 && s.pending == [] && s.verification == [] && s.adjusted == s.baseline
  {
    InitialConsistent(parties, PlainLoan(info, baselineValue), PlainLoan(info, loanPrincipal));
    InitialState(parties, PlainLoan(info, baselineValue), PlainLoan(info, loanPrincipal))
  }

  /// A new stake's sideloan is the plain loan of the stake's value less its
  /// debt: the part of the stake bought with the down payment, as a loan.
  lemma StakeSideloan(baselineValue: real, loanPrincipal: real, parties: Parties, info: LoanInfo)
    requires info.annualRate > 0.0 && info.totalPeriods >= 1
    ensures SliceTable(StakeSlice(baselineValue, loanPrincipal, parties, info), Sideloan)
         == Ok(AmortizationTable(Rows(PlainLoan(info, baselineValue - loanPrincipal))))
  {
    var s := StakeSlice(baselineValue, loanPrincipal, parties, info);
    ConsistentIsVerified(s);
    assert s.adjusted == PlainLoan(info, baselineValue) && s.nominal == PlainLoan(info, loanPrincipal);
    PlainLoanSplits(info, baselineValue, loanPrincipal);
    SideloanOfSum(s, Rows(PlainLoan(info, baselineValue - loanPrincipal)));
  }

  /// The plain loan of a value is the plain loan of the value less a part,
  /// plus the plain loan of that part.
  lemma PlainLoanSplits(info: LoanInfo, value: real, part: real)
    requires info.annualRate > 0.0 && info.totalPeriods >= 1
    ensures Rows(PlainLoan(info, value)) == AddTables(Rows(PlainLoan(info, value - part)), Rows(PlainLoan(info, part)))
  {
    PlainLoansAdd(info, value - part, part);
    assert value - part + part == value;
  }

  /// When the adjusted loan's table is a table plus the nominal loan's, the
  /// sideloan is that table.
  lemma SideloanOfSum(s: SliceState, side: seq<Row>)
    requires Shaped(s) && Verified(s) && s.nominal.info.totalPeriods == s.baseline.info.totalPeriods
    requires |side| == s.baseline.info.totalPeriods && Rows(s.adjusted) == AddTables(side, Rows(s.nominal))
    ensures SliceTable(s, Sideloan) == Ok(AmortizationTable(side))
  {
    RowsNumbered(s.adjusted);
    RowsNumbered(s.nominal);
    SubtractOfSum(side, Rows(s.nominal), Rows(s.adjusted), s.baseline.info.totalPeriods);
  }

  lemma SubtractOfSum(side: seq<Row>, b: seq<Row>, a: seq<Row>, n: nat)
    requires Numbered(a, n) && Numbered(b, n) && |side| == n && a == AddTables(side, b)
    ensures SubtractRows(a, b) == side
  {
    DifferenceOfNumbered(a, b, n);
    var t := SubtractRows(a, b);
    forall k | 0 <= k < n
      ensures t[k] == side[k]
    {
      assert t[k] == DiffRow(a[k], b[k]);
      assert a[k] == AddRows(side[k], b[k]);
    }
  }

  /// Plain loans add up: the table of a loan of value a + b is the row-wise
  /// sum of the tables of loans of value a and b.
  lemma PlainLoansAdd(info: LoanInfo, a: real, b: real)
    requires info.annualRate > 0.0 && info.totalPeriods >= 1
    ensures Rows(PlainLoan(info, a + b)) == AddTables(Rows(PlainLoan(info, a)), Rows(PlainLoan(info, b)))
  {
    RowsIdeal(PlainLoan(info, a));
    RowsIdeal(PlainLoan(info, b));
    RowsIdeal(PlainLoan(info, a + b));
    assert ZeroRows(1, 1) == [];
    IdealLinear(info, map[], map[], map[], 1, a, b);
  }

  /// The record of a stake: the two figures it was given, its parties, and
  /// its slice.
  datatype Stake = Stake(baselineValue: real, loanPrincipal: real, parties: Parties, mortgageSlice: MortgageSlice)

  /// Builds the nominal loan of the stake's debt and the baseline loan of its
  /// value, both on the mortgage's terms, and the flexible slice of the two.
  method NewStake(baselineValue: real, loanPrincipal: real, parties: Parties, mortgageInfo: LoanInfo)
    returns (stake: Stake)
    requires mortgageInfo.annualRate > 0.0 && mortgageInfo.totalPeriods >= 1
    ensures stake.baselineValue == baselineValue && stake.loanPrincipal == loanPrincipal
    ensures stake.parties == parties
    ensures stake.mortgageSlice.Valid() && fresh(stake.mortgageSlice.Repr)
    ensures stake.mortgageSlice.Abs() == StakeSlice(baselineValue, loanPrincipal, parties, mortgageInfo)
  {
    var mortgageSliceLoan := new Loan(mortgageInfo, loanPrincipal, 1, None);
    var individualBaselineLoan := new Loan(mortgageInfo, baselineValue, 1, None);
    var slice := new MortgageSlice(parties, individualBaselineLoan, mortgageSliceLoan);
    stake := Stake(baselineValue, loanPrincipal, parties, slice);
  }
}
