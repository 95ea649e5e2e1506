/// The flexible mortgage slice object: it holds a stakeholder's baseline
/// loan, their nominal slice of the mortgage, a private copy of the baseline
/// that absorbs every over- and under-payment as an extra payment, and the
/// adjustment loans that must reconstruct that copy. Each method is proved
/// to perform the corresponding transition of the value model.
module Slices {
  import opened Common
  import opened Money
  import opened Tables
  import opened Combine
  import opened Schedule
  import opened Reconstruction
  import opened Loans
  import opened SliceSpec

  /// Each loan of the list is valid and carries the terms of the same
  /// index.
  ghost predicate Carry(loans: seq<Loan>, specs: seq<LoanSpec>)
    reads set l | l in loans
  {
    |loans| == |specs| && forall i :: 0 <= i < |loans| ==> loans[i].Valid() && loans[i].Spec() == specs[i]
  }

  /// One more valid loan keeps the list carrying its terms.
  lemma CarrySnoc(loans: seq<Loan>, specs: seq<LoanSpec>, loan: Loan)
    requires Carry(loans, specs) && loan.Valid()
    ensures Carry(loans + [loan], specs + [loan.Spec()])
  {
    var loans', specs' := loans + [loan], specs + [loan.Spec()];
    forall i | 0 <= i < |loans'|
      ensures loans'[i].Valid() && loans'[i].Spec() == specs'[i]
    {
      if i < |loans| {
        assert loans'[i] == loans[i] && specs'[i] == specs[i];
      }
    }
  }

  /// The tables of valid loans are the tables their terms generate.
  lemma {:induction false} SchedulesOfValid(loans: seq<Loan>, specs: seq<LoanSpec>)
    requires Carry(loans, specs)
    ensures forall v :: v in specs ==> WellFormed(v)
    ensures Schedules(loans) == RowsOf(specs)
  {
    if loans != [] {
      var n := |loans| - 1;
      var init, vs := loans[..n], specs[..n];
      assert Carry(init, vs) by {
        forall i | 0 <= i < n
          ensures init[i].Valid() && init[i].Spec() == vs[i]
        {
          assert init[i] == loans[i];
        }
      }
      SchedulesOfValid(init, vs);
      assert loans[n].Valid() && loans[n].Spec() == specs[n];
      assert specs == vs + [specs[n]];
      assert loans == init + [loans[n]];
      RowsOfSnoc(vs, specs[n]);
    }
  }

  /// The tables of a loan followed by a list of loans.
  lemma RowsOfCons(v: LoanSpec, vs: seq<LoanSpec>)
    requires WellFormed(v) && forall w :: w in vs ==> WellFormed(w)
    ensures forall w :: w in [v] + vs ==> WellFormed(w)
    ensures RowsOf([v] + vs) == [Rows(v)] + RowsOf(vs)
  {
    var us := [v] + vs;
    assert forall w :: w in us ==> w == v || w in vs;
    forall i | 0 <= i < |us|
      ensures RowsOf(us)[i] == ([Rows(v)] + RowsOf(vs))[i]
    {
      if i > 0 {
        assert us[i] == vs[i - 1];
      }
    }
  }

  /// The tables verify_adjustments combines: the baseline's, then the
  /// adjustment loans'.
  lemma VerificationRows(full: Loan, loans: seq<Loan>, specs: seq<LoanSpec>)
    requires full.Valid() && Carry(loans, specs)
    ensures Schedules([full] + loans) == [Rows(full.Spec())] + RowsOf(specs)
  {
    SchedulesOfValid(loans, specs);
    assert Schedules([full] + loans) == [full.schedule.schedule] + Schedules(loans);
    RowsOfCons(full.Spec(), specs);
  }

  /// The total of the payments' amounts, summed in queue order.
  method SumAmounts(payments: seq<Payment>) returns (total: real)
    ensures total == TotalAmount(payments)
  {
    total := 0.0;
    var k := 0;
    while k < |payments|
      invariant 0 <= k <= |payments|
      invariant total == TotalAmount(payments[..k])
    {
      assert payments[..k + 1][..k] == payments[..k];
      total := total + payments[k].amount;
      k := k + 1;
    }
    assert payments[..k] == payments;
  }

  class MortgageSlice {
    const payer: Party
    const recipient: Party
    const mortgageSliceLoan: Loan
    const fullValueLoan: Loan
    const adjustedLoan: Loan
    var adjustmentVerification: seq<Loan>
    ghost var verificationSpecs: seq<LoanSpec>
    var currentPeriod: nat
    var pendingPayments: seq<Payment>
    ghost var Repr: set<object>

    /// The slice as a value.
    ghost function Abs(): SliceState
      reads this, fullValueLoan, mortgageSliceLoan, adjustedLoan
    {
      SliceState(payer, recipient, currentPeriod, pendingPayments, fullValueLoan.Spec(), mortgageSliceLoan.Spec(),
                 adjustedLoan.Spec(), verificationSpecs)
    }

    /// Every loan is valid, the adjusted loan is the slice's own, and the
    /// value it stands for keeps the shape of every slice.
    ghost predicate Valid()
      reads this, Repr
    {
      LoansValid() && Shaped(Abs())
    }

    /// Every loan is valid and the adjusted loan is the slice's own.
    ghost predicate LoansValid()
      reads this, Repr
    {
      && this in Repr && fullValueLoan in Repr && mortgageSliceLoan in Repr && adjustedLoan in Repr
      && adjustedLoan != fullValueLoan && adjustedLoan != mortgageSliceLoan
      && fullValueLoan.Valid() && mortgageSliceLoan.Valid() && adjustedLoan.Valid()
      && (forall i :: 0 <= i < |adjustmentVerification| ==>
            adjustmentVerification[i] in Repr && adjustmentVerification[i] != adjustedLoan)
      && Carry(adjustmentVerification, verificationSpecs)
    }

    /// A new flexible slice: its adjusted loan is a deep copy of the
    /// baseline, so adjustments never touch the loans it was given.
    constructor(parties: Parties, individualLoan: Loan, mortgageSlice: Loan)
      requires individualLoan.Valid() && mortgageSlice.Valid()
      ensures Valid() && fresh(Repr - {individualLoan, mortgageSlice})
      ensures fullValueLoan == individualLoan && mortgageSliceLoan == mortgageSlice
      ensures Abs() == InitialState(parties, individualLoan.Spec(), mortgageSlice.Spec())
    {
      payer := parties.stakeholder;
      recipient := parties.commonParty;
      mortgageSliceLoan := mortgageSlice;
      fullValueLoan := individualLoan;
      var copy := individualLoan.DeepCopy();
      adjustedLoan := copy;
      adjustmentVerification := [];
      verificationSpecs := [];
      currentPeriod := 0;
      pendingPayments := [];
      Repr := {this, individualLoan, mortgageSlice, copy};
      new;
      InitialConsistent(parties, individualLoan.Spec(), mortgageSlice.Spec());
    }

    /// Queues a payment of the current period; refuses any other period.
    method AcceptPayment(payment: Payment) returns (err: Option<Error>)
      requires Valid()
      modifies this
      ensures Valid() && Repr == old(Repr)
      ensures Abs() == AcceptStep(old(Abs()), payment).state
      ensures err == AcceptStep(old(Abs()), payment).error
    {
      if payment.period != currentPeriod {
        return Some(PeriodMismatch);
      }
      pendingPayments := pendingPayments + [payment];
      err := None;
      AcceptOutcome(old(Abs()), payment);
    }

    /// Closes the current period: sums the queued payments, nets them
    /// against the adjusted loan's payment for the period, records a
    /// non-zero difference, drops the processed payments and moves on.
    method AdvancePeriod() returns (err: Option<Error>)
      requires Valid()
      modifies Repr
      ensures Valid() && fresh(Repr - old(Repr))
      ensures Abs() == AdvanceStep(old(Abs())).state
      ensures err == AdvanceStep(old(Abs())).error
    {
      ghost var s := Abs();
      var totalPaid := SumAmounts(pendingPayments);
      var expected := adjustedLoan.GetPaymentForPeriod(currentPeriod);
      DifferenceOfParts(s, totalPaid, expected);
      if expected.Err? {
        return Some(expected.error);
      }
      var difference := Round2(totalPaid - expected.value.totalPayment);
      err := Settle(difference);
    }

    /// Refuses a negative down payment, records a non-zero difference as an
    /// adjustment payment from the payer to the recipient, then drops the
    /// payments of the closed period and moves to the next one.
    method Settle(difference: real) returns (err: Option<Error>)
      requires Valid() && currentPeriod <= fullValueLoan.totalPeriods
      modifies Repr
      ensures Valid() && fresh(Repr - old(Repr))
      ensures Abs() == SliceSpec.Settle(old(Abs()), difference).state
      ensures err == SliceSpec.Settle(old(Abs()), difference).error
    {
      ghost var s := Abs();
      if difference < 0.0 && currentPeriod < 1 {
        return Some(NegativeDownPayment);
      }
      if difference != 0.0 {
        var adjustmentPayment := Payment(difference, payer, recipient, currentPeriod, None);
        err := AddAdjustmentPayment(adjustmentPayment);
        if err.Some? {
          return;
        }
      }
      ghost var t := Abs();
      assert SliceSpec.Settle(s, difference) == Step(Advanced(t), None);
      NextPeriod();
      err := None;
    }

    /// Drops the payments of the closed period and moves to the next one.
    method NextPeriod()
      requires Valid()
      modifies this
      ensures Valid() && Repr == old(Repr)
      ensures Abs() == Advanced(old(Abs()))
    {
      pendingPayments := After(pendingPayments, currentPeriod);
      currentPeriod := currentPeriod + 1;
      assert Carry(adjustmentVerification, verificationSpecs);
    }

    /// Turns an extra payment into the equivalent adjustment loan, of value
    /// minus the amount and paying from the next period on the baseline's
    /// terms, and records both. In the last period that loan has no payment
    /// periods and its level payment divides by zero.
    method AddAdjustmentPayment(payment: Payment) returns (err: Option<Error>)
      requires Valid() && payment.period <= fullValueLoan.totalPeriods
      modifies this, adjustedLoan
      ensures Valid() && fresh(Repr - old(Repr))
      ensures Abs() == RecordStep(old(Abs()), payment).state
      ensures err == RecordStep(old(Abs()), payment).error
    {
      if payment.period == fullValueLoan.totalPeriods {
        return Some(DivisionByZero);
      }
      var generatedLoan := new Loan(LoanInfo(fullValueLoan.annualRate, fullValueLoan.totalPeriods),
                                    -payment.amount, payment.period + 1, None);
      err := AddAdjustment(generatedLoan, payment);
    }

    /// Records an extra payment on the adjusted loan, appends its adjustment
    /// loan to the verification list, and verifies the two agree.
    method AddAdjustment(loan: Loan, payment: Payment) returns (err: Option<Error>)
      requires Valid() && loan.Valid() && loan !in Repr
      requires payment.period < fullValueLoan.totalPeriods
      requires loan.Spec() == AdjustmentLoan(fullValueLoan.Spec().info, payment.period, payment.amount)
      modifies this, adjustedLoan
      ensures Valid() && Repr == old(Repr) + {loan}
      ensures Abs() == RecordStep(old(Abs()), payment).state
      ensures err == RecordStep(old(Abs()), payment).error
    {
      ghost var s := Abs();
      Record(loan, payment);
      RecordedState(s, payment);
      err := VerifyAdjustments();
    }

    /// The two updates of an adjustment, before verification.
    method Record(loan: Loan, payment: Payment)
      requires Valid() && loan.Valid() && loan !in Repr
      requires payment.period < fullValueLoan.totalPeriods
      requires loan.Spec() == AdjustmentLoan(fullValueLoan.Spec().info, payment.period, payment.amount)
      modifies this, adjustedLoan
      ensures Valid() && Repr == old(Repr) + {loan}
      ensures Abs() == RecordStep(old(Abs()), payment).state
    {
      ghost var s := Abs();
      adjustedLoan.AddExtraPayment(payment);
      assert Carry(adjustmentVerification, verificationSpecs);
      AppendVerification(loan, s, payment);
      RecordedState(s, payment);
    }

    /// The second update of an adjustment: the adjustment loan joins the
    /// verification list.
    method AppendVerification(loan: Loan, ghost s: SliceState, payment: Payment)
      requires LoansValid() && loan.Valid() && loan !in Repr
      requires Shaped(s) && payment.period < s.baseline.info.totalPeriods
      requires loan.Spec() == AdjustmentLoan(s.baseline.info, payment.period, payment.amount)
      requires Abs() == s.(adjusted := s.adjusted.(extras := AddExtra(s.adjusted.extras, payment.period, payment.amount)))
      modifies this
      ensures Valid() && Repr == old(Repr) + {loan}
      ensures Abs() == s.(adjusted := s.adjusted.(extras := AddExtra(s.adjusted.extras, payment.period, payment.amount)),
                          verification := s.verification + [loan.Spec()])
    {
      CarrySnoc(adjustmentVerification, verificationSpecs, loan);
      ghost var t := Abs().(verification := verificationSpecs + [loan.Spec()]);
      RecordKeepsShape(s, loan.Spec(), t);
      adjustmentVerification := adjustmentVerification + [loan];
      verificationSpecs := verificationSpecs + [loan.Spec()];
      Repr := Repr + {loan};
      assert Abs() == t;
    }

    /// Compares the regenerated table of the adjusted loan with the combined
    /// tables of the baseline and the adjustment loans; a consistent slice
    /// always passes.
    method VerifyAdjustments() returns (err: Option<Error>)
      requires Valid()
      ensures err.None? <==> Verified(Abs())
      ensures err.Some? ==> err.value == VerificationFailed
      ensures Consistent(Abs()) ==> err.None?
    {
      var adjustedSchedule := adjustedLoan.GenerateAmortizationSchedule();
      var verificationSchedule := CombineLoans([fullValueLoan] + adjustmentVerification);
      VerificationRows(fullValueLoan, adjustmentVerification, verificationSpecs);
      var eq, mismatches := TableEquals(adjustedSchedule, Some(verificationSchedule));
      err := if eq then None else Some(VerificationFailed);
      if Consistent(Abs()) {
        ConsistentIsVerified(Abs());
      }
    }

    /// The adjustment loans' tables summed, without verification.
    method GetAdjustmentTable() returns (table: AmortizationTable)
      requires Valid()
      ensures table == AdjustmentTable(Abs())
    {
      assert Carry(adjustmentVerification, verificationSpecs);
      SchedulesOfValid(adjustmentVerification, verificationSpecs);
      table := CombineLoans(adjustmentVerification);
    }

    /// The adjusted loan's table minus the nominal loan's, after verifying.
    method GetSideloanTable() returns (r: Result<AmortizationTable>)
      requires Valid()
      ensures r == SliceTable(Abs(), Sideloan)
    {
      var err := VerifyAdjustments();
      if err.Some? {
        return Err(err.value);
      }
      var sideloan := SubtractLoans(adjustedLoan, mortgageSliceLoan);
      return Ok(sideloan);
    }

    /// The table of the requested type, after verifying the adjustments.
    method GetAmortizationSchedule(tableType: TableType) returns (r: Result<AmortizationTable>)
      requires Valid()
      ensures r == SliceTable(Abs(), tableType)
    {
      var err := VerifyAdjustments();
      if err.Some? {
        return Err(err.value);
      }
      match tableType {
        case Full => r := Ok(adjustedLoan.schedule);
        case Sideloan => r := GetSideloanTable();
        case Baseline => r := Ok(fullValueLoan.schedule);
      }
    }
  }
}
