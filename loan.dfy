/// A loan object: its terms, its extra payments by period, and the
/// amortization table it regenerates whenever an extra payment is recorded;
/// plus the sum and difference of loans' tables.
module Loans {
  import opened Common
  import opened Money
  import opened Tables
  import opened Combine
  import opened Schedule

  /// The four figures reported for one period.
  datatype PaymentDetails = PaymentDetails(totalPayment: real, principal: real, interest: real, remainingBalance: real)

  /// Index of the first row of the given period, if any.
  function FirstRowOf(rows: seq<Row>, period: int): (k: Option<nat>)
    ensures k.Some? ==>
      k.value < |rows| && rows[k.value].period == period && forall j :: 0 <= j < k.value ==> rows[j].period != period
    ensures k.None? ==> forall j :: 0 <= j < |rows| ==> rows[j].period != period
  {
    if rows == [] then None
    else if rows[0].period == period then Some(0)
    else match FirstRowOf(rows[1..], period)
      case None => None
      case Some(k) => Some(k + 1)
  }

  /// Payment details of a period: period 0 is the down-payment period with
  /// nothing due and the whole value owed; a period past the number of rows
  /// is out of range; otherwise the first row of that period, if any.
  function PaymentFor(rows: seq<Row>, totalValue: real, period: int): Result<PaymentDetails>
  {
    if period == 0 then Ok(PaymentDetails(0.0, 0.0, 0.0, totalValue))
    else if period > |rows| then Err(PeriodOutOfRange)
    else match FirstRowOf(rows, period)
      case None => Err(NoPaymentFound)
      case Some(k) => Ok(PaymentDetails(rows[k].totalPayment, rows[k].principal, rows[k].interest, rows[k].balance))
  }

  /// On a schedule numbered 1..n, every period 1..n has the details of its
  /// own row, a later period is out of range and a negative one has no row.
  lemma PaymentForNumbered(rows: seq<Row>, n: nat, totalValue: real, period: int)
    requires Numbered(rows, n)
    ensures period == 0 ==> PaymentFor(rows, totalValue, period) == Ok(PaymentDetails(0.0, 0.0, 0.0, totalValue))
    ensures 1 <= period <= n ==>
      PaymentFor(rows, totalValue, period) == Ok(PaymentDetails(rows[period - 1].totalPayment, rows[period - 1].principal,
                                                                 rows[period - 1].interest, rows[period - 1].balance))
    ensures period > n ==> PaymentFor(rows, totalValue, period) == Err(PeriodOutOfRange)
    ensures period < 0 ==> PaymentFor(rows, totalValue, period) == Err(NoPaymentFound)
  {
    if 1 <= period <= n {
      var k := FirstRowOf(rows, period);
      assert rows[period - 1].period == period;
      assert k.Some? && k.value == period - 1;
    }
  }

  class Loan {
    const annualRate: real
    const totalPeriods: int
    const totalValue: real
    const startPeriod: int
    const monthlyRate: real
    const paymentPeriods: int
    var extraPayments: map<int, real>
    var downPayment: real
    var principal: real
    var schedule: AmortizationTable

    /// The loan's terms and extra payments as a value.
    function Spec(): LoanSpec
      reads this
    {
      LoanSpec(LoanInfo(annualRate, totalPeriods), totalValue, startPeriod, extraPayments)
    }

    /// The derived fields agree with the terms and extra payments.
    predicate Valid()
      reads this
    {
      && WellFormed(Spec())
      && monthlyRate == MonthlyRate(Spec().info)
      && paymentPeriods == PaymentPeriods(Spec())
      && downPayment == DownPayment(Spec())
      && principal == Principal(Spec())
      && schedule.schedule == Rows(Spec())
    }

    constructor(loanInfo: LoanInfo, totalValue: real, startPeriod: int, extraPayments: Option<map<int, real>>)
      requires loanInfo.annualRate > 0.0 && 1 <= startPeriod <= loanInfo.totalPeriods
      ensures Valid()
      ensures Spec() == LoanSpec(loanInfo, totalValue, startPeriod,
                                 if extraPayments.Some? then extraPayments.value else map[])
    {
      this.totalValue := totalValue;
      this.extraPayments := if extraPayments.Some? then extraPayments.value else map[];
      downPayment := 0.0;
      principal := 0.0;
      annualRate := loanInfo.annualRate;
      totalPeriods := loanInfo.totalPeriods;
      this.startPeriod := startPeriod;
      monthlyRate := loanInfo.annualRate / 12.0;
      paymentPeriods := loanInfo.totalPeriods - startPeriod + 1;
      schedule := AmortizationTable([]);
      new;
      PeriodZeroSetup();
      schedule := GenerateAmortizationSchedule();
    }

    /// Reads the down payment from the extra payment of period 0 and sets
    /// the amount financed.
    method PeriodZeroSetup()
      modifies this
      ensures downPayment == Get(extraPayments, 0)
      ensures principal == totalValue - downPayment
      ensures extraPayments == old(extraPayments) && schedule == old(schedule)
    {
      downPayment := if 0 in extraPayments then extraPayments[0] else 0.0;
      principal := totalValue - downPayment;
    }

    /// The level payment that repays the given balance over n periods.
    function CalculatePayment(balance: real, n: int): (payment: real)
      reads this
      requires monthlyRate > 0.0 && n >= 1
      ensures Closing(monthlyRate, balance, payment, n) == 0.0
    {
      AnnuityPaysOff(monthlyRate, balance, n);
      Annuity(monthlyRate, balance, n)
    }

    /// Builds the table: zero rows before the start period, then one paying
    /// row per period, recomputing the payment after a non-zero extra payment.
    method GenerateAmortizationSchedule() returns (table: AmortizationTable)
      requires WellFormed(Spec()) && monthlyRate == MonthlyRate(Spec().info)
      requires paymentPeriods == PaymentPeriods(Spec()) && principal == Principal(Spec())
      ensures table.schedule == Rows(Spec())
    {
      var info := Spec().info;
      var extras := extraPayments;
      ghost var target := Rows(Spec());
      var balance := principal;
      var payment := CalculatePayment(principal, paymentPeriods);
      var rows := RowsBeforeStart(startPeriod);
      var i := startPeriod;
      while i <= totalPeriods
        invariant startPeriod <= i <= totalPeriods + 1
        invariant rows + Tail(info, extras, i, balance, payment) == target
      {
        var interest := balance * monthlyRate;
        var principalPart := payment - interest;
        var extraPayment := if i in extras then extras[i] else 0.0;
        var newBalance := balance - (principalPart + extraPayment);
        var newPayment := payment;
        if extraPayment != 0.0 {
          var remainingPayments := totalPeriods - i;
          if remainingPayments > 0 {
            newPayment := CalculatePayment(newBalance, remainingPayments);
          }
        }
        ScheduleStep(info, extras, i, balance, payment, rows, target, newBalance, newPayment);
        rows := rows + [Row(i, payment, principalPart, interest, extraPayment, newBalance)];
        balance, payment := newBalance, newPayment;
        i := i + 1;
      }
      table := AmortizationTable(rows);
    }

    /// Adds a payment's amount to the extra payment of its period and
    /// regenerates the down payment, principal and table.
    method AddExtraPayment(payment: Payment)
      requires Valid()
      modifies this
      ensures Valid()
      ensures Spec() == old(Spec()).(extras := AddExtra(old(extraPayments), payment.period, payment.amount))
    {
      extraPayments := extraPayments[payment.period := (if payment.period in extraPayments
                                                        then extraPayments[payment.period] else 0.0) + payment.amount];
      PeriodZeroSetup();
      schedule := GenerateAmortizationSchedule();
    }

    /// Payment details of a period from the table.
    method GetPaymentForPeriod(period: int) returns (r: Result<PaymentDetails>)
      ensures r == PaymentFor(schedule.schedule, totalValue, period)
    {
      if period == 0 {
        return Ok(PaymentDetails(0.0, 0.0, 0.0, totalValue));
      }
      var rows := schedule.schedule;
      if period > |rows| {
        return Err(PeriodOutOfRange);
      }
      var k := 0;
      while k < |rows|
        invariant 0 <= k <= |rows|
        invariant forall j :: 0 <= j < k ==> rows[j].period != period
      {
        if rows[k].period == period {
          assert FirstRowOf(rows, period) == Some(k) by {
            FirstRowOfIsFirst(rows, period, k);
          }
          return Ok(PaymentDetails(rows[k].totalPayment, rows[k].principal, rows[k].interest, rows[k].balance));
        }
        k := k + 1;
      }
      return Err(NoPaymentFound);
    }

    /// A fresh loan with the same terms and a copy of the extra payments.
    method DeepCopy() returns (c: Loan)
      requires Valid()
      ensures fresh(c) && c.Valid() && c.Spec() == Spec()
    {
      c := new Loan(LoanInfo(annualRate, totalPeriods), totalValue, startPeriod, Some(extraPayments));
    }
  }

  /// One paying row of the schedule loop keeps the rows built so far,
  /// followed by the rows still to come, equal to the whole schedule.
  lemma ScheduleStep(info: LoanInfo, extras: map<int, real>, i: int, balance: real, payment: real,
                     rows: seq<Row>, target: seq<Row>, newBalance: real, newPayment: real)
    requires info.annualRate > 0.0 && 1 <= i <= info.totalPeriods
    requires rows + Tail(info, extras, i, balance, payment) == target
    requires newBalance == balance - ((payment - balance * MonthlyRate(info)) + Get(extras, i))
    requires newPayment == NextPayment(info, extras, i, newBalance, payment)
    ensures (rows + [Row(i, payment, payment - balance * MonthlyRate(info), balance * MonthlyRate(info),
                         Get(extras, i), newBalance)])
            + Tail(info, extras, i + 1, newBalance, newPayment) == target
  {
    var row := PayRow(info, extras, i, balance, payment);
    assert row.balance == newBalance;
    assert Tail(info, extras, i, balance, payment)
        == [row] + Tail(info, extras, i + 1, row.balance, NextPayment(info, extras, i, row.balance, payment));
    assert (rows + [row]) + Tail(info, extras, i + 1, newBalance, newPayment)
        == rows + ([row] + Tail(info, extras, i + 1, newBalance, newPayment));
  }

  lemma FirstRowOfIsFirst(rows: seq<Row>, period: int, k: nat)
    requires k < |rows| && rows[k].period == period
    requires forall j :: 0 <= j < k ==> rows[j].period != period
    ensures FirstRowOf(rows, period) == Some(k)
  {
  }

  /// The tables of a list of loans.
  function Schedules(loans: seq<Loan>): (ts: seq<seq<Row>>)
    reads set l | l in loans
    ensures |ts| == |loans| && forall i :: 0 <= i < |loans| ==> ts[i] == loans[i].schedule.schedule
  {
    if loans == [] then [] else Schedules(loans[..|loans| - 1]) + [loans[|loans| - 1].schedule.schedule]
  }

  /// The all-zero rows of the periods before a loan starts.
  method RowsBeforeStart(startPeriod: int) returns (rows: seq<Row>)
    requires startPeriod >= 1
    ensures rows == ZeroRows(1, startPeriod)
  {
    rows := [];
    var i := 1;
    while i < startPeriod
      invariant 1 <= i <= startPeriod
      invariant rows == ZeroRows(1, i)
    {
      rows := rows + [Row(i, 0.0, 0.0, 0.0, 0.0, 0.0)];
      i := i + 1;
    }
  }

  /// Sums the tables of the loans period by period.
  method CombineLoans(loans: seq<Loan>) returns (table: AmortizationTable)
    ensures table.schedule == CombineRows(Schedules(loans))
  {
    var ts := Schedules(loans);
    var order: seq<int> := [];
    var sums: map<int, Sums> := map[];
    var idx := 0;
    while idx < |loans|
      invariant 0 <= idx <= |loans|
      invariant Accumulator(order, sums) == AccumulateTables(EmptyAcc, ts[..idx])
    {
      order, sums := SumRowsInto(order, sums, loans[idx].schedule.schedule);
      assert ts[..idx + 1][..idx] == ts[..idx];
      idx := idx + 1;
    }
    assert ts[..|loans|] == ts;
    table := AmortizationTable(Emit(Accumulator(order, sums)));
  }

  /// Adds every row of one table into the running sums by period, noting
  /// each period the first time it is seen.
  method SumRowsInto(order: seq<int>, sums: map<int, Sums>, rows: seq<Row>) returns (order': seq<int>, sums': map<int, Sums>)
    ensures Accumulator(order', sums') == AccumulateRows(Accumulator(order, sums), rows)
  {
    order', sums' := order, sums;
    var j := 0;
    while j < |rows|
      invariant 0 <= j <= |rows|
      invariant Accumulator(order', sums') == AccumulateRows(Accumulator(order, sums), rows[..j])
    {
      var entry := rows[j];
      assert rows[..j + 1][..j] == rows[..j];
      if entry.period !in sums' {
        sums' := sums'[entry.period := NoSums];
        order' := order' + [entry.period];
      }
      sums' := sums'[entry.period := Plus(sums'[entry.period], RowSums(entry))];
      j := j + 1;
    }
    assert rows[..|rows|] == rows;
  }

  /// Row-wise difference of two loans' tables over their common length.
  method SubtractLoans(loan1: Loan, loan2: Loan) returns (table: AmortizationTable)
    ensures table.schedule == SubtractRows(loan1.schedule.schedule, loan2.schedule.schedule)
  {
    var a := loan1.schedule.schedule;
    var b := loan2.schedule.schedule;
    var n := Min(|a|, |b|);
    var order: seq<int> := [];
    var sums: map<int, Sums> := map[];
    var k := 0;
    while k < n
      invariant 0 <= k <= n
      invariant Accumulator(order, sums) == SubtractAcc(a, b, k)
    {
      var period := a[k].period;
      if period !in sums {
        order := order + [period];
      }
      sums := sums[period := Minus(RowSums(a[k]), RowSums(b[k]))];
      k := k + 1;
    }
    table := AmortizationTable(Emit(Accumulator(order, sums)));
  }
}
