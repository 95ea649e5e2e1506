/// The amortization schedule a loan generates, as a function of its terms:
/// zero rows before the start period, then level payments that are
/// re-amortized over the remaining periods after every extra payment.
module Schedule {
  import opened Common
  import opened Money
  import opened Tables

  /// The value view of a loan: terms, face value, first paying period and
  /// the extra payments by period (period 0 holds the down payment).
  datatype LoanSpec = LoanSpec(info: LoanInfo, totalValue: real, startPeriod: int, extras: map<int, real>)

  /// The terms under which a loan can be built: a positive rate and a start
  /// period that leaves at least one payment.
  predicate WellFormed(l: LoanSpec)
  {
    l.info.annualRate > 0.0 && 1 <= l.startPeriod <= l.info.totalPeriods
  }

  function MonthlyRate(info: LoanInfo): real
  {
    info.annualRate / 12.0
  }

  /// Dictionary lookup with a default of zero.
  function Get(extras: map<int, real>, k: int): real
  {
    if k in extras then extras[k] else 0.0
  }

  /// Adds an amount to the extra payment recorded for a period.
  function AddExtra(extras: map<int, real>, k: int, amount: real): (e: map<int, real>)
    ensures forall j :: Get(e, j) == Get(extras, j) + (if j == k then amount else 0.0)
    ensures e.Keys == extras.Keys + {k}
  {
    extras[k := Get(extras, k) + amount]
  }

  function DownPayment(l: LoanSpec): real
  {
    Get(l.extras, 0)
  }

  /// The amount financed: face value less the down payment.
  function Principal(l: LoanSpec): real
  {
    l.totalValue - DownPayment(l)
  }

  /// Number of level payments from the start period to the last period.
  function PaymentPeriods(l: LoanSpec): int
  {
    l.info.totalPeriods - l.startPeriod + 1
  }

  /// The rows of periods lo..hi-1, all zero.
  function ZeroRows(lo: int, hi: int): (z: seq<Row>)
    requires lo <= hi
    ensures |z| == hi - lo
    ensures forall k :: 0 <= k < |z| ==> z[k] == ZeroRow(lo + k)
  {
    seq(hi - lo, k requires 0 <= k < hi - lo => ZeroRow(lo + k))
  }

  /// The row of paying period i, entered with the given balance and level
  /// payment: interest on the balance, the rest of the payment as principal,
  /// and the balance less principal and the period's extra payment.
  function PayRow(info: LoanInfo, extras: map<int, real>, i: int, balance: real, payment: real): Row
  {
    var interest := balance * MonthlyRate(info);
    var principal := payment - interest;
    var extra := Get(extras, i);
    Row(i, payment, principal, interest, extra, balance - (principal + extra))
  }

  /// The payment after row i: recomputed over the periods left when the row
  /// had a non-zero extra payment and periods are left, else unchanged.
  function NextPayment(info: LoanInfo, extras: map<int, real>, i: int, newBalance: real, payment: real): real
    requires info.annualRate > 0.0
  {
    if Get(extras, i) != 0.0 && info.totalPeriods - i > 0
    then Annuity(MonthlyRate(info), newBalance, info.totalPeriods - i) else payment
  }

  /// The paying rows from period i to the last.
  function Tail(info: LoanInfo, extras: map<int, real>, i: int, balance: real, payment: real): (r: seq<Row>)
    requires info.annualRate > 0.0 && i >= 1
    ensures |r| == if i > info.totalPeriods then 0 else info.totalPeriods + 1 - i
    decreases info.totalPeriods + 1 - i
  {
    if i > info.totalPeriods then []
    else
      var row := PayRow(info, extras, i, balance, payment);
      [row] + Tail(info, extras, i + 1, row.balance, NextPayment(info, extras, i, row.balance, payment))
  }

  /// The full schedule of a loan.
  function Rows(l: LoanSpec): (r: seq<Row>)
    requires WellFormed(l)
    ensures |r| == l.info.totalPeriods
  {
    ZeroRows(1, l.startPeriod)
      + Tail(l.info, l.extras, l.startPeriod, Principal(l),
             Annuity(MonthlyRate(l.info), Principal(l), PaymentPeriods(l)))
  }

  lemma {:induction false} TailNumbered(info: LoanInfo, extras: map<int, real>, i: int, balance: real, payment: real)
    requires info.annualRate > 0.0 && 1 <= i <= info.totalPeriods + 1
    ensures |Tail(info, extras, i, balance, payment)| == info.totalPeriods + 1 - i
    ensures forall k :: 0 <= k < info.totalPeriods + 1 - i ==> Tail(info, extras, i, balance, payment)[k].period == i + k
    decreases info.totalPeriods + 1 - i
  {
    if i <= info.totalPeriods {
      var row := PayRow(info, extras, i, balance, payment);
      TailNumbered(info, extras, i + 1, row.balance, NextPayment(info, extras, i, row.balance, payment));
    }
  }

  /// A schedule has one row per period, numbered 1 to the last period.
  lemma RowsNumbered(l: LoanSpec)
    requires WellFormed(l)
    ensures Numbered(Rows(l), l.info.totalPeriods)
  {
    TailNumbered(l.info, l.extras, l.startPeriod, Principal(l),
                 Annuity(MonthlyRate(l.info), Principal(l), PaymentPeriods(l)));
  }

  /// Row k of the paying rows from period i: interest on the balance the
  /// row before left (the opening balance for the first row), the rest of
  /// the payment as principal, and the period's extra payment; the first row
  /// pays the given payment and every later row the payment after the row
  /// before it.
  lemma {:induction false} TailRow(info: LoanInfo, extras: map<int, real>, i: int, balance: real, payment: real, k: int)
    requires info.annualRate > 0.0 && 1 <= i <= k <= info.totalPeriods
    ensures var t := Tail(info, extras, i, balance, payment);
      t[k - i] == PayRow(info, extras, k, if k == i then balance else t[k - 1 - i].balance, t[k - i].totalPayment)
    ensures var t := Tail(info, extras, i, balance, payment);
      k == i ==> t[0].totalPayment == payment
    ensures var t := Tail(info, extras, i, balance, payment);
      k > i ==> t[k - i].totalPayment == NextPayment(info, extras, k - 1, t[k - 1 - i].balance, t[k - 1 - i].totalPayment)
    decreases k - i
  {
    var row := PayRow(info, extras, i, balance, payment);
    var next := NextPayment(info, extras, i, row.balance, payment);
    var t := Tail(info, extras, i, balance, payment);
    var u := Tail(info, extras, i + 1, row.balance, next);
    assert t == [row] + u;
    if k > i {
      TailRow(info, extras, i + 1, row.balance, next, k);
      assert t[k - i] == u[k - i - 1];
      if k > i + 1 {
        assert t[k - 1 - i] == u[k - 2 - i];
      } else {
        TailRow(info, extras, i + 1, row.balance, next, i + 1);
      }
    }
  }

  /// Every paying row of a schedule follows the recurrence of the schedule
  /// loop: interest on the balance left by the row before (the amount
  /// financed for the first), principal the rest of the payment, the
  /// period's extra payment, and the balance less both; the first paying row
  /// pays the level payment of the amount financed and every later row the
  /// payment after the row before it.
  lemma RowRecurrence(l: LoanSpec, k: int)
    requires WellFormed(l) && l.startPeriod <= k <= l.info.totalPeriods
    ensures Rows(l)[k - 1]
         == PayRow(l.info, l.extras, k, if k == l.startPeriod then Principal(l) else Rows(l)[k - 2].balance,
                   Rows(l)[k - 1].totalPayment)
    ensures k == l.startPeriod ==>
      Rows(l)[k - 1].totalPayment == Annuity(MonthlyRate(l.info), Principal(l), PaymentPeriods(l))
    ensures k > l.startPeriod ==>
      Rows(l)[k - 1].totalPayment == NextPayment(l.info, l.extras, k - 1, Rows(l)[k - 2].balance, Rows(l)[k - 2].totalPayment)
  {
    var z := ZeroRows(1, l.startPeriod);
    var t := Tail(l.info, l.extras, l.startPeriod, Principal(l),
                  Annuity(MonthlyRate(l.info), Principal(l), PaymentPeriods(l)));
    assert Rows(l) == z + t;
    TailRow(l.info, l.extras, l.startPeriod, Principal(l),
            Annuity(MonthlyRate(l.info), Principal(l), PaymentPeriods(l)), k);
    assert Rows(l)[k - 1] == t[k - l.startPeriod];
    if k > l.startPeriod {
      assert Rows(l)[k - 2] == t[k - 1 - l.startPeriod];
    }
  }

  /// With no extra payment from the start period on, every paying row pays
  /// the same level payment.
  lemma {:induction false} LevelPaymentConstant(l: LoanSpec, k: int)
    requires WellFormed(l) && l.startPeriod <= k <= l.info.totalPeriods
    requires forall j :: l.startPeriod <= j < l.info.totalPeriods ==> Get(l.extras, j) == 0.0
    ensures Rows(l)[k - 1].totalPayment == Annuity(MonthlyRate(l.info), Principal(l), PaymentPeriods(l))
    decreases k
  {
    RowRecurrence(l, k);
    if k > l.startPeriod {
      LevelPaymentConstant(l, k - 1);
    }
  }

  /// Every row before the start period is zero.
  lemma RowsBeforeStartAreZero(l: LoanSpec, k: int)
    requires WellFormed(l) && 1 <= k < l.startPeriod
    ensures Rows(l)[k - 1] == ZeroRow(k)
  {
    RowsNumbered(l);
  }
}
