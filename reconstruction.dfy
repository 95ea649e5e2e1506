/// Why a flexible slice's adjusted loan can always be rebuilt from its
/// baseline loan and its adjustment loans: in exact arithmetic a schedule is
/// linear in its opening balance and its extra payments, and an adjustment
/// loan of value -d starting after period p repays like an extra payment d
/// made in period p.
module Reconstruction {
  import opened Common
  import opened Money
  import opened Tables
  import opened Combine
  import opened Schedule

  /// The schedule that recomputes the level payment at every row over the
  /// periods left, from the balance carried in.
  function Ideal(info: LoanInfo, extras: map<int, real>, i: int, balance: real): (r: seq<Row>)
    requires info.annualRate > 0.0 && i >= 1
    ensures |r| == if i > info.totalPeriods then 0 else info.totalPeriods + 1 - i
    decreases info.totalPeriods + 1 - i
  {
    if i > info.totalPeriods then []
    else
      var row := PayRow(info, extras, i, balance, Annuity(MonthlyRate(info), balance, info.totalPeriods + 1 - i));
      [row] + Ideal(info, extras, i + 1, row.balance)
  }

  /// Keeping the level payment after a row without extra payment is the same
  /// as recomputing it: the generated rows recompute the payment every period.
  lemma {:induction false} TailIsIdeal(info: LoanInfo, extras: map<int, real>, i: int, balance: real)
    requires info.annualRate > 0.0 && 1 <= i <= info.totalPeriods
    ensures Tail(info, extras, i, balance, Annuity(MonthlyRate(info), balance, info.totalPeriods + 1 - i))
         == Ideal(info, extras, i, balance)
    decreases info.totalPeriods + 1 - i
  {
    var m := MonthlyRate(info);
    var n := info.totalPeriods + 1 - i;
    var payment := Annuity(m, balance, n);
    var row := PayRow(info, extras, i, balance, payment);
    if i < info.totalPeriods {
      if Get(extras, i) == 0.0 {
        Reamortization(m, balance, n);
        assert row.balance == balance - (payment - balance * m);
      }
      assert NextPayment(info, extras, i, row.balance, payment) == Annuity(m, row.balance, n - 1);
      TailIsIdeal(info, extras, i + 1, row.balance);
    }
  }

  lemma RowsIdeal(l: LoanSpec)
    requires WellFormed(l)
    ensures Rows(l) == ZeroRows(1, l.startPeriod) + Ideal(l.info, l.extras, l.startPeriod, Principal(l))
  {
    TailIsIdeal(l.info, l.extras, l.startPeriod, Principal(l));
  }

  /// The schedule is linear: summing opening balances and extra payments sums
  /// the rows.
  lemma {:induction false} IdealLinear(info: LoanInfo, e1: map<int, real>, e2: map<int, real>, e3: map<int, real>,
                                       i: int, b1: real, b2: real)
    requires info.annualRate > 0.0 && i >= 1
    requires forall j :: Get(e3, j) == Get(e1, j) + Get(e2, j)
    ensures Ideal(info, e3, i, b1 + b2) == AddTables(Ideal(info, e1, i, b1), Ideal(info, e2, i, b2))
    decreases info.totalPeriods + 1 - i
  {
    if i <= info.totalPeriods {
      var m := MonthlyRate(info);
      var n := info.totalPeriods + 1 - i;
      AnnuityAdditive(m, b1, b2, n);
      var r1 := PayRow(info, e1, i, b1, Annuity(m, b1, n));
      var r2 := PayRow(info, e2, i, b2, Annuity(m, b2, n));
      var r3 := PayRow(info, e3, i, b1 + b2, Annuity(m, b1 + b2, n));
      assert (b1 + b2) * m == b1 * m + b2 * m;
      assert r3 == AddRows(r1, r2);
      IdealLinear(info, e1, e2, e3, i + 1, r1.balance, r2.balance);
      AddTablesCons(r1, Ideal(info, e1, i + 1, r1.balance), r2, Ideal(info, e2, i + 1, r2.balance));
    }
  }

  /// Rows from period i on read only the extra payments of periods i and later.
  lemma {:induction false} IdealReadsLaterExtras(info: LoanInfo, e1: map<int, real>, e2: map<int, real>, i: int, b: real)
    requires info.annualRate > 0.0 && i >= 1
    requires forall j :: j >= i ==> Get(e1, j) == Get(e2, j)
    ensures Ideal(info, e1, i, b) == Ideal(info, e2, i, b)
    decreases info.totalPeriods + 1 - i
  {
    if i <= info.totalPeriods {
      var row := PayRow(info, e1, i, b, Annuity(MonthlyRate(info), b, info.totalPeriods + 1 - i));
      IdealReadsLaterExtras(info, e1, e2, i + 1, row.balance);
    }
  }

  /// With nothing owed and no extra payment before period p, the rows up to
  /// p are zero except for the extra payment d of period p, which is owed
  /// from then on.
  lemma {:induction false} IdealZeroPrefix(info: LoanInfo, e: map<int, real>, i: int, p: int, d: real)
    requires info.annualRate > 0.0 && 1 <= i <= p <= info.totalPeriods
    requires forall j :: i <= j < p ==> Get(e, j) == 0.0
    requires Get(e, p) == d
    ensures Ideal(info, e, i, 0.0) == ZeroRows(i, p) + [Row(p, 0.0, 0.0, 0.0, d, -d)] + Ideal(info, e, p + 1, -d)
    decreases p - i
  {
    var m := MonthlyRate(info);
    AnnuityOfZero(m, info.totalPeriods + 1 - i);
    var row := PayRow(info, e, i, 0.0, 0.0);
    assert Ideal(info, e, i, 0.0) == [row] + Ideal(info, e, i + 1, row.balance);
    if i < p {
      assert row == ZeroRow(i);
      IdealZeroPrefix(info, e, i + 1, p, d);
      assert ZeroRows(i, p) == [ZeroRow(i)] + ZeroRows(i + 1, p);
    } else {
      assert row == Row(p, 0.0, 0.0, 0.0, d, -d);
      assert ZeroRows(i, p) == [];
    }
  }

  /// The adjustment loan for an extra payment d in period p: value -d, first
  /// payment in period p + 1, no extra payments.
  function AdjustmentLoan(info: LoanInfo, p: int, d: real): LoanSpec
  {
    LoanSpec(info, -d, p + 1, map[])
  }

  lemma AdjustmentLoanOf(info: LoanInfo, v: LoanSpec)
    requires WellFormed(v) && v.info == info && v.extras == map[]
    ensures v == AdjustmentLoan(info, v.startPeriod - 1, -v.totalValue)
  {
  }

  /// An adjustment loan repays exactly like an extra payment d made in period
  /// p on a loan of no value, as far as table equality can see (the two
  /// differ only in the extra-payment and balance columns of row p).
  lemma AdjustmentLoanIsExtraPayment(info: LoanInfo, p: int, d: real)
    requires info.annualRate > 0.0 && 0 <= p < info.totalPeriods
    ensures WellFormed(AdjustmentLoan(info, p, d)) && WellFormed(LoanSpec(info, 0.0, 1, map[p := d]))
    ensures Approx(Rows(AdjustmentLoan(info, p, d)), Rows(LoanSpec(info, 0.0, 1, map[p := d])))
  {
    if p == 0 {
      AdjustmentOfDownPayment(info, d);
    } else {
      AdjustmentAfterStart(info, p, d);
    }
  }

  lemma AdjustmentOfDownPayment(info: LoanInfo, d: real)
    requires info.annualRate > 0.0 && 0 < info.totalPeriods
    ensures WellFormed(AdjustmentLoan(info, 0, d)) && WellFormed(LoanSpec(info, 0.0, 1, map[0 := d]))
    ensures Rows(AdjustmentLoan(info, 0, d)) == Rows(LoanSpec(info, 0.0, 1, map[0 := d]))
  {
    var e := map[0 := d];
    RowsIdeal(AdjustmentLoan(info, 0, d));
    RowsIdeal(LoanSpec(info, 0.0, 1, e));
    assert ZeroRows(1, 1) == [];
    IdealReadsLaterExtras(info, e, map[], 1, -d);
  }

  lemma AdjustmentAfterStart(info: LoanInfo, p: int, d: real)
    requires info.annualRate > 0.0 && 1 <= p < info.totalPeriods
    ensures WellFormed(AdjustmentLoan(info, p, d)) && WellFormed(LoanSpec(info, 0.0, 1, map[p := d]))
    ensures Approx(Rows(AdjustmentLoan(info, p, d)), Rows(LoanSpec(info, 0.0, 1, map[p := d])))
  {
    var e := map[p := d];
    var adj, z := AdjustmentLoan(info, p, d), LoanSpec(info, 0.0, 1, e);
    var later := Ideal(info, map[], p + 1, -d);
    RowsIdeal(adj);
    assert Principal(adj) == -d;
    assert ZeroRows(1, p + 1) == ZeroRows(1, p) + [ZeroRow(p)];
    assert Rows(adj) == ZeroRows(1, p) + [ZeroRow(p)] + later;
    RowsIdeal(z);
    assert Principal(z) == 0.0;
    assert ZeroRows(1, 1) == [];
    IdealReadsLaterExtras(info, e, map[], p + 1, -d);
    IdealZeroPrefix(info, e, 1, p, d);
    assert Rows(z) == ZeroRows(1, p) + [Row(p, 0.0, 0.0, 0.0, d, -d)] + later;
    ApproxReplaceRow(ZeroRows(1, p), ZeroRow(p), Row(p, 0.0, 0.0, 0.0, d, -d), later);
  }

  /// Recording an extra payment d in period p on a loan paying from period 1
  /// changes its schedule by exactly the schedule of the adjustment loan, as
  /// far as table equality can see.
  lemma AdjustmentStep(l: LoanSpec, p: int, d: real)
    requires WellFormed(l) && l.startPeriod == 1 && 0 <= p < l.info.totalPeriods
    ensures WellFormed(AdjustmentLoan(l.info, p, d))
    ensures Approx(Rows(l.(extras := AddExtra(l.extras, p, d))),
                   AddTables(Rows(l), Rows(AdjustmentLoan(l.info, p, d))))
  {
    if p == 0 {
      AdjustmentStepAtStart(l, d);
    } else {
      AdjustmentStepLater(l, p, d);
    }
  }

  lemma AdjustmentStepAtStart(l: LoanSpec, d: real)
    requires WellFormed(l) && l.startPeriod == 1 && 0 < l.info.totalPeriods
    ensures WellFormed(AdjustmentLoan(l.info, 0, d))
    ensures Approx(Rows(l.(extras := AddExtra(l.extras, 0, d))),
                   AddTables(Rows(l), Rows(AdjustmentLoan(l.info, 0, d))))
  {
    var e := l.extras;
    var e' := AddExtra(e, 0, d);
    var l' := l.(extras := e');
    var b := Principal(l);
    RowsIdeal(l);
    RowsIdeal(l');
    assert ZeroRows(1, 1) == [];
    AdjustmentLoanIsExtraPayment(l.info, 0, d);
    RowsIdeal(AdjustmentLoan(l.info, 0, d));
    assert Principal(l') == b + -d;
    IdealReadsLaterExtras(l.info, e', e, 1, b + -d);
    IdealLinear(l.info, e, map[], e, 1, b, -d);
  }

  lemma AdjustmentStepLater(l: LoanSpec, p: int, d: real)
    requires WellFormed(l) && l.startPeriod == 1 && 0 < p < l.info.totalPeriods
    ensures WellFormed(AdjustmentLoan(l.info, p, d))
    ensures Approx(Rows(l.(extras := AddExtra(l.extras, p, d))),
                   AddTables(Rows(l), Rows(AdjustmentLoan(l.info, p, d))))
  {
    AdjustmentLoanIsExtraPayment(l.info, p, d);
    ExtraPaymentAdds(l, p, d);
    ApproxAddRight(Rows(l), Rows(LoanSpec(l.info, 0.0, 1, map[p := d])), Rows(AdjustmentLoan(l.info, p, d)));
  }

  /// An extra payment after the start adds the schedule of a loan of value
  /// zero paying that extra payment.
  lemma ExtraPaymentAdds(l: LoanSpec, p: int, d: real)
    requires WellFormed(l) && l.startPeriod == 1 && 0 < p < l.info.totalPeriods
    ensures WellFormed(LoanSpec(l.info, 0.0, 1, map[p := d]))
    ensures Rows(l.(extras := AddExtra(l.extras, p, d))) == AddTables(Rows(l), Rows(LoanSpec(l.info, 0.0, 1, map[p := d])))
  {
    var e := l.extras;
    var e' := AddExtra(e, p, d);
    var l' := l.(extras := e');
    var b := Principal(l);
    var single := map[p := d];
    var z := LoanSpec(l.info, 0.0, 1, single);
    assert Principal(l') == b + 0.0;
    assert Principal(z) == 0.0;
    forall j
      ensures Get(e', j) == Get(e, j) + Get(single, j)
    {
    }
    IdealLinear(l.info, e, single, e', 1, b, 0.0);
    RowsIdeal(l);
    RowsIdeal(l');
    RowsIdeal(z);
    assert ZeroRows(1, 1) == [];
  }

  /// Extra payments after recording each adjustment loan's payment in turn.
  function Accumulated(extras: map<int, real>, vs: seq<LoanSpec>): map<int, real>
  {
    AccumulatedTo(extras, vs, |vs|)
  }

  /// The extra payments after recording the first n adjustment loans.
  function AccumulatedTo(extras: map<int, real>, vs: seq<LoanSpec>, n: nat): map<int, real>
    requires n <= |vs|
  {
    if n == 0 then extras
    else AddExtra(AccumulatedTo(extras, vs, n - 1), vs[n - 1].startPeriod - 1, -vs[n - 1].totalValue)
  }

  lemma {:induction false} AccumulatedToPrefix(extras: map<int, real>, init: seq<LoanSpec>, v: LoanSpec, n: nat)
    requires n <= |init|
    ensures AccumulatedTo(extras, init + [v], n) == AccumulatedTo(extras, init, n)
  {
    if n > 0 {
      AccumulatedToPrefix(extras, init, v, n - 1);
      assert (init + [v])[n - 1] == init[n - 1];
    }
  }

  /// Recording one more adjustment loan adds its payment to the extras.
  lemma AccumulatedSnoc(extras: map<int, real>, init: seq<LoanSpec>, v: LoanSpec)
    ensures Accumulated(extras, init + [v]) == AddExtra(Accumulated(extras, init), v.startPeriod - 1, -v.totalValue)
  {
    var vs := init + [v];
    assert vs[|init|] == v && |vs| == |init| + 1;
    assert AccumulatedTo(extras, vs, |vs|)
        == AddExtra(AccumulatedTo(extras, vs, |init|), v.startPeriod - 1, -v.totalValue);
    AccumulatedToPrefix(extras, init, v, |init|);
  }

  /// The schedules of a list of loans, in order.
  function RowsOf(vs: seq<LoanSpec>): (ts: seq<seq<Row>>)
    requires forall v :: v in vs ==> WellFormed(v)
    ensures |ts| == |vs|
  {
    seq(|vs|, i requires 0 <= i < |vs| => Rows(vs[i]))
  }

  lemma RowsOfNumbered(vs: seq<LoanSpec>, n: int)
    requires forall v :: v in vs ==> WellFormed(v) && v.info.totalPeriods == n
    ensures forall i :: 0 <= i < |vs| ==> Numbered(RowsOf(vs)[i], n)
  {
    forall i | 0 <= i < |vs|
      ensures Numbered(RowsOf(vs)[i], n)
    {
      RowsNumbered(vs[i]);
    }
  }

  /// The reconstruction the slice verifies: the baseline loan with every
  /// adjustment loan's payment recorded as an extra payment has the schedule
  /// of the baseline loan combined with the adjustment loans, as far as table
  /// equality can see.
  lemma {:induction false} AdjustedMatchesReconstruction(base: LoanSpec, vs: seq<LoanSpec>)
    requires WellFormed(base) && base.startPeriod == 1
    requires forall v :: v in vs ==> WellFormed(v) && v.info == base.info && v.extras == map[]
    ensures forall v :: v in vs ==> WellFormed(v)
    ensures WellFormed(base.(extras := Accumulated(base.extras, vs)))
    ensures Approx(Rows(base.(extras := Accumulated(base.extras, vs))), CombineRows([Rows(base)] + RowsOf(vs)))
  {
    if vs == [] {
      RowsNumbered(base);
      assert base.(extras := base.extras) == base;
      CombineSingle(Rows(base), base.info.totalPeriods);
    } else {
      var init, last := vs[..|vs| - 1], vs[|vs| - 1];
      assert vs == init + [last];
      forall w | w in init
        ensures WellFormed(w) && w.info == base.info && w.extras == map[]
      {
        assert w in vs;
      }
      AdjustedMatchesReconstruction(base, init);
      ReconstructionStep(base, init, last);
    }
  }

  /// One more adjustment loan keeps the reconstruction.
  lemma ReconstructionStep(base: LoanSpec, init: seq<LoanSpec>, v: LoanSpec)
    requires WellFormed(base) && base.startPeriod == 1
    requires forall w :: w in init ==> WellFormed(w) && w.info == base.info && w.extras == map[]
    requires WellFormed(v) && v.info == base.info && v.extras == map[]
    requires WellFormed(base.(extras := Accumulated(base.extras, init)))
    requires Approx(Rows(base.(extras := Accumulated(base.extras, init))), CombineRows([Rows(base)] + RowsOf(init)))
    ensures WellFormed(base.(extras := Accumulated(base.extras, init + [v])))
    ensures Approx(Rows(base.(extras := Accumulated(base.extras, init + [v]))),
                   CombineRows([Rows(base)] + RowsOf(init + [v])))
  {
    var vs := init + [v];
    LastAdjustment(base, init, v);
    ReconstructionNumbered(base, init);
    RowsNumbered(v);
    RowsOfSnoc(init, v);
    ApproxStep(Rows(base.(extras := Accumulated(base.extras, init))),
               Rows(base.(extras := Accumulated(base.extras, vs))),
               [Rows(base)] + RowsOf(init), Rows(v), [Rows(base)] + RowsOf(vs), base.info.totalPeriods);
  }

  lemma RowsOfSnoc(init: seq<LoanSpec>, v: LoanSpec)
    requires forall w :: w in init ==> WellFormed(w)
    requires WellFormed(v)
    ensures RowsOf(init + [v]) == RowsOf(init) + [Rows(v)]
  {
    var vs := init + [v];
    assert forall w :: w in vs ==> w in init || w == v;
    forall i | 0 <= i < |vs|
      ensures RowsOf(vs)[i] == (RowsOf(init) + [Rows(v)])[i]
    {
      if i < |init| {
        assert vs[i] == init[i];
      }
    }
  }

  lemma LastAdjustment(base: LoanSpec, init: seq<LoanSpec>, v: LoanSpec)
    requires WellFormed(base) && base.startPeriod == 1
    requires WellFormed(v) && v.info == base.info && v.extras == map[]
    ensures Approx(Rows(base.(extras := Accumulated(base.extras, init + [v]))),
                   AddTables(Rows(base.(extras := Accumulated(base.extras, init))), Rows(v)))
  {
    var vs := init + [v];
    AccumulatedSnoc(base.extras, init, v);
    var adj0 := base.(extras := Accumulated(base.extras, init));
    var adj1 := adj0.(extras := AddExtra(adj0.extras, v.startPeriod - 1, -v.totalValue));
    assert adj1 == base.(extras := Accumulated(base.extras, vs));
    AdjustmentLoanOf(base.info, v);
    AdjustmentStep(adj0, v.startPeriod - 1, -v.totalValue);
  }

  lemma ReconstructionNumbered(base: LoanSpec, init: seq<LoanSpec>)
    requires WellFormed(base)
    requires forall w :: w in init ==> WellFormed(w) && w.info == base.info && w.extras == map[]
    ensures forall i :: 0 <= i < |init| + 1 ==> Numbered(([Rows(base)] + RowsOf(init))[i], base.info.totalPeriods)
  {
    RowsNumbered(base);
    RowsOfNumbered(init, base.info.totalPeriods);
  }

  lemma ApproxStep(a0: seq<Row>, a1: seq<Row>, ts0: seq<seq<Row>>, t: seq<Row>, ts1: seq<seq<Row>>, n: nat)
    requires ts0 != [] && forall i :: 0 <= i < |ts0| ==> Numbered(ts0[i], n)
    requires ts1 == ts0 + [t]
    requires Numbered(t, n) && |a0| == n
    requires Approx(a0, CombineRows(ts0))
    requires Approx(a1, AddTables(a0, t))
    ensures Approx(a1, CombineRows(ts1))
  {
    CombineSnoc(ts0, t, n);
    ApproxAddLeft(a0, CombineRows(ts0), t);
    ApproxTransitive(a1, AddTables(a0, t), AddTables(CombineRows(ts0), t));
  }

  /// Hence the equality check between the adjusted schedule and the
  /// reconstruction always succeeds.
  lemma ReconstructionAgrees(base: LoanSpec, vs: seq<LoanSpec>)
    requires WellFormed(base) && base.startPeriod == 1
    requires forall v :: v in vs ==> WellFormed(v) && v.info == base.info && v.extras == map[]
    ensures forall v :: v in vs ==> WellFormed(v)
    ensures WellFormed(base.(extras := Accumulated(base.extras, vs)))
    ensures RowsAgree(Rows(base.(extras := Accumulated(base.extras, vs))), CombineRows([Rows(base)] + RowsOf(vs)))
  {
    AdjustedMatchesReconstruction(base, vs);
    ApproxAgree(Rows(base.(extras := Accumulated(base.extras, vs))), CombineRows([Rows(base)] + RowsOf(vs)));
  }

  /// The last paying row leaves the loan repaid, apart from an extra payment
  /// made in that same last period.
  lemma {:induction false} IdealPaysOff(info: LoanInfo, e: map<int, real>, i: int, b: real)
    requires info.annualRate > 0.0 && 1 <= i <= info.totalPeriods
    ensures Ideal(info, e, i, b)[info.totalPeriods - i].balance == -Get(e, info.totalPeriods)
    decreases info.totalPeriods - i
  {
    if i < info.totalPeriods {
      var row := PayRow(info, e, i, b, Annuity(MonthlyRate(info), b, info.totalPeriods + 1 - i));
      IdealPaysOff(info, e, i + 1, row.balance);
    } else {
      AnnuityOnePeriod(MonthlyRate(info), b);
    }
  }

  /// A generated schedule ends with the loan paid off: the balance after the
  /// last row is zero, less any extra payment of the last period.
  lemma LoanPaysOff(l: LoanSpec)
    requires WellFormed(l)
    ensures |Rows(l)| == l.info.totalPeriods
    ensures Rows(l)[l.info.totalPeriods - 1].balance == -Get(l.extras, l.info.totalPeriods)
  {
    RowsNumbered(l);
    RowsIdeal(l);
    IdealPaysOff(l.info, l.extras, l.startPeriod, Principal(l));
  }
}
