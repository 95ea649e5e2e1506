/// Amortization tables: rows of (period, total payment, principal part,
/// interest part, extra payment, remaining balance), and the table equality
/// that compares rows as they are shown with two decimals.
module Tables {
  import opened Common
  import opened Money

  datatype Row = Row(period: int, totalPayment: real, principal: real, interest: real,
                     extraPayment: real, balance: real)

  /// The row of a period in which nothing is paid and nothing is owed.
  function ZeroRow(i: int): Row
  {
    Row(i, 0.0, 0.0, 0.0, 0.0, 0.0)
  }

  datatype AmortizationTable = AmortizationTable(schedule: seq<Row>)

  /// Which of a slice's three tables is asked for.
  datatype TableType = Full | Sideloan | Baseline

  /// The part of a row that table equality looks at: the period and the
  /// first three money columns as shown with two decimals.
  datatype ShownRow = ShownRow(period: int, totalPayment: Cents, principal: Cents, interest: Cents)

  function FormatRow(r: Row): ShownRow
  {
    ShownRow(r.period, FormatCents(r.totalPayment), FormatCents(r.principal), FormatCents(r.interest))
  }

  /// Table equality: every pair of rows at the same position, up to the
  /// shorter table, shows the same.
  predicate RowsAgree(a: seq<Row>, b: seq<Row>)
  {
    forall k :: 0 <= k < |a| && k < |b| ==> FormatRow(a[k]) == FormatRow(b[k])
  }

  /// The 1-based numbers of the rows among the first n that show differently.
  function Mismatches(a: seq<Row>, b: seq<Row>, n: nat): seq<nat>
    requires n <= |a| && n <= |b|
  {
    if n == 0 then []
    else Mismatches(a, b, n - 1) + (if FormatRow(a[n - 1]) != FormatRow(b[n - 1]) then [n] else [])
  }

  lemma {:induction false} MismatchesEmptyIff(a: seq<Row>, b: seq<Row>, n: nat)
    requires n <= |a| && n <= |b|
    ensures Mismatches(a, b, n) == [] <==> forall k :: 0 <= k < n ==> FormatRow(a[k]) == FormatRow(b[k])
  {
    if n > 0 {
      MismatchesEmptyIff(a, b, n - 1);
    }
  }

  /// The equality operator of a table: a value that is not a table is never
  /// equal; otherwise the zipped rows are compared and the differing ones
  /// collected.
  method TableEquals(table: AmortizationTable, other: Option<AmortizationTable>)
    returns (eq: bool, mismatches: seq<nat>)
    ensures other.None? ==> !eq && mismatches == []
    ensures other.Some? ==> mismatches == Mismatches(table.schedule, other.value.schedule,
                                                     Min(|table.schedule|, |other.value.schedule|))
    ensures eq <==> other.Some? && RowsAgree(table.schedule, other.value.schedule)
  {
    if other.None? {
      return false, [];
    }
    var a, b := table.schedule, other.value.schedule;
    var n := Min(|a|, |b|);
    mismatches := [];
    var idx := 0;
    while idx < n
      invariant 0 <= idx <= n
      invariant mismatches == Mismatches(a, b, idx)
    {
      if FormatRow(a[idx]) != FormatRow(b[idx]) {
        mismatches := mismatches + [idx + 1];
      }
      idx := idx + 1;
    }
    eq := mismatches == [];
    NoMismatchesIffAgree(a, b);
  }

  /// No row of the common prefix shows differently exactly when the tables
  /// are equal.
  lemma NoMismatchesIffAgree(a: seq<Row>, b: seq<Row>)
    ensures Mismatches(a, b, Min(|a|, |b|)) == [] <==> RowsAgree(a, b)
  {
    MismatchesEmptyIff(a, b, Min(|a|, |b|));
  }


  /// Equality ignores the extra-payment and balance columns: rewriting them
  /// in one table never changes the verdict.
  lemma AgreeIgnoresExtraAndBalance(a: seq<Row>, a': seq<Row>, b: seq<Row>)
    requires |a| == |a'|
    requires forall k :: 0 <= k < |a| ==>
      a'[k] == a[k].(extraPayment := a'[k].extraPayment, balance := a'[k].balance)
    ensures RowsAgree(a, b) <==> RowsAgree(a', b)
  {
    assert forall k :: 0 <= k < |a| ==> FormatRow(a[k]) == FormatRow(a'[k]);
  }

  /// Only the common prefix is compared: rows past the end of the shorter
  /// table never matter.
  lemma AgreeOnlyCommonPrefix(a: seq<Row>, extra: seq<Row>, b: seq<Row>)
    requires |b| <= |a|
    ensures RowsAgree(a + extra, b) <==> RowsAgree(a, b)
  {
    assert forall k :: 0 <= k < |b| ==> (a + extra)[k] == a[k];
  }

  // ---------------------------------------------------------------------
  // Rows that agree exactly on what equality looks at

  predicate SameShown(r1: Row, r2: Row)
  {
    r1.period == r2.period && r1.totalPayment == r2.totalPayment
    && r1.principal == r2.principal && r1.interest == r2.interest
  }

  /// Two tables of the same length whose rows agree exactly on the period and
  /// the first three money columns.
  predicate Approx(a: seq<Row>, b: seq<Row>)
  {
    |a| == |b| && forall k :: 0 <= k < |a| ==> SameShown(a[k], b[k])
  }

  lemma ApproxAgree(a: seq<Row>, b: seq<Row>)
    requires Approx(a, b)
    ensures RowsAgree(a, b)
  {
  }

  lemma ApproxTransitive(a: seq<Row>, b: seq<Row>, c: seq<Row>)
    requires Approx(a, b) && Approx(b, c)
    ensures Approx(a, c)
  {
  }

  /// Row-wise sum of two rows, keeping the period of the first.
  function AddRows(r1: Row, r2: Row): Row
  {
    Row(r1.period, r1.totalPayment + r2.totalPayment, r1.principal + r2.principal,
        r1.interest + r2.interest, r1.extraPayment + r2.extraPayment, r1.balance + r2.balance)
  }

  function AddTables(a: seq<Row>, b: seq<Row>): (c: seq<Row>)
    requires |a| == |b|
    ensures |c| == |a|
  {
    seq(|a|, k requires 0 <= k < |a| => AddRows(a[k], b[k]))
  }

  lemma ApproxAddLeft(a: seq<Row>, a': seq<Row>, b: seq<Row>)
    requires Approx(a, a') && |b| == |a|
    ensures Approx(AddTables(a, b), AddTables(a', b))
  {
  }

  lemma ApproxAddRight(a: seq<Row>, b: seq<Row>, b': seq<Row>)
    requires Approx(b, b') && |a| == |b|
    ensures Approx(AddTables(a, b), AddTables(a, b'))
  {
  }

  /// A table whose rows are numbered 1, 2, ..., n in order.
  predicate Numbered(t: seq<Row>, n: int)
  {
    |t| == n && forall k :: 0 <= k < |t| ==> t[k].period == k + 1
  }

  lemma AddTablesCons(r1: Row, t1: seq<Row>, r2: Row, t2: seq<Row>)
    requires |t1| == |t2|
    ensures AddTables([r1] + t1, [r2] + t2) == [AddRows(r1, r2)] + AddTables(t1, t2)
  {
  }

  /// Tables that differ in one row, and there only outside what equality
  /// looks at, are approximately equal.
  lemma ApproxReplaceRow(a: seq<Row>, r: Row, r': Row, b: seq<Row>)
    requires SameShown(r, r')
    ensures Approx(a + [r] + b, a + [r'] + b)
  {
  }
}
