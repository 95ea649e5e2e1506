/// Sums and differences of amortization tables, keyed by period number the
/// way a dictionary from period to running column totals is filled and then
/// read back in increasing period order.
module Combine {
  import opened Common
  import opened Tables

  /// The five money columns of a row.
  datatype Sums = Sums(totalPayment: real, principal: real, interest: real, extraPayment: real, balance: real)

  const NoSums := Sums(0.0, 0.0, 0.0, 0.0, 0.0)

  function Plus(a: Sums, b: Sums): Sums
  {
    Sums(a.totalPayment + b.totalPayment, a.principal + b.principal, a.interest + b.interest,
         a.extraPayment + b.extraPayment, a.balance + b.balance)
  }

  function Minus(a: Sums, b: Sums): Sums
  {
    Sums(a.totalPayment - b.totalPayment, a.principal - b.principal, a.interest - b.interest,
         a.extraPayment - b.extraPayment, a.balance - b.balance)
  }

  function RowSums(r: Row): Sums
  {
    Sums(r.totalPayment, r.principal, r.interest, r.extraPayment, r.balance)
  }

  function RowOf(k: int, s: Sums): Row
  {
    Row(k, s.totalPayment, s.principal, s.interest, s.extraPayment, s.balance)
  }

  /// Row-wise difference, keeping the period of the first row.
  function DiffRow(r1: Row, r2: Row): Row
  {
    RowOf(r1.period, Minus(RowSums(r1), RowSums(r2)))
  }

  // ---------------------------------------------------------------------
  // Sorting the period numbers

  predicate Sorted(s: seq<int>)
  {
    forall i, j :: 0 <= i < j < |s| ==> s[i] <= s[j]
  }

  predicate StrictlyIncreasing(s: seq<int>)
  {
    forall i, j :: 0 <= i < j < |s| ==> s[i] < s[j]
  }

  /// Inserts x after the last element not above it, scanning from the end.
  function Insert(x: int, s: seq<int>): (r: seq<int>)
    ensures |r| == |s| + 1
  {
    if s == [] then [x]
    else if s[|s| - 1] <= x then s + [x]
    else Insert(x, s[..|s| - 1]) + [s[|s| - 1]]
  }

  /// Inserting into a sorted sequence keeps it sorted and adds exactly x.
  lemma {:induction false} InsertSpec(x: int, s: seq<int>)
    requires Sorted(s)
    ensures Sorted(Insert(x, s))
    ensures multiset(Insert(x, s)) == multiset(s) + multiset{x}
  {
    if s != [] && s[|s| - 1] > x {
      var init, h := s[..|s| - 1], s[|s| - 1];
      assert s == init + [h];
      var head := Insert(x, init);
      assert Insert(x, s) == head + [h];
      InsertSpec(x, init);
      assert multiset(head + [h]) == multiset(head) + multiset{h};
      InsertedBelow(h, x, init, head);
    }
  }

  /// Every element of a permutation of s plus x lies below an upper bound of both.
  lemma InsertedBelow(h: int, x: int, s: seq<int>, head: seq<int>)
    requires x <= h && forall k :: 0 <= k < |s| ==> s[k] <= h
    requires multiset(head) == multiset(s) + multiset{x}
    requires Sorted(head)
    ensures Sorted(head + [h])
  {
    forall k | 0 <= k < |head| ensures head[k] <= h {
      assert head[k] in multiset(head);
      if head[k] != x {
        assert head[k] in multiset(s);
      }
    }
  }

  /// The keys in increasing order, as the built-in sort returns them.
  function SortInts(xs: seq<int>): (r: seq<int>)
    ensures |r| == |xs|
  {
    if xs == [] then [] else Insert(xs[|xs| - 1], SortInts(xs[..|xs| - 1]))
  }

  /// The sort returns a sorted permutation of its input.
  lemma {:induction false} SortIntsSpec(xs: seq<int>)
    ensures Sorted(SortInts(xs))
    ensures multiset(SortInts(xs)) == multiset(xs)
  {
    if xs != [] {
      var init := xs[..|xs| - 1];
      assert xs == init + [xs[|xs| - 1]];
      SortIntsSpec(init);
      InsertSpec(xs[|xs| - 1], SortInts(init));
    }
  }

  /// A sorted sequence is determined by its multiset of elements.
  lemma {:induction false} SortedUnique(a: seq<int>, b: seq<int>)
    requires Sorted(a) && Sorted(b) && multiset(a) == multiset(b)
    ensures a == b
  {
    if a == [] {
      assert |multiset(b)| == 0;
    } else {
      assert |b| == |multiset(b)| == |multiset(a)| == |a|;
      assert a[0] in multiset(b);
      assert b[0] in multiset(a);
      assert a[0] == b[0];
      assert a == [a[0]] + a[1..];
      assert b == [b[0]] + b[1..];
      assert multiset(a[1..]) == multiset(a) - multiset{a[0]};
      assert multiset(b[1..]) == multiset(b) - multiset{b[0]};
      SortedUnique(a[1..], b[1..]);
    }
  }

  lemma SortStrictlyIncreasing(xs: seq<int>)
    requires StrictlyIncreasing(xs)
    ensures SortInts(xs) == xs
  {
    SortIntsSpec(xs);
    SortedUnique(SortInts(xs), xs);
  }

  /// In a sequence without repetitions every element occurs exactly once.
  lemma {:induction false} DistinctMultiset(s: seq<int>)
    requires Distinct(s)
    ensures forall x :: multiset(s)[x] == if x in s then 1 else 0
  {
    if s != [] {
      var init := s[..|s| - 1];
      assert s == init + [s[|s| - 1]];
      assert s[|s| - 1] !in init;
      DistinctMultiset(init);
    }
  }

  lemma DistinctSameElements(a: seq<int>, b: seq<int>)
    requires Distinct(a) && Distinct(b)
    requires forall x :: x in a <==> x in b
    ensures multiset(a) == multiset(b)
  {
    DistinctMultiset(a);
    DistinctMultiset(b);
  }

  // ---------------------------------------------------------------------
  // The dictionary from period to running totals, in insertion order

  datatype Accumulator = Accumulator(order: seq<int>, sums: map<int, Sums>)

  const EmptyAcc := Accumulator([], map[])

  /// The keys recorded in insertion order are exactly the dictionary's keys,
  /// each once.
  ghost predicate ValidAcc(acc: Accumulator)
  {
    Distinct(acc.order) && forall k :: k in acc.order <==> k in acc.sums
  }

  function Get0(m: map<int, Sums>, k: int): Sums
  {
    if k in m then m[k] else NoSums
  }

  /// Adds the columns of a row to the entry of its period, creating the entry
  /// at zero first when the period is new.
  function AddEntry(acc: Accumulator, r: Row): (res: Accumulator)
  {
    Accumulator(if r.period in acc.sums then acc.order else acc.order + [r.period],
                acc.sums[r.period := Plus(Get0(acc.sums, r.period), RowSums(r))])
  }

  /// Sets the entry of period k, creating it when new.
  function AssignEntry(acc: Accumulator, k: int, s: Sums): Accumulator
  {
    Accumulator(if k in acc.sums then acc.order else acc.order + [k], acc.sums[k := s])
  }

  function AccumulateRows(acc: Accumulator, rows: seq<Row>): Accumulator
  {
    if rows == [] then acc
    else AddEntry(AccumulateRows(acc, rows[..|rows| - 1]), rows[|rows| - 1])
  }

  function AccumulateTables(acc: Accumulator, ts: seq<seq<Row>>): Accumulator
  {
    if ts == [] then acc
    else AccumulateRows(AccumulateTables(acc, ts[..|ts| - 1]), ts[|ts| - 1])
  }

  /// The dictionary's entries as rows, by increasing period.
  function Emit(acc: Accumulator): seq<Row>
  {
    var ks := SortInts(acc.order);
    seq(|ks|, i requires 0 <= i < |ks| => RowOf(ks[i], Get0(acc.sums, ks[i])))
  }

  lemma EmitRows(acc: Accumulator)
    ensures |Emit(acc)| == |SortInts(acc.order)|
    ensures forall i :: 0 <= i < |Emit(acc)| ==>
      Emit(acc)[i] == RowOf(SortInts(acc.order)[i], Get0(acc.sums, SortInts(acc.order)[i]))
  {
  }

  /// The sum of several tables: per period, the column totals over every row
  /// of every table with that period.
  function CombineRows(ts: seq<seq<Row>>): seq<Row>
  {
    Emit(AccumulateTables(EmptyAcc, ts))
  }

  function SubtractAcc(a: seq<Row>, b: seq<Row>, n: nat): Accumulator
    requires n <= |a| && n <= |b|
  {
    if n == 0 then EmptyAcc
    else AssignEntry(SubtractAcc(a, b, n - 1), a[n - 1].period, Minus(RowSums(a[n - 1]), RowSums(b[n - 1])))
  }

  /// The difference of two tables: the rows are zipped up to the shorter
  /// table, and each pair stored under the period of the first table's row.
  function SubtractRows(a: seq<Row>, b: seq<Row>): seq<Row>
  {
    Emit(SubtractAcc(a, b, Min(|a|, |b|)))
  }

  // ---------------------------------------------------------------------
  // What the dictionary holds

  /// The column totals of the rows of one period.
  function SumAt(rows: seq<Row>, k: int): Sums
  {
    if rows == [] then NoSums else Plus(SumAt(rows[..|rows| - 1], k), RowAt(rows[|rows| - 1], k))
  }

  /// The columns of a row if it belongs to period k, zero otherwise.
  function RowAt(r: Row, k: int): Sums
  {
    if r.period == k then RowSums(r) else NoSums
  }

  lemma PlusAssociative(a: Sums, b: Sums, c: Sums)
    ensures Plus(Plus(a, b), c) == Plus(a, Plus(b, c))
  {
  }

  function TablesSumAt(ts: seq<seq<Row>>, k: int): Sums
  {
    if ts == [] then NoSums else Plus(TablesSumAt(ts[..|ts| - 1], k), SumAt(ts[|ts| - 1], k))
  }

  function PeriodSet(rows: seq<Row>): set<int>
  {
    if rows == [] then {} else PeriodSet(rows[..|rows| - 1]) + {rows[|rows| - 1].period}
  }

  function TablesPeriodSet(ts: seq<seq<Row>>): set<int>
  {
    if ts == [] then {} else TablesPeriodSet(ts[..|ts| - 1]) + PeriodSet(ts[|ts| - 1])
  }

  lemma AddEntryValid(acc: Accumulator, r: Row)
    requires ValidAcc(acc)
    ensures ValidAcc(AddEntry(acc, r))
    ensures AddEntry(acc, r).sums.Keys == acc.sums.Keys + {r.period}
  {
    if r.period !in acc.sums {
      assert r.period !in acc.order;
    }
  }

  lemma AddEntrySums(acc: Accumulator, r: Row)
    ensures forall k :: Get0(AddEntry(acc, r).sums, k) == Plus(Get0(acc.sums, k), RowAt(r, k))
  {
  }

  lemma {:induction false} AccumulateRowsValid(acc: Accumulator, rows: seq<Row>)
    requires ValidAcc(acc)
    ensures ValidAcc(AccumulateRows(acc, rows))
    ensures AccumulateRows(acc, rows).sums.Keys == acc.sums.Keys + PeriodSet(rows)
  {
    if rows != [] {
      AccumulateRowsValid(acc, rows[..|rows| - 1]);
      AddEntryValid(AccumulateRows(acc, rows[..|rows| - 1]), rows[|rows| - 1]);
    }
  }

  lemma {:induction false} AccumulateRowsSums(acc: Accumulator, rows: seq<Row>)
    ensures forall k :: Get0(AccumulateRows(acc, rows).sums, k) == Plus(Get0(acc.sums, k), SumAt(rows, k))
  {
    if rows != [] {
      var init := rows[..|rows| - 1];
      var r := rows[|rows| - 1];
      AccumulateRowsSums(acc, init);
      AddEntrySums(AccumulateRows(acc, init), r);
      forall k ensures Get0(AccumulateRows(acc, rows).sums, k) == Plus(Get0(acc.sums, k), SumAt(rows, k)) {
        PlusAssociative(Get0(acc.sums, k), SumAt(init, k), RowAt(r, k));
      }
    }
  }

  lemma AccumulateRowsSpec(acc: Accumulator, rows: seq<Row>)
    requires ValidAcc(acc)
    ensures ValidAcc(AccumulateRows(acc, rows))
    ensures AccumulateRows(acc, rows).sums.Keys == acc.sums.Keys + PeriodSet(rows)
    ensures forall k :: Get0(AccumulateRows(acc, rows).sums, k) == Plus(Get0(acc.sums, k), SumAt(rows, k))
  {
    AccumulateRowsValid(acc, rows);
    AccumulateRowsSums(acc, rows);
  }

  lemma {:induction false} AccumulateTablesValid(acc: Accumulator, ts: seq<seq<Row>>)
    requires ValidAcc(acc)
    ensures ValidAcc(AccumulateTables(acc, ts))
    ensures AccumulateTables(acc, ts).sums.Keys == acc.sums.Keys + TablesPeriodSet(ts)
  {
    if ts != [] {
      AccumulateTablesValid(acc, ts[..|ts| - 1]);
      AccumulateRowsValid(AccumulateTables(acc, ts[..|ts| - 1]), ts[|ts| - 1]);
    }
  }

  lemma {:induction false} AccumulateTablesSums(acc: Accumulator, ts: seq<seq<Row>>)
    ensures forall k :: Get0(AccumulateTables(acc, ts).sums, k) == Plus(Get0(acc.sums, k), TablesSumAt(ts, k))
  {
    if ts != [] {
      var init := ts[..|ts| - 1];
      AccumulateTablesSums(acc, init);
      AccumulateRowsSums(AccumulateTables(acc, init), ts[|ts| - 1]);
      forall k ensures Get0(AccumulateTables(acc, ts).sums, k) == Plus(Get0(acc.sums, k), TablesSumAt(ts, k)) {
        PlusAssociative(Get0(acc.sums, k), TablesSumAt(init, k), SumAt(ts[|ts| - 1], k));
      }
    }
  }

  /// Starting from an empty dictionary, the entry of each period holds the
  /// column totals of that period over all the tables.
  lemma CombinedSums(ts: seq<seq<Row>>)
    ensures forall k :: Get0(AccumulateTables(EmptyAcc, ts).sums, k) == TablesSumAt(ts, k)
  {
    AccumulateTablesSums(EmptyAcc, ts);
  }

  // ---------------------------------------------------------------------
  // The order of the tables does not matter

  lemma {:induction false} TablesSumAtPermutation(ts: seq<seq<Row>>, us: seq<seq<Row>>, k: int)
    requires multiset(ts) == multiset(us)
    ensures TablesSumAt(ts, k) == TablesSumAt(us, k)
    decreases |ts|
  {
    if ts == [] {
      assert |us| == |multiset(us)| == 0;
    } else {
      var t := ts[|ts| - 1];
      assert t in multiset(us);
      var j :| 0 <= j < |us| && us[j] == t;
      var rest := us[..j] + us[j + 1..];
      assert us == us[..j] + [t] + us[j + 1..];
      assert ts == ts[..|ts| - 1] + [t];
      assert multiset(ts[..|ts| - 1]) == multiset(ts) - multiset{t};
      assert multiset(rest) == multiset(us) - multiset{t};
      TablesSumAtPermutation(ts[..|ts| - 1], rest, k);
      TablesSumAtMoveToEnd(us[..j], t, us[j + 1..], k);
    }
  }

  lemma {:induction false} TablesSumAtMoveToEnd(a: seq<seq<Row>>, t: seq<Row>, b: seq<seq<Row>>, k: int)
    ensures TablesSumAt(a + [t] + b, k) == Plus(TablesSumAt(a + b, k), SumAt(t, k))
    decreases |b|
  {
    if b == [] {
      assert a + [t] + b == a + [t];
      assert (a + [t])[..|a|] == a;
      assert a + b == a;
    } else {
      var b' := b[..|b| - 1];
      var u := b[|b| - 1];
      assert (a + [t] + b)[..|a + [t] + b| - 1] == a + [t] + b';
      assert (a + b)[..|a + b| - 1] == a + b';
      TablesSumAtMoveToEnd(a, t, b', k);
    }
  }

  lemma {:induction false} TablesPeriodSetPermutation(ts: seq<seq<Row>>, us: seq<seq<Row>>)
    requires multiset(ts) == multiset(us)
    ensures TablesPeriodSet(ts) == TablesPeriodSet(us)
  {
    TablesPeriodSetIsUnion(ts);
    TablesPeriodSetIsUnion(us);
    forall k | k in TablesPeriodSet(ts) ensures k in TablesPeriodSet(us) {
      var t :| t in ts && k in PeriodSet(t);
      assert t in multiset(us);
    }
    forall k | k in TablesPeriodSet(us) ensures k in TablesPeriodSet(ts) {
      var t :| t in us && k in PeriodSet(t);
      assert t in multiset(ts);
    }
  }

  lemma {:induction false} TablesPeriodSetIsUnion(ts: seq<seq<Row>>)
    ensures forall k :: k in TablesPeriodSet(ts) <==> exists t :: t in ts && k in PeriodSet(t)
  {
    if ts != [] {
      var init := ts[..|ts| - 1];
      var last := ts[|ts| - 1];
      assert ts == init + [last];
      TablesPeriodSetIsUnion(init);
      forall k ensures k in TablesPeriodSet(ts) <==> exists t :: t in ts && k in PeriodSet(t) {
        if k in TablesPeriodSet(ts) {
          if k !in PeriodSet(last) {
            assert k in TablesPeriodSet(init);
            var t :| t in init && k in PeriodSet(t);
            assert t in ts;
          }
        }
        if exists t :: t in ts && k in PeriodSet(t) {
          var t :| t in ts && k in PeriodSet(t);
          if t != last {
            assert t in init;
          }
        }
      }
    }
  }

  /// Combining is commutative: any reordering of the tables gives the same
  /// combined table.
  lemma CombinePermutation(ts: seq<seq<Row>>, us: seq<seq<Row>>)
    requires multiset(ts) == multiset(us)
    ensures CombineRows(ts) == CombineRows(us)
  {
    var A := AccumulateTables(EmptyAcc, ts);
    var B := AccumulateTables(EmptyAcc, us);
    AccumulateTablesValid(EmptyAcc, ts);
    AccumulateTablesValid(EmptyAcc, us);
    CombinedSums(ts);
    CombinedSums(us);
    TablesPeriodSetPermutation(ts, us);
    forall k ensures TablesSumAt(ts, k) == TablesSumAt(us, k) {
      TablesSumAtPermutation(ts, us, k);
    }
    DistinctSameElements(A.order, B.order);
    SortIntsSpec(A.order);
    SortIntsSpec(B.order);
    SortedUnique(SortInts(A.order), SortInts(B.order));
  }

  /// The combined table has one row for each period some table has, in
  /// increasing order, each holding the column totals of that period over
  /// every row of every table.
  lemma CombineRowsSpec(ts: seq<seq<Row>>)
    ensures forall i, j :: 0 <= i < j < |CombineRows(ts)| ==> CombineRows(ts)[i].period < CombineRows(ts)[j].period
    ensures forall k :: k in TablesPeriodSet(ts) <==> exists i :: 0 <= i < |CombineRows(ts)| && CombineRows(ts)[i].period == k
    ensures forall i :: 0 <= i < |CombineRows(ts)| ==>
      CombineRows(ts)[i] == RowOf(CombineRows(ts)[i].period, TablesSumAt(ts, CombineRows(ts)[i].period))
  {
    CombineRowsOrdered(ts);
    CombineRowsPeriods(ts);
    CombinedSums(ts);
    EmitRows(AccumulateTables(EmptyAcc, ts));
  }

  /// The combined rows come out in strictly increasing period order.
  lemma CombineRowsOrdered(ts: seq<seq<Row>>)
    ensures forall i, j :: 0 <= i < j < |CombineRows(ts)| ==> CombineRows(ts)[i].period < CombineRows(ts)[j].period
  {
    var A := AccumulateTables(EmptyAcc, ts);
    var ks := SortInts(A.order);
    AccumulateTablesValid(EmptyAcc, ts);
    SortIntsSpec(A.order);
    EmitRows(A);
    SortedDistinctIncreasing(ks, A.order);
  }

  /// The combined rows cover exactly the periods of the input tables.
  lemma CombineRowsPeriods(ts: seq<seq<Row>>)
    ensures forall k :: k in TablesPeriodSet(ts) <==> exists i :: 0 <= i < |CombineRows(ts)| && CombineRows(ts)[i].period == k
  {
    var A := AccumulateTables(EmptyAcc, ts);
    var ks := SortInts(A.order);
    var c := CombineRows(ts);
    AccumulateTablesValid(EmptyAcc, ts);
    SortIntsSpec(A.order);
    EmitRows(A);
    forall k
      ensures k in TablesPeriodSet(ts) <==> exists i :: 0 <= i < |c| && c[i].period == k
    {
      assert k in ks <==> k in multiset(ks);
      assert k in A.order <==> k in multiset(A.order);
      if k in ks {
        var i :| 0 <= i < |ks| && ks[i] == k;
        assert c[i].period == k;
      }
    }
  }

  /// A sorted permutation of a sequence without repetitions is strictly
  /// increasing.
  lemma SortedDistinctIncreasing(s: seq<int>, d: seq<int>)
    requires Sorted(s) && Distinct(d) && multiset(s) == multiset(d)
    ensures StrictlyIncreasing(s)
  {
    DistinctMultiset(d);
    forall i, j | 0 <= i < j < |s|
      ensures s[i] < s[j]
    {
      assert s == s[..j] + s[j..];
      assert s[j..][0] == s[j];
      assert multiset(s)[s[j]] == multiset(s[..j])[s[j]] + multiset(s[j..])[s[j]];
      assert multiset(s[..j])[s[j]] == 0;
      assert s[..j][i] == s[i];
    }
  }

  // ---------------------------------------------------------------------
  // Tables numbered 1..n

  function Range(n: nat): (r: seq<int>)
    ensures |r| == n && forall i :: 0 <= i < n ==> r[i] == i + 1
  {
    seq(n, i requires 0 <= i < n => i + 1)
  }

  lemma {:induction false} SumAtNumbered(t: seq<Row>, n: nat, k: int)
    requires Numbered(t, n)
    ensures SumAt(t, k) == if 1 <= k <= n then RowSums(t[k - 1]) else NoSums
  {
    if n > 0 {
      SumAtNumbered(t[..n - 1], n - 1, k);
    }
  }

  lemma {:induction false} PeriodSetNumbered(t: seq<Row>, n: nat)
    requires Numbered(t, n)
    ensures forall k :: k in PeriodSet(t) <==> 1 <= k <= n
  {
    if n > 0 {
      PeriodSetNumbered(t[..n - 1], n - 1);
    }
  }

  lemma {:induction false} TablesPeriodSetNumbered(ts: seq<seq<Row>>, n: nat)
    requires ts != [] && forall i :: 0 <= i < |ts| ==> Numbered(ts[i], n)
    ensures forall k :: k in TablesPeriodSet(ts) <==> 1 <= k <= n
  {
    PeriodSetNumbered(ts[|ts| - 1], n);
    if |ts| > 1 {
      TablesPeriodSetNumbered(ts[..|ts| - 1], n);
    }
  }

  lemma RangeDistinct(n: nat)
    ensures StrictlyIncreasing(Range(n)) && Distinct(Range(n))
    ensures forall x :: x in Range(n) <==> 1 <= x <= n
  {
    forall x | 1 <= x <= n ensures x in Range(n) {
      assert Range(n)[x - 1] == x;
    }
  }

  /// The periods of tables numbered 1..n come out as 1..n.
  lemma OrderOfNumbered(ts: seq<seq<Row>>, n: nat)
    requires ts != [] && forall i :: 0 <= i < |ts| ==> Numbered(ts[i], n)
    ensures SortInts(AccumulateTables(EmptyAcc, ts).order) == Range(n)
  {
    var A := AccumulateTables(EmptyAcc, ts);
    AccumulateTablesValid(EmptyAcc, ts);
    TablesPeriodSetNumbered(ts, n);
    SortDistinctRange(A.order, n);
  }

  lemma SortDistinctRange(order: seq<int>, n: nat)
    requires Distinct(order) && forall x :: x in order <==> 1 <= x <= n
    ensures SortInts(order) == Range(n)
  {
    RangeDistinct(n);
    DistinctSameElements(order, Range(n));
    SortIntsSpec(order);
    SortedUnique(SortInts(order), Range(n));
  }

  /// Combining tables that all number their rows 1..n yields rows 1..n, each
  /// the column totals of that row over the tables.
  lemma CombineNumbered(ts: seq<seq<Row>>, n: nat)
    requires ts != [] && forall i :: 0 <= i < |ts| ==> Numbered(ts[i], n)
    ensures |CombineRows(ts)| == n
    ensures forall i :: 0 <= i < n ==> CombineRows(ts)[i] == RowOf(i + 1, TablesSumAt(ts, i + 1))
  {
    var A := AccumulateTables(EmptyAcc, ts);
    OrderOfNumbered(ts, n);
    CombinedSums(ts);
    EmitRange(A, n);
  }

  lemma EmitRange(acc: Accumulator, n: nat)
    requires SortInts(acc.order) == Range(n)
    ensures |Emit(acc)| == n
    ensures forall i :: 0 <= i < n ==> Emit(acc)[i] == RowOf(i + 1, Get0(acc.sums, i + 1))
  {
    EmitRows(acc);
  }

  lemma CombineSingle(t: seq<Row>, n: nat)
    requires Numbered(t, n)
    ensures CombineRows([t]) == t
  {
    CombineNumbered([t], n);
    forall k | 1 <= k <= n ensures TablesSumAt([t], k) == RowSums(t[k - 1]) {
      assert [t][..0] == [];
      SumAtNumbered(t, n, k);
    }
  }

  /// Adding one more numbered table to a combination adds its rows.
  lemma CombineSnoc(ts: seq<seq<Row>>, t: seq<Row>, n: nat)
    requires ts != [] && forall i :: 0 <= i < |ts| ==> Numbered(ts[i], n)
    requires Numbered(t, n)
    ensures |CombineRows(ts)| == n
    ensures CombineRows(ts + [t]) == AddTables(CombineRows(ts), t)
  {
    var us := ts + [t];
    assert us[..|us| - 1] == ts;
    CombineNumbered(ts, n);
    CombineNumbered(us, n);
    forall k | 1 <= k <= n ensures TablesSumAt(us, k) == Plus(TablesSumAt(ts, k), RowSums(t[k - 1])) {
      SumAtNumbered(t, n, k);
    }
  }

  // ---------------------------------------------------------------------
  // Differences

  lemma {:induction false} SubtractAccNumbered(a: seq<Row>, b: seq<Row>, n: nat)
    requires n <= |a| && n <= |b| && Numbered(a, |a|)
    ensures SubtractAcc(a, b, n).order == Range(n)
    ensures forall k :: 1 <= k <= n ==>
      k in SubtractAcc(a, b, n).sums && SubtractAcc(a, b, n).sums[k] == Minus(RowSums(a[k - 1]), RowSums(b[k - 1]))
    ensures forall k :: k in SubtractAcc(a, b, n).sums ==> 1 <= k <= n
  {
    if n > 0 {
      SubtractAccNumbered(a, b, n - 1);
      assert Range(n) == Range(n - 1) + [n];
    }
  }

  /// The difference of a numbered table and another table is their zipped
  /// row-wise difference, as long as the shorter one.
  lemma SubtractNumbered(a: seq<Row>, b: seq<Row>)
    requires Numbered(a, |a|)
    ensures SubtractRows(a, b) == seq(Min(|a|, |b|), k requires 0 <= k < Min(|a|, |b|) => DiffRow(a[k], b[k]))
  {
    var m := Min(|a|, |b|);
    var acc := SubtractAcc(a, b, m);
    SubtractAccNumbered(a, b, m);
    SortStrictlyIncreasing(Range(m));
    EmitRange(acc, m);
    forall k | 0 <= k < m
      ensures Emit(acc)[k] == DiffRow(a[k], b[k])
    {
      assert a[k].period == k + 1;
    }
  }

  /// Subtraction undoes combination: adding the difference a - b back to b
  /// restores a.
  lemma SubtractThenCombine(a: seq<Row>, b: seq<Row>, n: nat)
    requires Numbered(a, n) && Numbered(b, n)
    ensures CombineRows([b, SubtractRows(a, b)]) == a
  {
    var d := SubtractRows(a, b);
    SubtractNumbered(a, b);
    assert |d| == n && forall k :: 0 <= k < n ==> d[k] == DiffRow(a[k], b[k]);
    assert [b, d] == [b] + [d];
    CombineSingle(b, n);
    CombineSnoc([b], d, n);
    AddDifference(a, b, d, n);
  }

  lemma AddDifference(a: seq<Row>, b: seq<Row>, d: seq<Row>, n: nat)
    requires Numbered(a, n) && Numbered(b, n)
    requires |d| == n && forall k :: 0 <= k < n ==> d[k] == DiffRow(a[k], b[k])
    ensures Numbered(d, n)
    ensures AddTables(b, d) == a
  {
  }
}
