/// Feeding a ledger of payments to a property, as values: the payments are
/// put in period order by a stable sort, and before each payment the
/// property is advanced until a local period counter reaches the payment's
/// period.
module LedgerSpec {
  import opened Common
  import opened SliceSpec
  import opened PropertySpec

  // ----- the stable sort by period -----

  predicate SortedByPeriod(ps: seq<Payment>)
  {
    forall i, j :: 0 <= i < j < |ps| ==> ps[i].period <= ps[j].period
  }

  /// The payments of period p, in the order they come.
  function WithPeriod(ps: seq<Payment>, p: nat): seq<Payment>
  {
    if ps == [] then []
    else WithPeriod(ps[..|ps| - 1], p) + (if ps[|ps| - 1].period == p then [ps[|ps| - 1]] else [])
  }

  /// Places x after every payment of a period no later than its own.
  function InsertByPeriod(x: Payment, ps: seq<Payment>): (r: seq<Payment>)
    ensures |r| == |ps| + 1
  {
    if ps == [] || ps[|ps| - 1].period <= x.period then ps + [x]
    else InsertByPeriod(x, ps[..|ps| - 1]) + [ps[|ps| - 1]]
  }

  /// The payments sorted by period; payments of equal period keep their
  /// order, as a stable sort keeps them.
  function SortByPeriod(ps: seq<Payment>): (r: seq<Payment>)
    ensures |r| == |ps|
  {
    if ps == [] then []
    else InsertByPeriod(ps[|ps| - 1], SortByPeriod(ps[..|ps| - 1]))
  }

  lemma {:induction false} InsertMultiset(x: Payment, ps: seq<Payment>)
    ensures multiset(InsertByPeriod(x, ps)) == multiset(ps) + multiset{x}
    decreases |ps|
  {
    if !(ps == [] || ps[|ps| - 1].period <= x.period) {
      var init := ps[..|ps| - 1];
      assert ps == init + [ps[|ps| - 1]];
      InsertMultiset(x, init);
    }
  }

  lemma {:induction false} InsertSorted(x: Payment, ps: seq<Payment>)
    requires SortedByPeriod(ps)
    ensures SortedByPeriod(InsertByPeriod(x, ps))
    decreases |ps|
  {
    if !(ps == [] || ps[|ps| - 1].period <= x.period) {
      var init, last := ps[..|ps| - 1], ps[|ps| - 1];
      InsertSorted(x, init);
      InsertMultiset(x, init);
      var r0 := InsertByPeriod(x, init);
      forall k | 0 <= k < |r0|
        ensures r0[k].period <= last.period
      {
        assert r0[k] in multiset(r0);
        if r0[k] != x {
          assert r0[k] in multiset(init);
          var m :| 0 <= m < |init| && init[m] == r0[k];
          assert ps[m] == init[m];
        }
      }
    }
  }

  lemma {:induction false} InsertWithPeriod(x: Payment, ps: seq<Payment>, p: nat)
    ensures WithPeriod(InsertByPeriod(x, ps), p) == WithPeriod(ps, p) + (if x.period == p then [x] else [])
    decreases |ps|
  {
    var r := InsertByPeriod(x, ps);
    if ps == [] || ps[|ps| - 1].period <= x.period {
      assert r[..|r| - 1] == ps;
    } else {
      var init, last := ps[..|ps| - 1], ps[|ps| - 1];
      InsertWithPeriod(x, init, p);
      assert r[..|r| - 1] == InsertByPeriod(x, init);
    }
  }

  /// The sort orders by period, loses and adds nothing, and keeps the order
  /// of the payments of each period.
  lemma {:induction false} SortByPeriodSpec(ps: seq<Payment>)
    ensures SortedByPeriod(SortByPeriod(ps))
    ensures multiset(SortByPeriod(ps)) == multiset(ps)
    ensures forall p :: WithPeriod(SortByPeriod(ps), p) == WithPeriod(ps, p)
    decreases |ps|
  {
    if ps != [] {
      var init, last := ps[..|ps| - 1], ps[|ps| - 1];
      assert ps == init + [last];
      SortByPeriodSpec(init);
      InsertSorted(last, SortByPeriod(init));
      InsertMultiset(last, SortByPeriod(init));
      forall p: nat
        ensures WithPeriod(SortByPeriod(ps), p) == WithPeriod(ps, p)
      {
        InsertWithPeriod(last, SortByPeriod(init), p);
      }
    }
  }

  /// The latest period of the payments, 0 for none.
  function MaxPeriod(ps: seq<Payment>): (m: nat)
    ensures forall x :: x in ps ==> x.period <= m
    ensures ps != [] ==> exists x :: x in ps && x.period == m
    ensures ps == [] ==> m == 0
  {
    if ps == [] then 0
    else
      var m := MaxPeriod(ps[..|ps| - 1]);
      assert ps == ps[..|ps| - 1] + [ps[|ps| - 1]];
      if ps[|ps| - 1].period > m then ps[|ps| - 1].period else m
  }

  // ----- processing -----

  /// Where processing stands: the property, the local period counter, and
  /// the error that stopped it, if any.
  datatype Run = Run(state: PropertyState, current: nat, error: Option<Error>)

  /// Advances the property until the counter reaches the target; a failing
  /// advance stops, leaving the counter where it was.
  function CatchUp(ps: PropertyState, current: nat, target: nat): (r: Run)
    requires PropertyShaped(ps)
    ensures PropertyShaped(r.state)
    decreases target - current
  {
    if target <= current then Run(ps, current, None)
    else
      PropertyAdvanceShaped(ps);
      var a := PropertyAdvance(ps);
      if a.error.Some? then Run(a.state, current, a.error)
      else CatchUp(a.state, current + 1, target)
  }

  /// Forwards a payment whose sender has a slice; drops any other.
  function ProcessOne(ps: PropertyState, payment: Payment): (r: PropertyStep)
    requires PropertyShaped(ps)
    ensures PropertyShaped(r.state)
  {
    PropertyAcceptShaped(ps, payment.sender, payment.amount, payment.period);
    if payment.sender.name in ps.slices then PropertyAccept(ps, payment.sender, payment.amount, payment.period)
    else PropertyStep(ps, None)
  }

  /// Catches up to each payment's period in turn and forwards it; the first
  /// error stops the run.
  function ProcessFrom(ps: PropertyState, payments: seq<Payment>, current: nat): (r: Run)
    requires PropertyShaped(ps)
    ensures PropertyShaped(r.state)
    decreases |payments|
  {
    if payments == [] then Run(ps, current, None)
    else
      var c := CatchUp(ps, current, payments[0].period);
      if c.error.Some? then c
      else
        var p := ProcessOne(c.state, payments[0]);
        if p.error.Some? then Run(p.state, c.current, p.error)
        else ProcessFrom(p.state, payments[1..], c.current)
  }

  /// Processes a ledger: sorts it by period and runs it from period 0.
  function ProcessLedger(ps: PropertyState, payments: seq<Payment>): Run
    requires PropertyShaped(ps)
  {
    ProcessFrom(ps, SortByPeriod(payments), 0)
  }

  // ----- what processing promises -----

  /// The counter never goes down, and a catch-up that succeeds ends exactly
  /// at the later of the counter and the target, one advance per period.
  lemma {:induction false} CatchUpCounter(ps: PropertyState, current: nat, target: nat)
    requires PropertyShaped(ps)
    ensures current <= CatchUp(ps, current, target).current <= Max(current, target)
    ensures CatchUp(ps, current, target).error.None? ==> CatchUp(ps, current, target).current == Max(current, target)
    decreases target - current
  {
    if current < target {
      PropertyAdvanceShaped(ps);
      var a := PropertyAdvance(ps);
      if a.error.None? {
        CatchUpCounter(a.state, current + 1, target);
      }
    }
  }

  /// A run never moves the counter back, and one that finishes leaves it at
  /// the latest period of the payments (or where it started, if later).
  lemma {:induction false} ProcessFromCounter(ps: PropertyState, payments: seq<Payment>, current: nat)
    requires PropertyShaped(ps)
    ensures current <= ProcessFrom(ps, payments, current).current
    ensures ProcessFrom(ps, payments, current).error.None? ==>
      ProcessFrom(ps, payments, current).current == Max(current, MaxPeriod(payments))
    decreases |payments|
  {
    if payments != [] {
      var c := CatchUp(ps, current, payments[0].period);
      CatchUpCounter(ps, current, payments[0].period);
      if c.error.None? {
        var p := ProcessOne(c.state, payments[0]);
        if p.error.None? {
          var rest := payments[1..];
          assert payments == [payments[0]] + rest;
          ProcessFromCounter(p.state, rest, c.current);
          MaxPeriodCons(payments[0], rest);
        }
      }
    }
  }

  lemma MaxPeriodCons(x: Payment, ps: seq<Payment>)
    ensures MaxPeriod([x] + ps) == Max(x.period, MaxPeriod(ps))
  {
    var m := MaxPeriod([x] + ps);
    assert forall y :: y in ps ==> y in [x] + ps;
    if ps != [] {
      var y :| y in ps && y.period == MaxPeriod(ps);
    }
  }

  /// Processing a ledger that finishes leaves the counter at its latest
  /// period: the property is advanced once per period up to that one.
  lemma ProcessLedgerCounter(ps: PropertyState, payments: seq<Payment>)
    requires PropertyShaped(ps)
    ensures ProcessLedger(ps, payments).error.None? ==> ProcessLedger(ps, payments).current == MaxPeriod(payments)
  {
    var sorted := SortByPeriod(payments);
    SortByPeriodSpec(payments);
    ProcessFromCounter(ps, sorted, 0);
    assert forall x :: x in sorted <==> x in payments by {
      forall x
        ensures x in sorted <==> x in payments
      {
        assert x in sorted <==> x in multiset(sorted);
        assert x in payments <==> x in multiset(payments);
      }
    }
  }

  /// A dropped payment leaves the property as it was, and a forwarded one is
  /// never refused for an unknown name.
  lemma ProcessOneDrops(ps: PropertyState, payment: Payment)
    requires PropertyShaped(ps)
    ensures payment.sender.name !in ps.slices ==> ProcessOne(ps, payment) == PropertyStep(ps, None)
    ensures ProcessOne(ps, payment).error != Some(UnknownStakeholder)
    ensures ProcessOne(ps, payment).error != Some(NegativePeriod)
  {
    PropertyAcceptErrors(ps, payment.sender, payment.amount, payment.period);
  }

  /// Forwarding a payment of the period every slice sits in succeeds and
  /// keeps every slice in that period.
  lemma ProcessOneAtPeriod(ps: PropertyState, payment: Payment)
    requires PropertyShaped(ps) && AllAtPeriod(ps, payment.period)
    ensures ProcessOne(ps, payment).error.None?
    ensures AllAtPeriod(ProcessOne(ps, payment).state, payment.period)
  {
    var name := payment.sender.name;
    PropertyAcceptErrors(ps, payment.sender, payment.amount, payment.period);
    if name in ps.slices {
      PropertyAcceptSuccess(ps, payment.sender, payment.amount, payment.period);
      var s := PropertyAccept(ps, payment.sender, payment.amount, payment.period).state.slices[name];
      assert PendingCurrent(s) by {
        forall x | x in s.pending
          ensures x.period == s.currentPeriod
        {
          if x !in ps.slices[name].pending {
            assert x in [Payment(payment.amount, ps.stakeholders[name], ps.commonFund, payment.period, None)];
          }
        }
      }
    }
  }

  /// Catching up a property whose slices all sit at the counter's period
  /// keeps them at the counter's period.
  lemma {:induction false} CatchUpAtPeriod(ps: PropertyState, current: nat, target: nat)
    requires PropertyShaped(ps) && AllAtPeriod(ps, current)
    ensures CatchUp(ps, current, target).error.None? ==>
      AllAtPeriod(CatchUp(ps, current, target).state, CatchUp(ps, current, target).current)
    decreases target - current
  {
    if current < target {
      PropertyAdvanceShaped(ps);
      var a := PropertyAdvance(ps);
      if a.error.None? {
        PropertyAdvancePeriod(ps, current);
        CatchUpAtPeriod(a.state, current + 1, target);
      }
    }
  }

  /// Run in period order from a counter no later than any payment, on a
  /// property whose slices all sit at the counter's period, no forwarded
  /// payment is ever refused (no unknown name, no period mismatch): an error
  /// can only come from an advance, and a finished run leaves every slice at
  /// the counter's period.
  lemma {:induction false} ProcessFromAtPeriod(ps: PropertyState, payments: seq<Payment>, current: nat)
    requires PropertyShaped(ps) && AllAtPeriod(ps, current)
    requires SortedByPeriod(payments)
    requires forall x :: x in payments ==> current <= x.period
    ensures AdvanceError(ProcessFrom(ps, payments, current).error)
    ensures ProcessFrom(ps, payments, current).error.None? ==>
      AllAtPeriod(ProcessFrom(ps, payments, current).state, ProcessFrom(ps, payments, current).current)
    decreases |payments|
  {
    if payments != [] {
      var x := payments[0];
      var c := CatchUp(ps, current, x.period);
      CatchUpCounter(ps, current, x.period);
      CatchUpAtPeriod(ps, current, x.period);
      AdvanceErrorsOnly(ps, current, x.period);
      if c.error.None? {
        assert c.current == x.period;
        ProcessOneAtPeriod(c.state, x);
        var p := ProcessOne(c.state, x);
        var rest := payments[1..];
        assert forall y :: y in rest ==> x.period <= y.period by {
          forall y | y in rest
            ensures x.period <= y.period
          {
            var k :| 0 <= k < |rest| && rest[k] == y;
            assert payments[k + 1] == y;
          }
        }
        assert forall y :: y in rest ==> y in payments;
        ProcessFromAtPeriod(p.state, rest, c.current);
      }
    }
  }

  /// A catch-up fails only with an advance's error.
  lemma {:induction false} AdvanceErrorsOnly(ps: PropertyState, current: nat, target: nat)
    requires PropertyShaped(ps)
    ensures AdvanceError(CatchUp(ps, current, target).error)
    decreases target - current
  {
    if current < target {
      PropertyAdvanceShaped(ps);
      var a := PropertyAdvance(ps);
      PropertyAdvanceErrorKinds(ps);
      if a.error.None? {
        AdvanceErrorsOnly(a.state, current + 1, target);
      }
    }
  }

  /// Processing a ledger on a property whose slices all sit in period 0 (a
  /// new property) never has a payment refused: any error comes from an
  /// advance, and a finished run leaves every slice at the latest period.
  lemma ProcessLedgerOnNew(ps: PropertyState, payments: seq<Payment>)
    requires PropertyShaped(ps) && AllAtPeriod(ps, 0)
    ensures AdvanceError(ProcessLedger(ps, payments).error)
    ensures ProcessLedger(ps, payments).error.None? ==> AllAtPeriod(ProcessLedger(ps, payments).state, MaxPeriod(payments))
  {
    SortByPeriodSpec(payments);
    ProcessFromAtPeriod(ps, SortByPeriod(payments), 0);
    ProcessLedgerCounter(ps, payments);
  }
}
