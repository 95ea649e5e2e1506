/// A property co-owned by several stakeholders, as a value: one flexible
/// slice per stakeholder name, all paying into one common fund, with the
/// operations that fan a payment out to one slice or a period advance out to
/// every slice.
module PropertySpec {
  import opened Common
  import opened Tables
  import opened Schedule
  import opened SliceSpec
  import opened Stakes

  /// The party type that marks the common account rather than a stakeholder.
  const CommonPartyType: string := "Common Party"

  /// The common account every stake pays into. The property builds it with
  /// "Common Party" in the position of the ledger strings, so its type is
  /// unset.
  const CommonFund: Party := Party("Common Fund", None, ["Common Party"], [], None)

  /// What a property is built from; an absent dictionary of down payments
  /// is the empty map.
  datatype PropertyParams = PropertyParams(
    purchaseCost: real,
    purchaseDownPayment: real,
    loanInfo: LoanInfo,
    stakeholders: seq<Party>,
    stakeholderDownPayments: map<string, real>)

  predicate IsStakeholder(p: Party)
  {
    p.partyType != Some(CommonPartyType)
  }

  /// The stakeholders by name: parties of the common type are left out, and
  /// of two parties with the same name the later one is kept.
  function StakeholdersByName(ps: seq<Party>): (m: map<string, Party>)
    ensures forall n :: n in m <==> exists i :: 0 <= i < |ps| && IsStakeholder(ps[i]) && ps[i].name == n
    ensures forall n :: n in m ==> m[n].name == n && IsStakeholder(m[n]) && m[n] in ps
  {
    if ps == [] then map[]
    else
      var m := StakeholdersByName(ps[..|ps| - 1]);
      var p := ps[|ps| - 1];
      if IsStakeholder(p) then m[p.name := p] else m
  }

  /// The order in which the stakeholders' dictionary lists its names: each
  /// name where it first occurs.
  function NameOrder(ps: seq<Party>): (o: seq<string>)
  {
    if ps == [] then []
    else
      var o := NameOrder(ps[..|ps| - 1]);
      var p := ps[|ps| - 1];
      if IsStakeholder(p) && p.name !in o then o + [p.name] else o
  }

  /// The name order lists every stakeholder name exactly once.
  lemma {:induction false} NameOrderSpec(ps: seq<Party>)
    ensures Distinct(NameOrder(ps))
    ensures forall n :: n in NameOrder(ps) <==> n in StakeholdersByName(ps)
  {
    if ps != [] {
      var init := ps[..|ps| - 1];
      var p := ps[|ps| - 1];
      NameOrderSpec(init);
      var o := NameOrder(init);
      assert forall n :: n in StakeholdersByName(ps) <==> n in StakeholdersByName(init) || (IsStakeholder(p) && n == p.name);
      if IsStakeholder(p) && p.name !in o {
        var o' := o + [p.name];
        forall i, j | 0 <= i < j < |o'|
          ensures o'[i] != o'[j]
        {
          if j == |o| {
            assert o'[i] == o[i];
          }
        }
      }
    }
  }

  /// A property as a value: its stakeholders, common fund and loan terms, the
  /// slice of every stakeholder name, and the order its dictionaries list
  /// the names in.
  datatype PropertyState = PropertyState(
    stakeholders: map<string, Party>,
    commonFund: Party,
    loanInfo: LoanInfo,
    slices: map<string, SliceState>,
    order: seq<string>)

  /// A property operation's new state and the error it raised, if any.
  datatype PropertyStep = PropertyStep(state: PropertyState, error: Option<Error>)

  /// The slice under name n is consistent and pays the stakeholder of that
  /// name's share into the common fund on the property's loan terms.
  predicate SliceFits(ps: PropertyState, n: string)
    requires n in ps.slices
  {
    && n in ps.stakeholders
    && Consistent(ps.slices[n])
    && ps.slices[n].payer == ps.stakeholders[n]
    && ps.slices[n].recipient == ps.commonFund
    && ps.slices[n].baseline.info == ps.loanInfo
  }

  /// The shape every property keeps: the order lists every slice name once,
  /// and every stakeholder has a slice that fits it.
  predicate PropertyShaped(ps: PropertyState)
  {
    && Distinct(ps.order)
    && (forall n :: n in ps.order ==> n in ps.slices)
    && (forall n :: n in ps.slices ==> n in ps.order)
    && ps.stakeholders.Keys == ps.slices.Keys
    && forall n :: n in ps.slices ==> SliceFits(ps, n)
  }

  /// Every slice's period is p and its queue holds payments of period p only.
  predicate AllAtPeriod(ps: PropertyState, p: nat)
  {
    forall n :: n in ps.slices ==> ps.slices[n].currentPeriod == p && PendingCurrent(ps.slices[n])
  }

  /// The slice of a new stakeholder: its stake on the property's terms, with
  /// its down payment queued in period 0 if it has one. It is consistent, in
  /// period 0, pays the party's share into the common fund on the stake's two
  /// plain loans, has recorded nothing, and queues exactly the down payment,
  /// if the name has one.
  function NewSlice(params: PropertyParams, stakeValue: real, stakeDebt: real, party: Party): (s: SliceState)
    requires params.loanInfo.annualRate > 0.0 && params.loanInfo.totalPeriods >= 1
    ensures Consistent(s) && PendingCurrent(s) && s.currentPeriod == 0
    ensures s.payer == party && s.recipient == CommonFund
    ensures s.baseline == PlainLoan(params.loanInfo, stakeValue)
    ensures s.nominal == PlainLoan(params.loanInfo, stakeDebt)
    ensures s.verification == []
    ensures s.pending == if party.name in params.stakeholderDownPayments
                         then [Payment(params.stakeholderDownPayments[party.name], party, CommonFund, 0, None)]
                         else []
  {
    var s0 := StakeSlice(stakeValue, stakeDebt, Parties(party, CommonFund), params.loanInfo);
    if party.name in params.stakeholderDownPayments then
      var payment := Payment(params.stakeholderDownPayments[party.name], party, CommonFund, 0, None);
      AcceptOutcome(s0, payment);
      AcceptStep(s0, payment).state
    else s0
  }

  /// A new slice is the plain stake, with the down payment accepted when the
  /// name has one.
  lemma NewSliceQueues(params: PropertyParams, stakeValue: real, stakeDebt: real, party: Party)
    requires params.loanInfo.annualRate > 0.0 && params.loanInfo.totalPeriods >= 1
    ensures party.name !in params.stakeholderDownPayments ==>
      NewSlice(params, stakeValue, stakeDebt, party) == StakeSlice(stakeValue, stakeDebt, Parties(party, CommonFund), params.loanInfo)
    ensures party.name in params.stakeholderDownPayments ==>
      NewSlice(params, stakeValue, stakeDebt, party)
      == AcceptStep(StakeSlice(stakeValue, stakeDebt, Parties(party, CommonFund), params.loanInfo),
                    Payment(params.stakeholderDownPayments[party.name], party, CommonFund, 0, None)).state
  {
  }

  /// Each stakeholder paired with the common fund, by name.
  function PartiesByName(stakeholders: map<string, Party>): (m: map<string, Parties>)
    ensures m.Keys == stakeholders.Keys
    ensures forall n :: n in m ==> m[n] == Parties(stakeholders[n], CommonFund)
  {
    map n | n in stakeholders :: Parties(stakeholders[n], CommonFund)
  }

  /// The slices of new stakeholders before any down payment is queued.
  function StakeSlices(stakeholders: map<string, Party>, stakeValue: real, stakeDebt: real, info: LoanInfo)
    : (m: map<string, SliceState>)
    requires info.annualRate > 0.0 && info.totalPeriods >= 1
    ensures m.Keys == stakeholders.Keys
    ensures forall n :: n in m ==> m[n] == StakeSlice(stakeValue, stakeDebt, Parties(stakeholders[n], CommonFund), info)
  {
    map n | n in stakeholders :: StakeSlice(stakeValue, stakeDebt, Parties(stakeholders[n], CommonFund), info)
  }

  /// The slices of new stakeholders, one per name, each the stake of the
  /// given value and debt with its down payment queued.
  function InitialSlices(params: PropertyParams, stakeholders: map<string, Party>, stakeValue: real, stakeDebt: real)
    : (m: map<string, SliceState>)
    requires params.loanInfo.annualRate > 0.0 && params.loanInfo.totalPeriods >= 1
    requires forall n :: n in stakeholders ==> stakeholders[n].name == n
    ensures m.Keys == stakeholders.Keys
    ensures forall n :: n in m ==>
      && Consistent(m[n]) && PendingCurrent(m[n]) && m[n].currentPeriod == 0
      && m[n].payer == stakeholders[n] && m[n].recipient == CommonFund
      && m[n].baseline == PlainLoan(params.loanInfo, stakeValue)
      && m[n].nominal == PlainLoan(params.loanInfo, stakeDebt)
      && m[n].verification == []
      && m[n].pending == if n in params.stakeholderDownPayments
                         then [Payment(params.stakeholderDownPayments[n], stakeholders[n], CommonFund, 0, None)]
                         else []
  {
    map n | n in stakeholders :: NewSlice(params, stakeValue, stakeDebt, stakeholders[n])
  }

  /// A map that gives every name its new slice is the initial slices.
  lemma InitialSlicesAre(params: PropertyParams, stakeholders: map<string, Party>, stakeValue: real, stakeDebt: real,
                         m: map<string, SliceState>)
    requires params.loanInfo.annualRate > 0.0 && params.loanInfo.totalPeriods >= 1
    requires forall n :: n in stakeholders ==> stakeholders[n].name == n
    requires m.Keys == stakeholders.Keys
    requires forall n :: n in m ==> m[n] == NewSlice(params, stakeValue, stakeDebt, stakeholders[n])
    ensures m == InitialSlices(params, stakeholders, stakeValue, stakeDebt)
  {
  }

  /// A new property: the purchase cost and the debt are split evenly over
  /// the stakeholder names; with no stakeholder the split divides by zero.
  function InitialProperty(params: PropertyParams): (r: Result<PropertyState>)
    requires params.loanInfo.annualRate > 0.0 && params.loanInfo.totalPeriods >= 1
    ensures r.Ok? ==>
      var ps := r.value;
      var count := |ps.stakeholders| as real;
      && ps.stakeholders == StakeholdersByName(params.stakeholders)
      && ps.commonFund == CommonFund && ps.loanInfo == params.loanInfo
      && ps.slices.Keys == ps.stakeholders.Keys
      && forall n :: n in ps.slices ==>
        var s := ps.slices[n];
        && SliceFits(ps, n) && PendingCurrent(s) && s.currentPeriod == 0
        && s.baseline == PlainLoan(params.loanInfo, params.purchaseCost / count)
        && s.nominal == PlainLoan(params.loanInfo, (params.purchaseCost - params.purchaseDownPayment) / count)
        && s.verification == []
        && s.pending == if n in params.stakeholderDownPayments
                        then [Payment(params.stakeholderDownPayments[n], ps.stakeholders[n], CommonFund, 0, None)]
                        else []
  {
    var stakeholders := StakeholdersByName(params.stakeholders);
    if |stakeholders| == 0 then Err(DivisionByZero)
    else
      var count := |stakeholders| as real;
      Ok(PropertyState(stakeholders, CommonFund, params.loanInfo,
                       InitialSlices(params, stakeholders, params.purchaseCost / count,
                                     (params.purchaseCost - params.purchaseDownPayment) / count),
                       NameOrder(params.stakeholders)))
  }

  /// A new property, given its stakeholders by name, spelled out.
  lemma InitialPropertyParts(params: PropertyParams, stakeholders: map<string, Party>)
    requires params.loanInfo.annualRate > 0.0 && params.loanInfo.totalPeriods >= 1
    requires stakeholders == StakeholdersByName(params.stakeholders) && |stakeholders| > 0
    ensures var count := |stakeholders| as real;
      InitialProperty(params)
      == Ok(PropertyState(stakeholders, CommonFund, params.loanInfo,
                          InitialSlices(params, stakeholders, params.purchaseCost / count,
                                        (params.purchaseCost - params.purchaseDownPayment) / count),
                          NameOrder(params.stakeholders)))
  {
  }

  /// Building a property fails, by dividing by zero, exactly when no party
  /// of the list is a stakeholder.
  lemma InitialPropertyError(params: PropertyParams)
    requires params.loanInfo.annualRate > 0.0 && params.loanInfo.totalPeriods >= 1
    ensures InitialProperty(params).Err? <==> forall p :: p in params.stakeholders ==> !IsStakeholder(p)
    ensures InitialProperty(params).Err? ==> InitialProperty(params).error == DivisionByZero
  {
    var stakeholders := StakeholdersByName(params.stakeholders);
    if |stakeholders| == 0 {
      forall p | p in params.stakeholders
        ensures !IsStakeholder(p)
      {
        var i :| 0 <= i < |params.stakeholders| && params.stakeholders[i] == p;
        assert p.name !in stakeholders;
      }
    } else {
      var n0 :| n0 in stakeholders;
      var i :| 0 <= i < |params.stakeholders| && IsStakeholder(params.stakeholders[i]) && params.stakeholders[i].name == n0;
      assert params.stakeholders[i] in params.stakeholders;
    }
  }

  /// The stakeholders by name hold exactly the names of the stakeholder
  /// parties, each under its own name and taken from the list.
  lemma StakeholderNames(ps: seq<Party>)
    ensures forall n :: n in StakeholdersByName(ps) <==> exists p :: p in ps && IsStakeholder(p) && p.name == n
    ensures forall n :: n in StakeholdersByName(ps) ==>
      StakeholdersByName(ps)[n] in ps && StakeholdersByName(ps)[n].name == n
  {
    var m := StakeholdersByName(ps);
    forall n | n in m
      ensures exists p :: p in ps && IsStakeholder(p) && p.name == n
    {
      var j :| 0 <= j < |ps| && IsStakeholder(ps[j]) && ps[j].name == n;
      assert ps[j] in ps;
    }
    forall n | exists p :: p in ps && IsStakeholder(p) && p.name == n
      ensures n in m
    {
      var p :| p in ps && IsStakeholder(p) && p.name == n;
      var j :| 0 <= j < |ps| && ps[j] == p;
    }
  }

  /// A new property is in shape, with every slice in period 0 and its
  /// queue current.
  lemma InitialPropertyShaped(params: PropertyParams)
    requires params.loanInfo.annualRate > 0.0 && params.loanInfo.totalPeriods >= 1
    requires InitialProperty(params).Ok?
    ensures PropertyShaped(InitialProperty(params).value) && AllAtPeriod(InitialProperty(params).value, 0)
    ensures InitialProperty(params).value.commonFund == CommonFund
  {
    var ps := InitialProperty(params).value;
    NameOrderSpec(params.stakeholders);
  }

  /// The property built from the stakeholders by name and their initial
  /// slices is the one InitialProperty describes, and it is in shape.
  lemma InitialPropertyOf(params: PropertyParams, stakeholders: map<string, Party>, stakeValue: real, stakeDebt: real,
                          slices: map<string, SliceState>, ps: PropertyState)
    requires params.loanInfo.annualRate > 0.0 && params.loanInfo.totalPeriods >= 1
    requires stakeholders == StakeholdersByName(params.stakeholders) && |stakeholders| > 0
    requires stakeValue == params.purchaseCost / |stakeholders| as real
    requires stakeDebt == (params.purchaseCost - params.purchaseDownPayment) / |stakeholders| as real
    requires slices == InitialSlices(params, stakeholders, stakeValue, stakeDebt)
    requires ps == PropertyState(stakeholders, CommonFund, params.loanInfo, slices, NameOrder(params.stakeholders))
    ensures InitialProperty(params) == Ok(ps) && PropertyShaped(ps)
  {
    InitialPropertyParts(params, stakeholders);
    InitialPropertyShaped(params);
  }

  /// Forwards a payment to the named stakeholder's slice: an unknown name is
  /// refused, a negative period fails to build the payment, and otherwise
  /// the slice accepts or refuses it.
  function PropertyAccept(ps: PropertyState, stakeholder: Party, amount: real, period: int): PropertyStep
  {
    if stakeholder.name !in ps.slices || stakeholder.name !in ps.stakeholders
    then PropertyStep(ps, Some(UnknownStakeholder))
    else match NewPayment(amount, ps.stakeholders[stakeholder.name], ps.commonFund, period, None)
      case Err(e) => PropertyStep(ps, Some(e))
      case Ok(payment) =>
        var step := AcceptStep(ps.slices[stakeholder.name], payment);
        PropertyStep(ps.(slices := ps.slices[stakeholder.name := step.state]), step.error)
  }

  /// Accepting on a property raises one of three errors, each exactly when
  /// stated, and an error changes nothing.
  lemma PropertyAcceptErrors(ps: PropertyState, stakeholder: Party, amount: real, period: int)
    requires PropertyShaped(ps)
    ensures var r := PropertyAccept(ps, stakeholder, amount, period);
      && (r.error == Some(UnknownStakeholder) <==> stakeholder.name !in ps.slices)
      && (r.error == Some(NegativePeriod) <==> stakeholder.name in ps.slices && period < 0)
      && (r.error == Some(PeriodMismatch) <==>
            stakeholder.name in ps.slices && period >= 0 && period != ps.slices[stakeholder.name].currentPeriod)
      && (r.error.Some? ==> r.error in {Some(UnknownStakeholder), Some(NegativePeriod), Some(PeriodMismatch)})
      && (r.error.Some? ==> r.state == ps)
  {
    var name := stakeholder.name;
    if name in ps.slices && period >= 0 {
      AcceptOutcome(ps.slices[name], Payment(amount, ps.stakeholders[name], ps.commonFund, period, None));
    }
  }

  /// An accepted payment is exactly one payment, of the given amount and
  /// period from the stored stakeholder to the common fund, queued on that
  /// stakeholder's slice and nowhere else.
  lemma PropertyAcceptSuccess(ps: PropertyState, stakeholder: Party, amount: real, period: int)
    requires PropertyShaped(ps)
    requires PropertyAccept(ps, stakeholder, amount, period).error.None?
    ensures var r := PropertyAccept(ps, stakeholder, amount, period);
      && r.state.(slices := ps.slices) == ps
      && r.state.slices.Keys == ps.slices.Keys
      && (forall n :: n in ps.slices && n != stakeholder.name ==> r.state.slices[n] == ps.slices[n])
      && r.state.slices[stakeholder.name]
         == ps.slices[stakeholder.name].(pending := ps.slices[stakeholder.name].pending
              + [Payment(amount, ps.stakeholders[stakeholder.name], ps.commonFund, period, None)])
  {
  }

  /// Queuing any payment on one slice keeps a property in shape.
  lemma AcceptKeepsShape(ps: PropertyState, name: string, payment: Payment)
    requires PropertyShaped(ps) && name in ps.slices
    ensures PropertyShaped(ps.(slices := ps.slices[name := AcceptStep(ps.slices[name], payment).state]))
  {
    var s := ps.slices[name];
    var s' := AcceptStep(s, payment).state;
    assert s'.(pending := s.pending) == s;
    assert Consistent(s');
  }

  /// Accepting keeps a property in shape.
  lemma PropertyAcceptShaped(ps: PropertyState, stakeholder: Party, amount: real, period: int)
    requires PropertyShaped(ps)
    ensures PropertyShaped(PropertyAccept(ps, stakeholder, amount, period).state)
  {
    var name := stakeholder.name;
    if name in ps.slices && period >= 0 {
      AcceptKeepsShape(ps, name, Payment(amount, ps.stakeholders[name], ps.commonFund, period, None));
    }
  }

  /// A slice operation that can again be applied to every state it leaves.
  ghost predicate Reapplicable(step: SliceState --> Step)
  {
    forall s {:trigger step(s)} :: step.requires(s) ==> step.requires(step(s).state)
  }

  /// The slices all accept the operation, and every name of the order is
  /// among them.
  ghost predicate RoundReady(step: SliceState --> Step, slices: map<string, SliceState>, order: seq<string>)
  {
    && (forall n :: n in order ==> n in slices)
    && forall n :: n in slices ==> step.requires(slices[n])
  }

  /// Applies a slice operation to the slices order[i..] one after the other;
  /// the first error stops the round, leaving the slices before it changed,
  /// the failing slice as the operation left it, and the slices after it
  /// untouched.
  function Round(step: SliceState --> Step, slices: map<string, SliceState>, order: seq<string>, i: nat)
    : (r: (map<string, SliceState>, Option<Error>))
    requires i <= |order| && Reapplicable(step) && RoundReady(step, slices, order)
    ensures r.0.Keys == slices.Keys && RoundReady(step, r.0, order)
    decreases |order| - i
  {
    if i == |order| then (slices, None)
    else
      var s := step(slices[order[i]]);
      var next := slices[order[i] := s.state];
      if s.error.Some? then (next, s.error)
      else Round(step, next, order, i + 1)
  }

  /// Advancing a slice can be repeated on what it leaves.
  lemma AdvanceReapplicable()
    ensures Reapplicable(AdvanceStep)
  {
  }

  /// Advances every slice of the property once, in the order of its names.
  function PropertyAdvance(ps: PropertyState): PropertyStep
    requires PropertyShaped(ps)
  {
    AdvanceReapplicable();
    var (slices, error) := Round(AdvanceStep, ps.slices, ps.order, 0);
    PropertyStep(ps.(slices := slices), error)
  }

  /// Some slot of order[i..] holds n.
  predicate Later(order: seq<string>, i: nat, n: string)
  {
    exists j :: i <= j < |order| && order[j] == n
  }

  lemma LaterStep(order: seq<string>, i: nat, n: string)
    requires i < |order|
    ensures Later(order, i, n) <==> order[i] == n || Later(order, i + 1, n)
  {
    if Later(order, i, n) && order[i] != n {
      var j :| i <= j < |order| && order[j] == n;
      assert j != i;
    }
  }

  /// A round leaves alone the slices outside order[i..].
  lemma {:induction false} RoundUntouched(step: SliceState --> Step, slices: map<string, SliceState>, order: seq<string>, i: nat)
    requires i <= |order| && Reapplicable(step) && RoundReady(step, slices, order)
    ensures forall n :: n in slices && !Later(order, i, n) ==> Round(step, slices, order, i).0[n] == slices[n]
    decreases |order| - i
  {
    if i < |order| {
      var s := step(slices[order[i]]);
      if s.error.None? {
        RoundUntouched(step, slices[order[i] := s.state], order, i + 1);
        forall n | n in slices
          ensures Later(order, i, n) <==> n == order[i] || Later(order, i + 1, n)
        {
          LaterStep(order, i, n);
        }
      }
    }
  }

  /// A round applies the operation at most once to each slice: every slice
  /// ends as it was or as the operation left it.
  lemma {:induction false} RoundOnce(step: SliceState --> Step, slices: map<string, SliceState>, order: seq<string>, i: nat)
    requires i <= |order| && Reapplicable(step) && RoundReady(step, slices, order) && Distinct(order)
    ensures forall n :: n in slices ==>
      Round(step, slices, order, i).0[n] == slices[n] || Round(step, slices, order, i).0[n] == step(slices[n]).state
    decreases |order| - i
  {
    if i < |order| {
      var n0 := order[i];
      var s := step(slices[n0]);
      var next := slices[n0 := s.state];
      if s.error.None? {
        RoundOnce(step, next, order, i + 1);
        RoundUntouched(step, next, order, i + 1);
        assert !Later(order, i + 1, n0);
      }
    }
  }

  /// A failed round fails with the error of the operation on one of the
  /// slices of order[i..].
  lemma {:induction false} RoundError(step: SliceState --> Step, slices: map<string, SliceState>, order: seq<string>, i: nat)
    requires i <= |order| && Reapplicable(step) && RoundReady(step, slices, order) && Distinct(order)
    ensures Round(step, slices, order, i).1.Some? ==>
      exists n :: n in slices && Later(order, i, n) && Round(step, slices, order, i).1 == step(slices[n]).error
    decreases |order| - i
  {
    if i < |order| {
      var n0 := order[i];
      var s := step(slices[n0]);
      var next := slices[n0 := s.state];
      assert Later(order, i, n0);
      if s.error.None? {
        RoundError(step, next, order, i + 1);
        if Round(step, slices, order, i).1.Some? {
          var n :| n in next && Later(order, i + 1, n) && Round(step, next, order, i + 1).1 == step(next[n]).error;
          assert n != n0;
          LaterStep(order, i, n);
        }
      }
    }
  }

  /// A round without error applies the operation to every slice of
  /// order[i..] and fails exactly when the operation fails on one of them.
  lemma {:induction false} RoundOutcome(step: SliceState --> Step, slices: map<string, SliceState>, order: seq<string>, i: nat)
    requires i <= |order| && Reapplicable(step) && RoundReady(step, slices, order) && Distinct(order)
    ensures Round(step, slices, order, i).1.None? <==>
      forall n :: n in slices && Later(order, i, n) ==> step(slices[n]).error.None?
    ensures Round(step, slices, order, i).1.None? ==>
      forall n :: n in slices && Later(order, i, n) ==> Round(step, slices, order, i).0[n] == step(slices[n]).state
    decreases |order| - i
  {
    if i < |order| {
      var n0 := order[i];
      var s := step(slices[n0]);
      var next := slices[n0 := s.state];
      assert Later(order, i, n0);
      if s.error.None? {
        RoundOutcome(step, next, order, i + 1);
        RoundUntouched(step, next, order, i + 1);
        assert !Later(order, i + 1, n0);
        forall n | n in slices
          ensures Later(order, i, n) <==> n == n0 || Later(order, i + 1, n)
        {
          LaterStep(order, i, n);
        }
      }
    } else {
      assert forall n :: !Later(order, i, n);
    }
  }

  /// Every name of the order lies in the whole order.
  lemma LaterZero(order: seq<string>, n: string)
    ensures Later(order, 0, n) <==> n in order
  {
    if n in order {
      var j :| 0 <= j < |order| && order[j] == n;
    }
  }

  /// One slice's advance keeps it consistent with its parties and baseline,
  /// and never fails verification.
  lemma AdvanceKeepsSlice(s: SliceState)
    requires Consistent(s)
    ensures Consistent(AdvanceStep(s).state) && AdvanceStep(s).error != Some(VerificationFailed)
    ensures AdvanceStep(s).state.payer == s.payer && AdvanceStep(s).state.recipient == s.recipient
    ensures AdvanceStep(s).state.baseline == s.baseline
  {
    AdvancePreservesConsistent(s);
    AdvanceErrors(s);
    if AdvanceStep(s).error.None? {
      AdvanceSuccess(s);
    }
  }

  /// Advancing one slice keeps a property in shape.
  lemma AdvanceKeepsShape(ps: PropertyState, name: string)
    requires PropertyShaped(ps) && name in ps.slices
    ensures PropertyShaped(ps.(slices := ps.slices[name := AdvanceStep(ps.slices[name]).state]))
  {
    AdvanceKeepsSlice(ps.slices[name]);
  }

  /// Advancing a property keeps its shape and never fails verification.
  lemma PropertyAdvanceShaped(ps: PropertyState)
    requires PropertyShaped(ps)
    ensures PropertyShaped(PropertyAdvance(ps).state)
    ensures PropertyAdvance(ps).error != Some(VerificationFailed)
  {
    AdvanceReapplicable();
    var r := Round(AdvanceStep, ps.slices, ps.order, 0);
    var ps' := ps.(slices := r.0);
    assert PropertyAdvance(ps) == PropertyStep(ps', r.1);
    RoundOnce(AdvanceStep, ps.slices, ps.order, 0);
    RoundError(AdvanceStep, ps.slices, ps.order, 0);
    forall n | n in ps'.slices
      ensures SliceFits(ps', n) && AdvanceStep(ps.slices[n]).error != Some(VerificationFailed)
    {
      AdvanceKeepsSlice(ps.slices[n]);
    }
  }

  /// The errors a slice's advance can raise: past the last period, a
  /// negative down payment, or a difference left in the last period.
  predicate AdvanceError(e: Option<Error>)
  {
    e in {None, Some(PeriodOutOfRange), Some(NegativeDownPayment), Some(DivisionByZero)}
  }

  /// A consistent slice's advance raises only those errors.
  lemma AdvanceErrorKinds(s: SliceState)
    requires Consistent(s)
    ensures AdvanceError(AdvanceStep(s).error)
  {
    AdvanceErrors(s);
  }

  /// A property's advance raises only the errors of its slices' advances.
  lemma PropertyAdvanceErrorKinds(ps: PropertyState)
    requires PropertyShaped(ps)
    ensures AdvanceError(PropertyAdvance(ps).error)
  {
    AdvanceReapplicable();
    RoundError(AdvanceStep, ps.slices, ps.order, 0);
    forall n | n in ps.slices
      ensures AdvanceError(AdvanceStep(ps.slices[n]).error)
    {
      AdvanceErrorKinds(ps.slices[n]);
    }
  }

  /// A property advance fails exactly when some slice's advance fails.
  lemma PropertyAdvanceFails(ps: PropertyState)
    requires PropertyShaped(ps)
    ensures PropertyAdvance(ps).error.None? <==> forall n :: n in ps.slices ==> AdvanceStep(ps.slices[n]).error.None?
  {
    AdvanceReapplicable();
    RoundOutcome(AdvanceStep, ps.slices, ps.order, 0);
    forall n | n in ps.slices
      ensures Later(ps.order, 0, n)
    {
      LaterZero(ps.order, n);
    }
  }

  /// A property advance without error advances every slice exactly once.
  lemma PropertyAdvanceEach(ps: PropertyState)
    requires PropertyShaped(ps) && PropertyAdvance(ps).error.None?
    ensures forall n :: n in ps.slices ==> PropertyAdvance(ps).state.slices[n] == AdvanceStep(ps.slices[n]).state
  {
    AdvanceReapplicable();
    RoundOutcome(AdvanceStep, ps.slices, ps.order, 0);
    forall n | n in ps.slices
      ensures Later(ps.order, 0, n)
    {
      LaterZero(ps.order, n);
    }
  }

  /// When advancing a property whose slices all sit in period p with current
  /// queues succeeds, every slice sits in period p + 1 with an empty queue.
  lemma PropertyAdvancePeriod(ps: PropertyState, p: nat)
    requires PropertyShaped(ps) && AllAtPeriod(ps, p)
    requires PropertyAdvance(ps).error.None?
    ensures AllAtPeriod(PropertyAdvance(ps).state, p + 1)
    ensures forall n :: n in ps.slices ==> PropertyAdvance(ps).state.slices[n].pending == []
  {
    var r := PropertyAdvance(ps);
    PropertyAdvanceEach(ps);
    PropertyAdvanceFails(ps);
    forall n | n in ps.slices
      ensures r.state.slices[n].currentPeriod == p + 1 && r.state.slices[n].pending == []
      ensures PendingCurrent(r.state.slices[n])
    {
      AdvanceSuccess(ps.slices[n]);
    }
  }

  /// The per-name results gathered into one: any failure fails the whole
  /// request, otherwise every name has its table.
  function Collect(results: map<string, Result<AmortizationTable>>): Result<map<string, AmortizationTable>>
  {
    if exists n :: n in results && results[n].Err? then Err(VerificationFailed)
    else Ok(map n | n in results :: results[n].value)
  }

  /// Every slice's table by name.
  function SliceTables(ps: PropertyState, tableType: TableType): (m: map<string, Result<AmortizationTable>>)
    requires forall n :: n in ps.slices ==> Shaped(ps.slices[n])
    ensures m.Keys == ps.slices.Keys
    ensures forall n :: n in m ==> m[n] == SliceTable(ps.slices[n], tableType)
  {
    map n | n in ps.slices :: SliceTable(ps.slices[n], tableType)
  }

  /// The tables of every slice by name; a slice that fails its verification
  /// fails the whole request.
  function PropertyTables(ps: PropertyState, tableType: TableType): Result<map<string, AmortizationTable>>
    requires forall n :: n in ps.slices ==> Shaped(ps.slices[n])
  {
    Collect(SliceTables(ps, tableType))
  }

  /// Results gathered one name at a time, all of them tables, are what
  /// Collect gives.
  lemma CollectAllOk(results: map<string, Result<AmortizationTable>>, tables: map<string, AmortizationTable>)
    requires tables.Keys == results.Keys
    requires forall n :: n in tables ==> Ok(tables[n]) == results[n]
    ensures Collect(results) == Ok(tables)
  {
    assert !exists n :: n in results && results[n].Err?;
    assert (map n | n in results :: results[n].value) == tables;
  }

  /// A single failing result fails the collection.
  lemma CollectFails(results: map<string, Result<AmortizationTable>>, name: string)
    requires name in results && results[name].Err?
    ensures Collect(results) == Err(VerificationFailed)
  {
  }

  /// A property in shape always yields a table for every stakeholder name,
  /// each the table of that name's slice.
  lemma PropertyTablesOfShaped(ps: PropertyState, tableType: TableType)
    requires PropertyShaped(ps)
    ensures PropertyTables(ps, tableType).Ok?
    ensures PropertyTables(ps, tableType).value.Keys == ps.slices.Keys
    ensures forall n :: n in ps.slices ==> Ok(PropertyTables(ps, tableType).value[n]) == SliceTable(ps.slices[n], tableType)
  {
    var results := SliceTables(ps, tableType);
    forall n | n in ps.slices
      ensures results[n].Ok?
    {
      ConsistentIsVerified(ps.slices[n]);
      TableMeansVerified(ps.slices[n], tableType);
    }
    var tables := map n | n in results :: results[n].value;
    CollectAllOk(results, tables);
  }

  /// A slice has a table only when it passes its verification, and the only
  /// way it fails is its verification.
  lemma TableMeansVerified(s: SliceState, tableType: TableType)
    requires Shaped(s)
    ensures SliceTable(s, tableType).Ok? <==> Verified(s)
    ensures SliceTable(s, tableType).Err? ==> SliceTable(s, tableType).error == VerificationFailed
  {
  }
}
