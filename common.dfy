/// Records shared by every component: parties, loan terms, payments and the
/// error kinds the engine raises.
module Common {

  datatype Option<+T> = None | Some(value: T)

  /// The kinds of exception the engine raises, one constructor per raise site.
  datatype Error =
    | NegativePeriod          // Payment built with a period below zero
    | PeriodMismatch          // slice given a payment for another period
    | NegativeDownPayment     // a negative reconciliation before period 1
    | UnknownStakeholder      // property given a name it has no slice for
    | PeriodOutOfRange        // payment details asked past the last row
    | NoPaymentFound          // payment details asked for a period with no row
    | DivisionByZero          // level payment over zero periods
    | VerificationFailed      // adjusted schedule differs from its reconstruction
    | MultipleSenders         // a ledger line matched more than one party
    | MutualIncomeFromSender  // a ledger line is both a sender's payment and mutual income
    | TooManyFields           // a ledger line with more than four fields

  datatype Result<+T> = Ok(value: T) | Err(error: Error)

  /// No element occurs twice (period numbers of a table, names of a property).
  predicate Distinct<T(==)>(s: seq<T>)
  {
    forall i, j :: 0 <= i < j < |s| ==> s[i] != s[j]
  }

  function Min(a: int, b: int): int
  {
    if a < b then a else b
  }

  function Max(a: nat, b: nat): nat
  {
    if a < b then b else a
  }

  /// A person or entity of the collaboration, with the strings that identify
  /// it on a bank statement.
  datatype Party = Party(
    name: string,
    partyType: Option<string>,
    ledgerStrings: seq<string>,
    ledgerExclusions: seq<string>,
    exclusionAmount: Option<real>)

  /// The constructor of a party: absent string lists become empty lists.
  function NewParty(name: string, ledgerStrings: Option<seq<string>>, ledgerExclusions: Option<seq<string>>,
                    exclusionAmount: Option<real>, partyType: Option<string>): (p: Party)
    ensures p.name == name && p.partyType == partyType && p.exclusionAmount == exclusionAmount
    ensures ledgerStrings.None? ==> p.ledgerStrings == []
    ensures ledgerStrings.Some? ==> p.ledgerStrings == ledgerStrings.value
    ensures ledgerExclusions.None? ==> p.ledgerExclusions == []
    ensures ledgerExclusions.Some? ==> p.ledgerExclusions == ledgerExclusions.value
  {
    Party(name, partyType,
          if ledgerStrings.Some? && ledgerStrings.value != [] then ledgerStrings.value else [],
          if ledgerExclusions.Some? && ledgerExclusions.value != [] then ledgerExclusions.value else [],
          exclusionAmount)
  }

  /// A party given by name only has no identifying strings, no amount
  /// threshold and no type.
  lemma NameOnlyPartyDefaults(name: string)
    ensures NewParty(name, None, None, None, None) == Party(name, None, [], [], None)
  {
  }

  /// A stakeholder paired with the common account it pays into.
  datatype Parties = Parties(stakeholder: Party, commonParty: Party)

  /// The fixed terms of a loan: yearly rate as a fraction and the number of
  /// monthly periods.
  datatype LoanInfo = LoanInfo(annualRate: real, totalPeriods: int)

  /// A transfer between two parties in one period; the period is never negative.
  datatype Payment = Payment(amount: real, sender: Party, recipient: Party, period: nat, date: Option<string>)

  /// The constructor of a payment, which refuses a negative period.
  function NewPayment(amount: real, sender: Party, recipient: Party, period: int, date: Option<string>): (r: Result<Payment>)
    ensures r.Err? <==> period < 0
    ensures r.Err? ==> r.error == NegativePeriod
    ensures r.Ok? ==> r.value == Payment(amount, sender, recipient, period, date)
  {
    if period < 0 then Err(NegativePeriod) else Ok(Payment(amount, sender, recipient, period, date))
  }

  /// The sum of the amounts of a list of payments, added left to right.
  function TotalAmount(ps: seq<Payment>): real
  {
    if ps == [] then 0.0 else TotalAmount(ps[..|ps| - 1]) + ps[|ps| - 1].amount
  }

  lemma {:induction false} TotalAmountAppend(a: seq<Payment>, b: seq<Payment>)
    ensures TotalAmount(a + b) == TotalAmount(a) + TotalAmount(b)
    decreases |b|
  {
    if b == [] {
      assert a + b == a;
    } else {
      assert (a + b)[..|a + b| - 1] == a + b[..|b| - 1];
      TotalAmountAppend(a, b[..|b| - 1]);
    }
  }

  /// The total paid in a period does not depend on the order in which the
  /// payments were queued.
  lemma {:induction false} TotalAmountPermutation(a: seq<Payment>, b: seq<Payment>)
    requires multiset(a) == multiset(b)
    ensures TotalAmount(a) == TotalAmount(b)
    decreases |a|
  {
    if a == [] {
      assert |b| == |multiset(b)| == 0;
    } else {
      var x := a[|a| - 1];
      assert x in multiset(a);
      assert x in multiset(b);
      var j :| 0 <= j < |b| && b[j] == x;
      var rest := b[..j] + b[j + 1..];
      assert b == b[..j] + [x] + b[j + 1..];
      assert a == a[..|a| - 1] + [x];
      assert multiset(b) == multiset(rest) + multiset{x};
      assert multiset(a) == multiset(a[..|a| - 1]) + multiset{x};
      assert multiset(a[..|a| - 1]) == multiset(rest) by {
        assert multiset(a[..|a| - 1]) == multiset(a) - multiset{x};
        assert multiset(rest) == multiset(b) - multiset{x};
      }
      TotalAmountPermutation(a[..|a| - 1], rest);
      TotalAmountAppend(b[..j] + [x], b[j + 1..]);
      TotalAmountAppend(b[..j], [x]);
      TotalAmountAppend(b[..j], b[j + 1..]);
      assert TotalAmount([x]) == x.amount by {
        assert [x][..0] == [];
      }
    }
  }
}
