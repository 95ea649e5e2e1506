/// Reading a bank ledger: each row of a statement becomes zero or more
/// payments to the common account, from the one party whose identifying
/// strings occur in the row's description, or split evenly over every party
/// when the row is marked as mutual income.
module LedgerReading {
  import opened Common

  // ----- dates and periods -----

  /// A calendar date, as a parsed ledger date gives it.
  datatype Date = Date(year: int, month: int, day: int)

  predicate ValidDate(d: Date)
  {
    1 <= d.month <= 12 && 1 <= d.day <= 31
  }

  /// Whole calendar months from start to end; the days are ignored and the
  /// result is negative when end lies in an earlier month.
  function MonthsBetween(start: Date, end: Date): int
  {
    (end.year - start.year) * 12 + (end.month - start.month)
  }

  /// The count is negative exactly when end's month comes before start's,
  /// zero exactly in the same month, and counts add up along a chain of
  /// dates.
  lemma MonthsBetweenSpec(a: Date, b: Date, c: Date)
    requires ValidDate(a) && ValidDate(b)
    ensures MonthsBetween(a, b) < 0 <==> b.year < a.year || (b.year == a.year && b.month < a.month)
    ensures MonthsBetween(a, b) == 0 <==> b.year == a.year && b.month == a.month
    ensures MonthsBetween(a, b) == -MonthsBetween(b, a)
    ensures MonthsBetween(a, b) + MonthsBetween(b, c) == MonthsBetween(a, c)
  {
    if b.year < a.year {
      assert (b.year - a.year) * 12 <= -12;
    } else if b.year > a.year {
      assert (b.year - a.year) * 12 >= 12;
    }
  }

  /// The period of a row: the month of its date counted from the ledger's
  /// first month, which is period 1.
  function RowPeriod(first: Date, date: Date): int
  {
    MonthsBetween(first, date) + 1
  }

  // ----- case-insensitive search -----

  /// ASCII lower case; every other character is kept.
  function LowerChar(c: char): char
  {
    if 'A' <= c <= 'Z' then (c as int + 32) as char else c
  }

  function Lower(s: string): (r: string)
    ensures |r| == |s| && forall i :: 0 <= i < |s| ==> r[i] == LowerChar(s[i])
  {
    if s == [] then [] else Lower(s[..|s| - 1]) + [LowerChar(s[|s| - 1])]
  }

  /// Lowering twice is lowering once.
  lemma LowerIdempotent(s: string)
    ensures Lower(Lower(s)) == Lower(s)
  {
    assert forall i :: 0 <= i < |s| ==> LowerChar(LowerChar(s[i])) == LowerChar(s[i]);
  }

  /// needle occurs in hay at position 0 or later.
  function Contains(hay: string, needle: string): bool
    decreases |hay|
  {
    (|needle| <= |hay| && hay[..|needle|] == needle) || (hay != [] && Contains(hay[1..], needle))
  }

  /// needle sits in hay at position i.
  predicate OccursAt(hay: string, needle: string, i: int)
  {
    0 <= i <= |hay| - |needle| && hay[i..i + |needle|] == needle
  }

  /// Contains finds exactly the positions where needle sits in hay.
  lemma ContainsAt(hay: string, needle: string)
    ensures Contains(hay, needle) <==> exists i :: OccursAt(hay, needle, i)
  {
    if Contains(hay, needle) {
      ContainsSomewhere(hay, needle);
    }
    if exists i :: OccursAt(hay, needle, i) {
      var i :| OccursAt(hay, needle, i);
      FoundContained(hay, needle, i);
    }
  }

  lemma {:induction false} ContainsSomewhere(hay: string, needle: string)
    requires Contains(hay, needle)
    ensures exists i :: OccursAt(hay, needle, i)
    decreases |hay|
  {
    if |needle| <= |hay| && hay[..|needle|] == needle {
      assert hay[0..|needle|] == hay[..|needle|];
      assert OccursAt(hay, needle, 0);
    } else {
      ContainsSomewhere(hay[1..], needle);
      var i :| OccursAt(hay[1..], needle, i);
      assert hay[i + 1..i + 1 + |needle|] == hay[1..][i..i + |needle|];
      assert OccursAt(hay, needle, i + 1);
    }
  }

  lemma {:induction false} FoundContained(hay: string, needle: string, i: int)
    requires OccursAt(hay, needle, i)
    ensures Contains(hay, needle)
    decreases i
  {
    if i == 0 {
      assert hay[..|needle|] == hay[i..i + |needle|];
    } else {
      assert hay[1..][i - 1..i - 1 + |needle|] == hay[i..i + |needle|];
      FoundContained(hay[1..], needle, i - 1);
    }
  }

  /// marker occurs in description, case ignored.
  predicate Occurs(marker: string, description: string)
  {
    Contains(Lower(description), Lower(marker))
  }

  /// The case of either string does not matter.
  lemma OccursIgnoresCase(marker: string, description: string)
    ensures Occurs(marker, description) == Occurs(Lower(marker), Lower(description))
  {
    LowerIdempotent(marker);
    LowerIdempotent(description);
  }

  /// Some marker of the list occurs in description.
  predicate AnyOccurs(markers: seq<string>, description: string)
  {
    exists k :: 0 <= k < |markers| && Occurs(markers[k], description)
  }

  /// Looks at every marker in turn and notes whether any occurs.
  method FindAny(markers: seq<string>, description: string) returns (found: bool)
    ensures found == AnyOccurs(markers, description)
  {
    found := false;
    for i := 0 to |markers|
      invariant found == exists k :: 0 <= k < i && Occurs(markers[k], description)
    {
      if Occurs(markers[i], description) {
        found := true;
      }
    }
  }

  // ----- identifying the sender -----

  function AbsReal(x: real): real
  {
    if x < 0.0 then -x else x
  }

  /// A party sent a row when one of its ledger strings occurs in the
  /// description, none of its exclusions does, and the amount is not below
  /// its exclusion amount (an exclusion amount of 0 counts as none).
  predicate IsCandidate(p: Party, description: string, amount: real)
  {
    && AnyOccurs(p.ledgerStrings, description)
    && !AnyOccurs(p.ledgerExclusions, description)
    && !(p.exclusionAmount.Some? && p.exclusionAmount.value != 0.0 && AbsReal(amount) < p.exclusionAmount.value)
  }

  /// The candidate senders, in the order of the parties.
  function Candidates(parties: seq<Party>, description: string, amount: real): seq<Party>
  {
    if parties == [] then []
    else
      var last := parties[|parties| - 1];
      Candidates(parties[..|parties| - 1], description, amount)
      + (if IsCandidate(last, description, amount) then [last] else [])
  }

  /// The sender of a row: an error for several candidates, the one
  /// candidate, or none.
  function Sender(parties: seq<Party>, description: string, amount: real): Result<Option<Party>>
  {
    var c := Candidates(parties, description, amount);
    if |c| > 1 then Err(MultipleSenders)
    else if |c| == 1 then Ok(Some(c[0]))
    else Ok(None)
  }

  predicate TwoCandidates(parties: seq<Party>, description: string, amount: real)
  {
    exists i, j :: 0 <= i < j < |parties| && IsCandidate(parties[i], description, amount) && IsCandidate(parties[j], description, amount)
  }

  /// The candidates are the parties that are candidates.
  lemma {:induction false} CandidatesMembers(parties: seq<Party>, description: string, amount: real)
    ensures forall q :: q in Candidates(parties, description, amount) <==> q in parties && IsCandidate(q, description, amount)
    decreases |parties|
  {
    if parties != [] {
      var init := parties[..|parties| - 1];
      assert parties == init + [parties[|parties| - 1]];
      CandidatesMembers(init, description, amount);
    }
  }

  /// There are at least two candidates exactly when two parties (two
  /// positions of the list) are candidates.
  lemma CandidatesTwo(parties: seq<Party>, description: string, amount: real)
    ensures |Candidates(parties, description, amount)| >= 2 <==> TwoCandidates(parties, description, amount)
  {
    if |Candidates(parties, description, amount)| >= 2 {
      TwoFromCount(parties, description, amount);
    }
    if TwoCandidates(parties, description, amount) {
      CountFromTwo(parties, description, amount);
    }
  }

  lemma {:induction false} TwoFromCount(parties: seq<Party>, description: string, amount: real)
    requires |Candidates(parties, description, amount)| >= 2
    ensures TwoCandidates(parties, description, amount)
    decreases |parties|
  {
    var init, last := parties[..|parties| - 1], parties[|parties| - 1];
    var c0 := Candidates(init, description, amount);
    if |c0| >= 2 {
      TwoFromCount(init, description, amount);
      var i, j :| 0 <= i < j < |init| && IsCandidate(init[i], description, amount) && IsCandidate(init[j], description, amount);
      assert parties[i] == init[i] && parties[j] == init[j];
    } else {
      CandidatesMembers(init, description, amount);
      assert c0[0] in c0;
      var i :| 0 <= i < |init| && init[i] == c0[0];
      assert parties[i] == init[i];
      assert IsCandidate(parties[|parties| - 1], description, amount);
    }
  }

  lemma {:induction false} CountFromTwo(parties: seq<Party>, description: string, amount: real)
    requires TwoCandidates(parties, description, amount)
    ensures |Candidates(parties, description, amount)| >= 2
    decreases |parties|
  {
    var init, last := parties[..|parties| - 1], parties[|parties| - 1];
    var i, j :| 0 <= i < j < |parties| && IsCandidate(parties[i], description, amount) && IsCandidate(parties[j], description, amount);
    assert parties[i] == init[i];
    if j < |init| {
      assert init[j] == parties[j];
      CountFromTwo(init, description, amount);
    } else {
      CandidatesMembers(init, description, amount);
      assert init[i] in init;
      assert |Candidates(init, description, amount)| >= 1;
    }
  }

  /// Several candidates are an error, exactly one is the sender, and none
  /// means no sender.
  lemma SenderSpec(parties: seq<Party>, description: string, amount: real)
    ensures Sender(parties, description, amount) == Err(MultipleSenders) <==> TwoCandidates(parties, description, amount)
    ensures Sender(parties, description, amount) == Ok(None) <==> forall q :: q in parties ==> !IsCandidate(q, description, amount)
    ensures Sender(parties, description, amount).Ok? && Sender(parties, description, amount).value.Some? ==>
      var p := Sender(parties, description, amount).value.value;
      p in parties && IsCandidate(p, description, amount)
  {
    CandidatesMembers(parties, description, amount);
    CandidatesTwo(parties, description, amount);
    var c := Candidates(parties, description, amount);
    if |c| == 1 {
      assert c[0] in c;
    }
  }

  /// Checks every party against the description and the amount, then
  /// returns the one match.
  method IdentifySender(parties: seq<Party>, description: string, amount: real) returns (r: Result<Option<Party>>)
    ensures r == Sender(parties, description, amount)
  {
    var identified := [];
    for i := 0 to |parties|
      invariant identified == Candidates(parties[..i], description, amount)
    {
      var party := parties[i];
      var excluded := FindAny(party.ledgerExclusions, description);
      var matched := FindAny(party.ledgerStrings, description);
      if matched && party.exclusionAmount.Some? && party.exclusionAmount.value != 0.0 {
        if AbsReal(amount) < party.exclusionAmount.value {
          excluded := true;
        }
      }
      if matched && !excluded {
        identified := identified + [party];
      }
      assert parties[..i + 1][..i] == parties[..i];
    }
    assert parties[..|parties|] == parties;
    if |identified| > 1 {
      return Err(MultipleSenders);
    }
    if |identified| == 1 {
      return Ok(Some(identified[0]));
    }
    return Ok(None);
  }

  // ----- rows -----

  /// The party every ledger payment goes to.
  const CommonAccount: Party := Party("Common Account", Some("Common Party"), [], [], None)

  lemma CommonAccountBuilt()
    ensures CommonAccount == NewParty("Common Account", None, None, None, Some("Common Party"))
  {
  }

  /// The reader's settings: the parties to recognise, the markers of mutual
  /// income, and the date of the first period.
  datatype Reader = Reader(parties: seq<Party>, mutualIncomeStrings: seq<string>, firstPeriod: Date)

  /// The amount's text with every comma (thousands separator) removed.
  function StripCommas(s: string): string
  {
    if s == [] then [] else StripCommas(s[..|s| - 1]) + (if s[|s| - 1] == ',' then [] else [s[|s| - 1]])
  }

  /// Stripping leaves no comma, keeps every other character, and changes
  /// nothing more when applied again.
  lemma {:induction false} StripCommasSpec(s: string)
    ensures ',' !in StripCommas(s)
    ensures ',' !in s ==> StripCommas(s) == s
    ensures StripCommas(StripCommas(s)) == StripCommas(s)
    decreases |s|
  {
    if s != [] {
      var init := s[..|s| - 1];
      assert s == init + [s[|s| - 1]];
      StripCommasSpec(init);
      StripCommasAppend(StripCommas(init), if s[|s| - 1] == ',' then [] else [s[|s| - 1]]);
    }
  }

  /// Stripping keeps every character but the comma as often as it occurs.
  lemma {:induction false} StripCommasKeeps(s: string, c: char)
    requires c != ','
    ensures multiset(StripCommas(s))[c] == multiset(s)[c]
    decreases |s|
  {
    if s != [] {
      var init := s[..|s| - 1];
      assert s == init + [s[|s| - 1]];
      StripCommasKeeps(init, c);
    }
  }

  lemma {:induction false} StripCommasAppend(a: string, b: string)
    ensures StripCommas(a + b) == StripCommas(a) + StripCommas(b)
    decreases |b|
  {
    if b == [] {
      assert a + b == a;
    } else {
      assert (a + b)[..|a + b| - 1] == a + b[..|b| - 1];
      StripCommasAppend(a, b[..|b| - 1]);
    }
  }

  /// Every party's equal share of a mutual income; none when there are no
  /// parties, and a negative period is refused as any payment's is.
  function MutualPayments(parties: seq<Party>, amount: real, period: int, dateText: string): Result<seq<Payment>>
  {
    if parties == [] then Ok([])
    else if period < 0 then Err(NegativePeriod)
    else Ok(seq(|parties|, i requires 0 <= i < |parties| =>
                  Payment(amount / |parties| as real, parties[i], CommonAccount, period, Some(dateText))))
  }

  /// The payments of a row whose date and amount parsed: the sender's one
  /// payment, or the shares of a mutual income; a row that is both is an
  /// error.
  function LinePayments(reader: Reader, date: Date, description: string, amount: real, dateText: string): Result<seq<Payment>>
  {
    var period := RowPeriod(reader.firstPeriod, date);
    var mutual := AnyOccurs(reader.mutualIncomeStrings, description);
    match Sender(reader.parties, description, amount)
    case Err(e) => Err(e)
    case Ok(None) =>
      if mutual then MutualPayments(reader.parties, amount, period, dateText) else Ok([])
    case Ok(Some(sender)) =>
      match NewPayment(amount, sender, CommonAccount, period, Some(dateText))
      case Err(e) => Err(e)
      case Ok(own) => if mutual then Err(MutualIncomeFromSender) else Ok([own])
  }

  /// The payments of one row of the statement: rows of fewer than four
  /// fields, or whose date or amount does not parse, are skipped; a row of
  /// more than four fields is an error.
  function RowPayments(reader: Reader, row: seq<string>, parseDate: string -> Option<Date>, parseAmount: string -> Option<real>)
    : Result<seq<Payment>>
  {
    if |row| < 4 then Ok([])
    else if |row| > 4 then Err(TooManyFields)
    else
      var date := parseDate(row[0]);
      var amount := parseAmount(StripCommas(row[2]));
      if date.None? || amount.None? then Ok([])
      else LinePayments(reader, date.value, row[1], amount.value, row[0])
  }

  /// The payments of a whole statement, row after row; the first row that
  /// fails fails the statement.
  function ParseLedger(reader: Reader, rows: seq<seq<string>>, parseDate: string -> Option<Date>, parseAmount: string -> Option<real>)
    : Result<seq<Payment>>
  {
    if rows == [] then Ok([])
    else
      match ParseLedger(reader, rows[..|rows| - 1], parseDate, parseAmount)
      case Err(e) => Err(e)
      case Ok(earlier) =>
        match RowPayments(reader, rows[|rows| - 1], parseDate, parseAmount)
        case Err(e) => Err(e)
        case Ok(more) => Ok(earlier + more)
  }

  // ----- what reading promises -----

  /// A payment the reader makes: to the common account, from one of its
  /// parties, in a period that is not negative, dated with the row's date.
  predicate FromLedger(reader: Reader, p: Payment)
  {
    p.recipient == CommonAccount && p.sender in reader.parties && p.date.Some?
  }

  /// The shares of a mutual income go one to each party, in order, and add
  /// up to the income.
  lemma MutualPaymentsSpec(parties: seq<Party>, amount: real, period: int, dateText: string)
    requires parties != [] && period >= 0
    ensures MutualPayments(parties, amount, period, dateText).Ok?
    ensures var ps := MutualPayments(parties, amount, period, dateText).value;
      && |ps| == |parties|
      && (forall i :: 0 <= i < |ps| ==> ps[i].sender == parties[i] && ps[i].recipient == CommonAccount && ps[i].period == period)
      && TotalAmount(ps) == amount
  {
    var ps := MutualPayments(parties, amount, period, dateText).value;
    var share := amount / |parties| as real;
    SharesTotal(ps, share, |ps|);
    assert ps[..|ps|] == ps;
  }

  lemma {:induction false} SharesTotal(ps: seq<Payment>, share: real, k: nat)
    requires k <= |ps|
    requires forall i :: 0 <= i < |ps| ==> ps[i].amount == share
    ensures TotalAmount(ps[..k]) == k as real * share
  {
    if k > 0 {
      SharesTotal(ps, share, k - 1);
      assert ps[..k][..k - 1] == ps[..k - 1];
    }
  }

  /// How a row of four fields whose date and amount parse turns out: an
  /// identified sender with no mutual marker gives exactly its payment, a
  /// mutual marker without a sender gives every party its share, a row that
  /// is both is an error, a row that is neither gives nothing, and a
  /// payment of a negative period is refused.
  lemma LinePaymentsSpec(reader: Reader, date: Date, description: string, amount: real, dateText: string)
    requires Sender(reader.parties, description, amount).Ok?
    ensures var sender := Sender(reader.parties, description, amount).value;
      var mutual := AnyOccurs(reader.mutualIncomeStrings, description);
      var period := RowPeriod(reader.firstPeriod, date);
      var r := LinePayments(reader, date, description, amount, dateText);
      && (sender.Some? && period < 0 ==> r == Err(NegativePeriod))
      && (sender.Some? && period >= 0 && !mutual ==>
            r == Ok([Payment(amount, sender.value, CommonAccount, period, Some(dateText))]))
      && (sender.Some? && period >= 0 && mutual ==> r == Err(MutualIncomeFromSender))
      && (sender.None? && !mutual ==> r == Ok([]))
      && (sender.None? && mutual ==> r == MutualPayments(reader.parties, amount, period, dateText))
  {
  }

  /// Every payment read from a row goes to the common account, from one of
  /// the reader's parties, with the row's period and date.
  lemma RowPaymentsFromLedger(reader: Reader, row: seq<string>, parseDate: string -> Option<Date>, parseAmount: string -> Option<real>)
    requires RowPayments(reader, row, parseDate, parseAmount).Ok?
    ensures forall p :: p in RowPayments(reader, row, parseDate, parseAmount).value ==>
      && FromLedger(reader, p)
      && p.date == Some(row[0])
      && p.period as int == RowPeriod(reader.firstPeriod, parseDate(row[0]).value)
  {
    var r := RowPayments(reader, row, parseDate, parseAmount);
    if |row| == 4 && parseDate(row[0]).Some? && parseAmount(StripCommas(row[2])).Some? {
      SenderSpec(reader.parties, row[1], parseAmount(StripCommas(row[2])).value);
      var ps := r.value;
      forall p | p in ps
        ensures p.sender in reader.parties
      {
        var i :| 0 <= i < |ps| && ps[i] == p;
      }
    }
  }

  /// A row is refused for its fields exactly when it has more than four.
  lemma RowTooManyFields(reader: Reader, row: seq<string>, parseDate: string -> Option<Date>, parseAmount: string -> Option<real>)
    ensures RowPayments(reader, row, parseDate, parseAmount) == Err(TooManyFields) <==> |row| > 4
  {
    if |row| == 4 {
      var date := parseDate(row[0]);
      var amount := parseAmount(StripCommas(row[2]));
      if date.Some? && amount.Some? {
        LineNeverTooMany(reader, date.value, row[1], amount.value, row[0]);
      }
    }
  }

  lemma LineNeverTooMany(reader: Reader, date: Date, description: string, amount: real, dateText: string)
    ensures LinePayments(reader, date, description, amount, dateText) != Err(TooManyFields)
  {
    var c := Candidates(reader.parties, description, amount);
  }

  /// Every payment read from a statement is a ledger payment of its
  /// reader.
  lemma {:induction false} ParseLedgerFromLedger(reader: Reader, rows: seq<seq<string>>, parseDate: string -> Option<Date>, parseAmount: string -> Option<real>)
    requires ParseLedger(reader, rows, parseDate, parseAmount).Ok?
    ensures forall p :: p in ParseLedger(reader, rows, parseDate, parseAmount).value ==> FromLedger(reader, p)
    decreases |rows|
  {
    if rows != [] {
      ParseLedgerFromLedger(reader, rows[..|rows| - 1], parseDate, parseAmount);
      RowPaymentsFromLedger(reader, rows[|rows| - 1], parseDate, parseAmount);
    }
  }

  // ----- the reader's loops -----

  /// Turns one row into its payments, splitting a mutual income party by
  /// party.
  method ParseRow(reader: Reader, row: seq<string>, parseDate: string -> Option<Date>, parseAmount: string -> Option<real>)
    returns (r: Result<seq<Payment>>)
    ensures r == RowPayments(reader, row, parseDate, parseAmount)
  {
    if |row| < 4 {
      return Ok([]);
    }
    if |row| > 4 {
      return Err(TooManyFields);
    }
    var dateText, description, amountText := row[0], row[1], row[2];
    var date := parseDate(dateText);
    var amount := parseAmount(StripCommas(amountText));
    if date.None? || amount.None? {
      return Ok([]);
    }
    var period := MonthsBetween(reader.firstPeriod, date.value) + 1;
    var sender := IdentifySender(reader.parties, description, amount.value);
    if sender.Err? {
      return Err(sender.error);
    }
    var payments := [];
    if sender.value.Some? {
      var payment := NewPayment(amount.value, sender.value.value, CommonAccount, period, Some(dateText));
      if payment.Err? {
        return Err(payment.error);
      }
      payments := payments + [payment.value];
    }
    var mutual := FindAny(reader.mutualIncomeStrings, description);
    if mutual && sender.value.Some? {
      return Err(MutualIncomeFromSender);
    }
    if mutual {
      var count := |reader.parties|;
      for i := 0 to count
        invariant period >= 0 || i == 0
        invariant |payments| == i
        invariant forall k :: 0 <= k < i ==>
          payments[k] == Payment(amount.value / count as real, reader.parties[k], CommonAccount, period, Some(dateText))
      {
        var payment := NewPayment(amount.value / count as real, reader.parties[i], CommonAccount, period, Some(dateText));
        if payment.Err? {
          return Err(payment.error);
        }
        payments := payments + [payment.value];
      }
      if count > 0 {
        assert payments == MutualPayments(reader.parties, amount.value, period, dateText).value;
      }
    }
    assert period == RowPeriod(reader.firstPeriod, date.value);
    LinePaymentsSpec(reader, date.value, description, amount.value, dateText);
    if !mutual && sender.value.Some? {
      assert payments == [Payment(amount.value, sender.value.value, CommonAccount, period, Some(dateText))];
    }
    if mutual {
      assert Ok(payments) == MutualPayments(reader.parties, amount.value, period, dateText);
    }
    assert RowPayments(reader, row, parseDate, parseAmount) == LinePayments(reader, date.value, description, amount.value, dateText);
    return Ok(payments);
  }

  /// Reads every row of a statement in turn.
  method ParseRows(reader: Reader, rows: seq<seq<string>>, parseDate: string -> Option<Date>, parseAmount: string -> Option<real>)
    returns (r: Result<seq<Payment>>)
    ensures r == ParseLedger(reader, rows, parseDate, parseAmount)
  {
    var payments := [];
    for i := 0 to |rows|
      invariant ParseLedger(reader, rows[..i], parseDate, parseAmount) == Ok(payments)
    {
      var more := ParseRow(reader, rows[i], parseDate, parseAmount);
      assert rows[..i + 1][..i] == rows[..i];
      if more.Err? {
        r := Err(more.error);
        ParseLedgerStops(reader, rows, parseDate, parseAmount, i + 1);
        return;
      }
      payments := payments + more.value;
    }
    assert rows[..|rows|] == rows;
    return Ok(payments);
  }

  /// A statement whose first k rows fail fails with the same error.
  lemma {:induction false} ParseLedgerStops(reader: Reader, rows: seq<seq<string>>, parseDate: string -> Option<Date>, parseAmount: string -> Option<real>, k: nat)
    requires k <= |rows| && ParseLedger(reader, rows[..k], parseDate, parseAmount).Err?
    ensures ParseLedger(reader, rows, parseDate, parseAmount) == ParseLedger(reader, rows[..k], parseDate, parseAmount)
    decreases |rows| - k
  {
    if k < |rows| {
      assert rows[..k + 1][..k] == rows[..k];
      ParseLedgerStops(reader, rows, parseDate, parseAmount, k + 1);
    } else {
      assert rows[..k] == rows;
    }
  }
}
