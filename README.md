# fair-flex in Dafny

A model of the amortization engine of fair-flex, a tool that lets several people co-own a
property with one mortgage. Each co-owner pays what they like each month, and each one's
"flexible slice" of the mortgage is re-amortized around those payments.

The model covers these parts of the engine:

- **Loans.** A loan is a principal, a monthly rate (annual rate / 12), a first paying period
  and a dictionary of extra payments by period. Its schedule has one row per period:
  - zero rows before the first paying period;
  - then the level annuity payment, recomputed over the remaining periods after every
    period that carries an extra payment;
  - an extra payment in period 0 is a down payment taken off the principal.
- **Table algebra.** Combining loans sums several schedules period by period. Subtracting loans
  takes two schedules row by row. Table equality compares the period and the total, principal
  and interest columns as they print with two decimals.
- **Mortgage slices.** A slice queues the payments of the current period. When the period
  closes, it rounds the queued total minus the payment due to cents. A non-zero difference is
  recorded twice:
  - as an extra payment on the slice's adjusted loan;
  - as a separate "adjustment loan" that starts the next period.

  Every recording then checks that the adjusted loan's table equals the baseline loan's table
  combined with every adjustment loan's table.
- **Stakes and properties.** A stake is a baseline loan on the co-owner's share of the price and
  a nominal loan on their share of the debt. A property builds one stake and one slice per
  stakeholder and queues their down payments. It fans a payment out to one slice and a period
  advance out to every slice.
- **Ledgers.** The ledger processor sorts payments by period, advances the property until its
  counter reaches each payment's period, and forwards the payment. The ledger reader turns the
  rows of a bank statement into payments:
  - by the party whose identifying strings occur in the description;
  - or split evenly over every party for rows marked as mutual income.

**How the model is built**

- Mutable objects of the source become classes whose methods are proved against pure
  specification functions:
  - `Loans.Loan`, `Slices.MortgageSlice`, `Properties.Property`, `Processing.LedgerProcessor`.
- The pure parts are datatypes, functions and lemmas:
  - `Schedule.Rows` gives a loan's table from its terms (`LoanSpec`);
  - `SliceSpec.AdvanceStep` and friends give a slice's transitions;
  - `PropertySpec.Round` applies a slice operation to every slice in order;
  - `LedgerSpec.ProcessLedger` gives the processor's run;
  - `LedgerReading.ParseLedger` gives the reader's output.
- The exceptions the source raises become returned errors (`Common.Error`). An operation that
  fails part-way returns the state it leaves.
- Money is exact `real`. Python's `round(x, 2)` is `Money.Round2` (round half to even on
  cents), and `f"{x:.2f}"` is `Money.FormatCents`, which keeps the sign of a value that rounds
  to zero.

**Main results proved**

- **Re-amortization.** A schedule whose payment is recomputed after each extra payment equals
  `Reconstruction.Ideal`, the schedule that pays the current balance's annuity in every period.
  Linearity of `Ideal` in the balance and the extra payments follows from this.
- **A stake's slice always passes its check.** An adjustment loan of `-d` starting after
  period `p` has the table of an extra payment `d` in period `p`, on every column table equality
  compares. Hence the adjusted loan's table always agrees with the baseline combined with the
  adjustment loans (`Reconstruction.ReconstructionAgrees`), and a slice built from a stake never
  raises the verification error (`SliceSpec.AdvancePreservesConsistent`).
- **Sideloan and combining.** The sideloan table plus the nominal loan's table is the adjusted
  loan's table. `combine_loans` does not depend on the order of the loans.
- **Ledger processing.** The processor's period counter ends at the latest payment period.
  Advances keep every slice in step.

The source divides by zero in one case. A non-zero difference in the loan's last period builds an
adjustment loan with no paying periods. The model returns `DivisionByZero` for it; see
`SliceSpec.SettleRefusals`.

## Model

| member | source | states |
|---|---|---|
| Common.NewParty | common.py:7-15 | a party keeps its name, type and exclusion amount; absent ledger strings and exclusions become empty lists |
| Common.NameOnlyPartyDefaults | common.py:7-15 | a party built from a name alone has no type, no strings, no exclusions and no exclusion amount |
| Common.NewPayment | common.py:36-43 | a payment is refused exactly when its period is negative, and otherwise keeps every field as given |
| Common.TotalAmount | mortgageslice.py:59-61 | the sum of a queue's payment amounts, added left to right; TotalAmountAppend and TotalAmountPermutation prove it splits over concatenation and ignores order |
| Common.TotalAmountAppend | mortgageslice.py:59-61 | the total of two queues appended is the sum of their totals |
| Common.TotalAmountPermutation | mortgageslice.py:59-61 | the total of a queue does not depend on the order of its payments |
| Money.Pow | loan.py:180-182 | (1 + r)^n by repeated multiplication, the power in calculate_payment; a base above 1 gives a power above 1 (PowAboveOne), so the annuity's divisor is positive |
| Money.Annuity | loan.py:175-182 | the level payment r·P / (1 − (1 + r)^−n) for a positive rate and at least one period, the cases where the source does not divide by zero; AnnuityPaysOff proves it pays the principal off in exactly n periods, Reamortization that recomputing it after one period gives the same payment |
| Money.AnnuityIsScaled | loan.py:175-182 | the annuity payment is the principal times a factor that depends only on rate and term |
| Money.AnnuityAdditive | loan.py:175-182 | the annuity of a sum of principals is the sum of their annuities |
| Money.AnnuityOfZero | loan.py:175-182 | a zero principal has a zero payment |
| Money.FactorClosedForm | loan.py:180-182 | the annuity factor f satisfies f·((1+r)^n − 1) = r·(1+r)^n, so the division in calculate_payment is well defined for r > 0 |
| Money.Reamortization | loan.py:193-203 | recomputing the payment after a period paid at the level annuity over the remaining n−1 periods gives the same payment |
| Money.FactorStep | loan.py:200-203 | the annuity factors of consecutive terms satisfy ((1+r) − f_n)·f_(n−1) = f_n |
| Money.FactorRecurrence | loan.py:200-203 | the algebraic step from the closed form of f_n and f_(n−1) to their recurrence |
| Money.AnnuityPaysOff | loan.py:193-198 | paying the annuity for n periods brings the balance to exactly zero |
| Money.AnnuityOnePeriod | loan.py:180-182 | over a single period the payment is the balance plus one period's interest |
| Money.RoundHalfEven | mortgageslice.py:81 | the rounded integer lies within one half of its argument |
| Money.Round2 | mortgageslice.py:81 | rounding to cents moves a value by at most half a cent |
| Money.Round2Idempotent | mortgageslice.py:81 | rounding an already rounded amount changes nothing |
| Money.Round2ZeroIff | mortgageslice.py:81-89 | an amount rounds to zero exactly when it lies within half a cent of zero |
| Money.FormatCents | loan.py:78-85 | a shown amount is negative exactly when the amount is, with a non-negative number of cents |
| Money.NegativeZeroShowsDifferently | loan.py:78-96 | any value from −0.005 up to but not including 0 and any value from 0 to 0.005 both show zero cents, yet the first shows as "-0.00" and the second as "0.00", so rows holding them compare unequal |
| Tables.FormatRow | loan.py:78-85 | the part of a row that table equality compares: the period and the payment, principal and interest as two-decimal text; AgreeIgnoresExtraAndBalance proves extra payment and balance are not compared |
| Tables.RowsAgree | loan.py:87-116 | AmortizationTable.__eq__: rows at equal positions up to the shorter table show the same; NoMismatchesIffAgree proves it holds exactly when the mismatch list is empty, AgreeOnlyCommonPrefix that rows past the shorter length are ignored |
| Tables.Mismatches | loan.py:91-116 | the 1-based row numbers that show differently; MismatchesEmptyIff proves it is empty exactly when every compared row agrees |
| Tables.MismatchesEmptyIff | loan.py:91-116 | the list of mismatching rows among the first n is empty exactly when all n rows show the same |
| Tables.TableEquals | loan.py:87-116 | equality against a non-table is false; otherwise it lists the 1-based mismatching rows of the common prefix and is true exactly when the tables agree row by row |
| Tables.NoMismatchesIffAgree | loan.py:91-116 | no mismatches over the shorter length is the same as the tables agreeing |
| Tables.AgreeIgnoresExtraAndBalance | loan.py:78-85 | the extra-payment and balance columns never affect table equality |
| Tables.AgreeOnlyCommonPrefix | loan.py:92 | rows past the end of the shorter table never affect table equality |
| Tables.ApproxAgree | loan.py:78-96 | tables equal on period, total, principal and interest compare equal |
| Tables.ApproxTransitive | loan.py:78-96 | exact agreement on the compared columns is transitive |
| Tables.AddTables | loan.py:258-262 | the row-by-row sum of two tables of equal length keeps that length; ApproxAddLeft/ApproxAddRight prove it respects shown equality |
| Tables.ApproxAddLeft | loan.py:258-262 | adding the same table to two tables that agree on the compared columns keeps them agreeing |
| Tables.ApproxAddRight | loan.py:258-262 | the same, on the right operand |
| Tables.ApproxReplaceRow | loan.py:78-85 | replacing a row by one equal on the compared columns keeps the table agreeing |
| Combine.Insert | loan.py:264 | one insertion step of sorting the period keys: the result is one element longer; InsertSpec proves it is the input plus x as a multiset and stays sorted |
| Combine.SortInts | loan.py:264 | sorted(combined_schedule.keys()) on the period numbers, length preserved; SortIntsSpec proves it sorted and a permutation of its input |
| Combine.InsertSpec | loan.py:264 | inserting into a sorted list keeps it sorted and adds exactly the new element |
| Combine.SortIntsSpec | loan.py:264 | the sorted periods are sorted and a permutation of the input |
| Combine.SortedUnique | loan.py:264 | two sorted permutations of the same elements are equal |
| Combine.SortStrictlyIncreasing | loan.py:264 | sorting an increasing list leaves it unchanged |
| Combine.AddEntryValid | loan.py:255-262 | adding a row keeps the accumulator's insertion order and keys in step, and adds the row's period as a key |
| Combine.AddEntrySums | loan.py:255-262 | adding a row adds its columns to its period's sums and to no other |
| Combine.AccumulateRows | loan.py:246-262 | the dictionary combine_loans builds, one row added at a time; AccumulateRowsSpec proves the keys gain exactly the rows' periods and each period's entry gains the column totals of that period's rows |
| Combine.AccumulateRowsSpec | loan.py:246-262 | folding a table into the accumulator adds its periods as keys and its column sums per period |
| Combine.AccumulateTablesValid | loan.py:245-262 | folding several tables keeps keys and order in step and adds the union of their periods |
| Combine.CombinedSums | loan.py:243-262 | the accumulated sums of every period are the column totals over all rows of all tables with that period |
| Combine.TablesSumAtPermutation | loan.py:240-262 | the per-period totals do not depend on the order of the tables |
| Combine.TablesPeriodSetPermutation | loan.py:240-262 | the set of periods does not depend on the order of the tables |
| Combine.TablesPeriodSetIsUnion | loan.py:245-256 | a period is combined exactly when some table has a row of that period |
| Combine.CombinePermutation | loan.py:240-265 | combining loans is commutative: any reordering of the tables gives the same combined table |
| Combine.CombineRows | loan.py:240-265 | combine_loans on schedules: one row per period that occurs, by increasing period, holding the column totals; CombineRowsSpec, CombineRowsOrdered and CombineRowsPeriods prove exactly that, CombinePermutation that the order of the loans does not matter |
| Combine.CombineRowsSpec | loan.py:242-265 | the combined table has one row per period of any input table, in strictly increasing order, each holding that period's column totals |
| Combine.CombineRowsOrdered | loan.py:264-265 | the combined rows come out in strictly increasing period order |
| Combine.CombineRowsPeriods | loan.py:243-265 | the combined rows cover exactly the periods of the input tables |
| Combine.CombineNumbered | loan.py:242-265 | tables all numbered 1..n combine into n rows numbered 1..n holding the column totals |
| Combine.CombineSingle | loan.py:242-265 | combining one table numbered 1..n gives it back |
| Combine.CombineSnoc | loan.py:242-265 | combining one more table numbered 1..n adds it row by row |
| Combine.SubtractRows | loan.py:267-302 | subtract_loans: rows zipped to the shorter table, the difference stored under the first table's period; SubtractNumbered proves the row-by-row difference on numbered tables, SubtractThenCombine that adding back the subtrahend restores the minuend |
| Combine.SubtractNumbered | loan.py:269-302 | subtracting is the row-by-row difference over the shorter length, keeping the first table's periods |
| Combine.SubtractThenCombine | loan.py:242-302 | combining a table with its difference from another gives that other table back |
| Combine.AddDifference | loan.py:269-302 | adding the row-wise difference of a and b to b gives a |
| Schedule.AddExtra | loan.py:207-210 | recording an extra payment adds its amount to its period and leaves every other period alone |
| Schedule.ZeroRows | loan.py:190-191 | the rows before the first paying period are zero rows numbered in order |
| Schedule.PayRow | loan.py:193-203 | one paying row: interest on the balance at the monthly rate, the rest of the payment as principal, and the balance less principal and extra payment; TailRow proves the generated rows are built by it |
| Schedule.NextPayment | loan.py:200-203 | the payment recomputed over the periods left after a row with a non-zero extra payment, otherwise kept; LevelPaymentConstant proves a loan without extra payments pays the same annuity in every row |
| Schedule.Tail | loan.py:193-203 | the paying rows from period i to the last, one per period left; TailNumbered proves they are numbered i..n and TailIsIdeal that they equal the recompute-every-period schedule |
| Schedule.Rows | loan.py:184-205 | a schedule has one row per period of the loan |
| Schedule.TailNumbered | loan.py:193-198 | the paying rows are numbered from the first paying period to the last |
| Schedule.RowsNumbered | loan.py:184-205 | a schedule's rows are numbered 1..N |
| Schedule.TailRow | loan.py:193-203 | each paying row takes the previous balance and its own payment, and the payment is recomputed from the previous row |
| Schedule.RowRecurrence | loan.py:184-205 | row k is the interest, principal, extra and balance step from row k−1; the first paying row pays the annuity of the principal, and later rows pay the previous row's next payment |
| Schedule.LevelPaymentConstant | loan.py:193-203 | without extra payments the payment stays the level annuity in every paying period |
| Schedule.RowsBeforeStartAreZero | loan.py:190-191 | every row before the start period is a zero row |
| Loans.FirstRowOf | loan.py:164-171 | the lookup finds the first row of the period, or reports that none exists |
| Loans.FirstRowOfIsFirst | loan.py:164-171 | a row of the period with no earlier such row is the one found |
| Loans.PaymentFor | loan.py:148-173 | get_payment_for_period on a table: period 0 gives the down-payment details, a period past the rows is out of range, otherwise the first row of that period; PaymentForNumbered proves each case on a numbered schedule |
| Loans.PaymentForNumbered | loan.py:148-173 | period 0 gives zero payment and the total value as balance; 1..N gives that row's payment details; a later period is out of range; a negative one has no payment |
| Loans.ScheduleStep | loan.py:193-203 | one iteration of the schedule loop extends the rows built so far toward the specified table |
| Loans.Loan.constructor | loan.py:120-135 | a new loan has the given terms, start period and extra payments, and a schedule equal to its specification's table |
| Loans.Loan.PeriodZeroSetup | loan.py:137-139 | the down payment is the period-0 extra payment, and the principal is the total value minus it |
| Loans.Loan.CalculatePayment | loan.py:175-182 | the payment computed for a balance and a term pays that balance off exactly over that term |
| Loans.Loan.GenerateAmortizationSchedule | loan.py:184-205 | the loop builds exactly the specified table of the loan's terms |
| Loans.Loan.AddExtraPayment | loan.py:207-212 | the loan becomes the same loan with the payment added to its period's extra payments, with schedule regenerated |
| Loans.Loan.GetPaymentForPeriod | loan.py:148-173 | returns the payment details of the requested period or the source's two errors |
| Loans.Loan.DeepCopy | loan.py:226-238 | the copy is a new object with the same terms, extra payments and schedule |
| Loans.Schedules | loan.py:246 | the tables of a list of loans, in order |
| Loans.RowsBeforeStart | loan.py:190-191 | the loop emits the zero rows of the periods before the start |
| Loans.CombineLoans | loan.py:242-265 | the combined table is the period-wise sum of the loans' tables |
| Loans.SumRowsInto | loan.py:246-262 | the inner loop folds a table's rows into the per-period sums |
| Loans.SubtractLoans | loan.py:269-302 | the difference table is the row-wise difference of the two schedules over the shorter length |
| Reconstruction.Ideal | loan.py:193-203 | the schedule that recomputes the level payment every period, one row per period left; TailIsIdeal proves the generated schedule equals it, IdealLinear that it is linear in the balance and extras |
| Reconstruction.TailIsIdeal | loan.py:193-203 | paying the current balance's annuity and re-amortizing after each extra payment is the ideal schedule |
| Reconstruction.RowsIdeal | loan.py:184-205 | a schedule is its zero rows followed by the ideal schedule of its principal |
| Reconstruction.IdealLinear | loan.py:193-203 | the ideal schedule of a sum of balances and extra payments is the sum of the ideal schedules |
| Reconstruction.IdealReadsLaterExtras | loan.py:193-203 | the schedule from period i on depends only on extra payments from period i on |
| Reconstruction.IdealZeroPrefix | loan.py:190-198 | a zero balance with a single extra payment d in period p gives zero rows, one row of balance −d, then the ideal schedule of −d |
| Reconstruction.AdjustmentLoan | mortgageslice.py:112-121 | the loan add_adjustment builds for an extra payment d in period p: value −d, paying from p + 1, no extras; AdjustmentLoanIsExtraPayment proves its schedule shows the same as that of a zero-value loan with extra payment d in period p |
| Reconstruction.AdjustmentLoanOf | mortgageslice.py:112-121 | every adjustment loan is the loan of −d starting after period p on the baseline's terms |
| Reconstruction.AdjustmentLoanIsExtraPayment | mortgageslice.py:112-131 | an adjustment loan has the table of the matching extra payment on every compared column |
| Reconstruction.AdjustmentOfDownPayment | mortgageslice.py:112-121 | for the down payment the two tables are identical |
| Reconstruction.AdjustmentAfterStart | mortgageslice.py:112-121 | for a later period the two tables agree on every compared column |
| Reconstruction.AdjustmentStep | mortgageslice.py:124-131 | adding the extra payment to a loan agrees with adding the adjustment loan's table to its table |
| Reconstruction.AdjustmentStepAtStart | mortgageslice.py:124-131 | the same, for a period-0 adjustment |
| Reconstruction.AdjustmentStepLater | mortgageslice.py:124-131 | the same, for an adjustment after period 0 |
| Reconstruction.ExtraPaymentAdds | loan.py:207-212 | adding an extra payment adds the table of a zero loan with only that extra payment |
| Reconstruction.Accumulated | mortgageslice.py:124-131 | the adjusted loan's extra payments after recording every adjustment loan in turn; AccumulatedSnoc proves one more adjustment adds its payment |
| Reconstruction.AccumulatedToPrefix | mortgageslice.py:129-130 | the first n recorded adjustments are unaffected by a later one |
| Reconstruction.AccumulatedSnoc | mortgageslice.py:129-130 | recording one more adjustment loan adds its payment to the adjusted loan's extra payments |
| Reconstruction.RowsOf | mortgageslice.py:145-147 | the schedules of the adjustment loans, one per loan; RowsOfNumbered proves each is numbered 1..n |
| Reconstruction.RowsOfNumbered | mortgageslice.py:145-147 | the tables of adjustment loans of N periods are numbered 1..N |
| Reconstruction.AdjustedMatchesReconstruction | mortgageslice.py:142-157 | the adjusted loan's table agrees exactly with the baseline combined with all adjustment loans |
| Reconstruction.ReconstructionStep | mortgageslice.py:124-131 | recording one more adjustment keeps that agreement |
| Reconstruction.LastAdjustment | mortgageslice.py:124-131 | recording one adjustment adds its loan's table to the adjusted loan's table, on the compared columns |
| Reconstruction.ReconstructionAgrees | mortgageslice.py:142-157 | verify_adjustments' table equality always holds for a baseline paying from period 1 |
| Reconstruction.IdealPaysOff | loan.py:193-203 | the ideal schedule ends with a balance of minus the last period's extra payment |
| Reconstruction.LoanPaysOff | loan.py:184-205 | every loan's last balance is minus its last extra payment, so zero without one |
| SliceSpec.Shaped | mortgageslice.py:20-43 | the invariant every slice keeps: the adjusted loan is the baseline with each adjustment loan's payment recorded as an extra, and each adjustment loan is on the baseline's terms; InitialConsistent, AdvancePreservesConsistent and RecordKeepsShape prove it is established and kept |
| SliceSpec.Consistent | mortgageslice.py:20-43 | a shaped slice whose baseline pays from period 1, as a stake's slice does; ConsistentIsVerified proves it always passes verify_adjustments |
| SliceSpec.InitialConsistent | mortgageslice.py:20-43 | a new slice is shaped, has an empty queue, and is consistent when its baseline pays from period 1 |
| SliceSpec.AcceptStep | mortgageslice.py:45-53 | accept_payment on the slice's value: a payment of another period is refused, otherwise queued; AcceptOutcome proves the error happens exactly for another period, changes nothing, and success only adds the payment |
| SliceSpec.AcceptOutcome | mortgageslice.py:45-53 | a payment is queued exactly when it is for the current period; otherwise the slice is unchanged and the error is a period mismatch |
| SliceSpec.After | mortgageslice.py:100-102 | the kept payments are exactly those of later periods |
| SliceSpec.AfterCurrentIsEmpty | mortgageslice.py:100-102 | a queue of current-period payments is emptied |
| SliceSpec.Verified | mortgageslice.py:142-157 | verify_adjustments' test: the adjusted schedule agrees with the baseline's combined with every adjustment loan's; ConsistentIsVerified proves a consistent slice always passes it |
| SliceSpec.ConsistentIsVerified | mortgageslice.py:142-157 | a consistent slice passes its verification |
| SliceSpec.RecordStep | mortgageslice.py:112-131 | add_adjustment: record the payment on the adjusted loan and as an adjustment loan, refusing the last period (its loan divides by zero); the result stays shaped, and RecordedState/RecordVerified prove the new state and that it verifies |
| SliceSpec.RecordedState | mortgageslice.py:112-131 | recording a payment adds it to the adjusted loan and its adjustment loan to the list, and succeeds exactly when the result verifies |
| SliceSpec.RecordKeepsShape | mortgageslice.py:124-131 | recording an adjustment keeps the slice's shape |
| SliceSpec.ExpectedPayment | mortgageslice.py:78-80 | past the last period the lookup is out of range; otherwise it gives the adjusted loan's payment due |
| SliceSpec.DifferenceOfParts | mortgageslice.py:59-81 | advancing sums the queue, rounds the difference from the payment due, and settles with it, or fails with the lookup's error |
| SliceSpec.Settle | mortgageslice.py:81-103 | the second half of advance_period: a negative down payment is refused, a non-zero difference recorded, then the period advanced; the result stays shaped, and SettleRefusals/SettleZero/SettleNonzero prove when each error happens, that a zero difference only advances, and what a non-zero one records |
| SliceSpec.SettleRefusals | mortgageslice.py:86-97 | settling never reports out of range; it refuses a negative down payment exactly in period 0 with a negative difference; it divides by zero exactly in the last period with a non-zero difference; these refusals leave the slice unchanged |
| SliceSpec.SettleVerified | mortgageslice.py:89-97 | a consistent slice never fails verification when settling |
| SliceSpec.RecordVerified | mortgageslice.py:124-131 | recording on a consistent slice succeeds and keeps it consistent |
| SliceSpec.AdvanceStep | mortgageslice.py:55-103 | advance_period: out of range past the last period, otherwise settle the difference; the result stays shaped, and AdvanceErrors/AdvanceSuccess prove which error happens when and that success moves one period on, keeping only later payments queued |
| SliceSpec.AdvanceErrors | mortgageslice.py:55-103 | each error of advance_period, both directions: out of range past the last period, a negative down payment in period 0, division by zero in the last period; all but a failed verification leave the slice unchanged; a consistent slice never fails verification |
| SliceSpec.DifferenceZeroIff | mortgageslice.py:81-89 | the difference is zero exactly when the queued total is within half a cent of the payment due |
| SliceSpec.SettleZero | mortgageslice.py:89-103 | a zero difference only drops the settled payments and moves to the next period |
| SliceSpec.SettleNonzero | mortgageslice.py:89-97 | a non-zero difference becomes an extra payment and an adjustment loan of −d starting next period, and succeeds exactly when the result verifies |
| SliceSpec.SettleSuccess | mortgageslice.py:99-103 | on success the period moves on by one, only later payments stay queued, and the parties and loans are kept |
| SliceSpec.AdvanceSuccess | mortgageslice.py:99-103 | the same for advance_period; a queue of current payments is emptied |
| SliceSpec.AdvancePreservesConsistent | mortgageslice.py:55-103 | advancing keeps a slice consistent and never fails its verification |
| SliceSpec.AdvanceIgnoresQueueOrder | mortgageslice.py:59-61 | the outcome of advancing does not depend on the order of the queued payments |
| SliceSpec.SettleIgnoresQueue | mortgageslice.py:89-103 | settling does not look at the queue |
| SliceSpec.RecordIgnoresQueue | mortgageslice.py:124-131 | recording an adjustment does not look at the queue |
| SliceSpec.SliceTable | mortgageslice.py:159-170 | get_amortization_schedule: verification first, then the full, baseline or sideloan table; SliceTableOfConsistent proves a consistent slice always yields it, TableMeansVerified that a table is only returned after verification |
| SliceSpec.AdjustmentTable | mortgageslice.py:133-135 | get_adjustment_table: the adjustment loans' schedules combined, without verification; its properties are those of CombineRows |
| SliceSpec.SliceTableOfConsistent | mortgageslice.py:159-170 | a consistent slice always yields its table, with one row per period for the full and baseline tables |
| SliceSpec.SideloanIsDifference | mortgageslice.py:137-140 | the sideloan table is the row-wise difference of adjusted and nominal loans, and combined with the nominal loan gives the adjusted loan back |
| SliceSpec.DifferenceOfNumbered | loan.py:269-302 | for tables numbered 1..n, subtracting is the row-wise difference and undoes combining |
| SliceSpec.TableMeansVerified | mortgageslice.py:159-170 | a table is returned exactly when the slice verifies; otherwise the error is the verification failure |
| Slices.SumAmounts | mortgageslice.py:59-61 | the loop's total is the sum of the queued amounts |
| Slices.CarrySnoc | mortgageslice.py:130 | appending an adjustment loan object keeps the objects in step with their terms |
| Slices.SchedulesOfValid | mortgageslice.py:145-147 | the adjustment loan objects' schedules are the tables of their terms |
| Slices.RowsOfCons | mortgageslice.py:145-147 | the tables of the baseline followed by the adjustment loans, in order |
| Slices.VerificationRows | mortgageslice.py:145-147 | the list verify_adjustments combines is the baseline's table followed by the adjustment loans' tables |
| Slices.MortgageSlice.constructor | mortgageslice.py:20-43 | a new slice holds the two loans, a fresh copy of the baseline as adjusted loan, period 0 and empty lists |
| Slices.MortgageSlice.AcceptPayment | mortgageslice.py:45-53 | the slice changes as AcceptStep says, and reports its error |
| Slices.MortgageSlice.AdvancePeriod | mortgageslice.py:55-103 | the slice changes as AdvanceStep says, and reports its error |
| Slices.MortgageSlice.Settle | mortgageslice.py:81-103 | the slice changes as SliceSpec.Settle says for the difference |
| Slices.MortgageSlice.NextPeriod | mortgageslice.py:99-103 | drops settled payments and moves to the next period |
| Slices.MortgageSlice.AddAdjustmentPayment | mortgageslice.py:112-122 | builds the adjustment loan and records it as RecordStep says |
| Slices.MortgageSlice.AddAdjustment | mortgageslice.py:124-131 | records the loan and the payment, then verifies, as RecordStep says |
| Slices.MortgageSlice.Record | mortgageslice.py:129-130 | adds the extra payment to the adjusted loan and appends the loan |
| Slices.MortgageSlice.AppendVerification | mortgageslice.py:130 | appends the adjustment loan to the verification list |
| Slices.MortgageSlice.VerifyAdjustments | mortgageslice.py:142-157 | fails exactly when the adjusted table differs from the reconstruction, and never for a consistent slice |
| Slices.MortgageSlice.GetAdjustmentTable | mortgageslice.py:133-135 | the sum of the adjustment loans' tables |
| Slices.MortgageSlice.GetSideloanTable | mortgageslice.py:137-140 | verifies, then returns the difference of adjusted and nominal loans |
| Slices.MortgageSlice.GetAmortizationSchedule | mortgageslice.py:159-170 | verifies, then returns the full, sideloan or baseline table |
| Stakes.StakeSlice | stake.py:22-30 | a stake's slice is consistent, in period 0, with an empty queue, no adjustments and the baseline as adjusted loan |
| Stakes.StakeSideloan | stake.py:22-30 | a new stake's sideloan is the plain loan of its value minus its debt |
| Stakes.PlainLoanSplits | stake.py:22-23 | the schedule of the plain loan of a value is, row by row, the schedule of the plain loan of the value less a part plus that of the part |
| Stakes.SideloanOfSum | mortgageslice.py:137-140 | when the adjusted table is a side table plus the nominal table, the sideloan is that side table |
| Stakes.SubtractOfSum | loan.py:269-302 | subtracting b from side + b gives side |
| Stakes.PlainLoan | stake.py:22-23 | the Loan(mortgage_info, value) a stake builds: the mortgage's terms, paying from period 1, no extras; PlainLoansAdd proves the schedules of two plain loans add to that of their sum |
| Stakes.PlainLoansAdd | stake.py:22-23 | the table of a loan on a + b is the sum of the tables of loans on a and on b |
| Stakes.NewStake | stake.py:10-30 | a stake keeps its value, debt and parties, and its slice starts as StakeSlice |
| PropertySpec.StakeholdersByName | property.py:37-39 | the map holds exactly the names of parties not of the common type, each mapped to such a party of that name |
| PropertySpec.StakeholderNames | property.py:37-39 | the same, stated over membership in the party list |
| PropertySpec.NameOrder | property.py:37-39 | the order in which the stakeholders' dictionary lists names, each at its first occurrence; NameOrderSpec proves it lists every stakeholder name exactly once |
| PropertySpec.NameOrderSpec | property.py:37-39 | the iteration order names each stakeholder exactly once |
| PropertySpec.PartiesByName | property.py:42-45 | each stakeholder is paired with the common fund |
| PropertySpec.NewSlice | property.py:52-72 | a stakeholder's slice is consistent, on its share's loans, in period 0, and queues exactly its down payment if it has one |
| PropertySpec.NewSliceQueues | property.py:66-72 | that slice is the stake's slice, with the down payment accepted when there is one |
| PropertySpec.StakeSlices | property.py:52-64 | one stake slice per stakeholder name |
| PropertySpec.InitialSlices | property.py:52-72 | every stakeholder's initial slice, down payments queued |
| PropertySpec.InitialSlicesAre | property.py:66-72 | slices built one name at a time are the initial slices |
| PropertySpec.InitialProperty | property.py:31-72 | each share is the purchase cost and the debt divided by the number of stakeholders; every slice fits its stakeholder and queues its down payment |
| PropertySpec.InitialPropertyParts | property.py:31-72 | with at least one stakeholder, the property is built from its parts |
| PropertySpec.InitialPropertyError | property.py:47-48 | building fails, by division by zero, exactly when no party is a stakeholder |
| PropertySpec.InitialPropertyShaped | property.py:31-72 | a new property is shaped, every slice is in period 0, and the fund is the common fund |
| PropertySpec.InitialPropertyOf | property.py:31-72 | the property assembled from its parts is the initial property and is shaped |
| PropertySpec.PropertyAccept | property.py:74-82 | accept_payment on the property: an unknown name or a negative period is refused, otherwise the named slice accepts; PropertyAcceptErrors/PropertyAcceptSuccess prove each error happens exactly when stated and success changes only that slice |
| PropertySpec.PropertyAcceptErrors | property.py:74-82 | the three errors, each in both directions: unknown stakeholder, negative period, period mismatch; any error leaves the property unchanged |
| PropertySpec.PropertyAcceptSuccess | property.py:74-82 | on success only the named slice changes, by queueing the payment to the common fund |
| PropertySpec.AcceptKeepsShape | property.py:82 | accepting a payment on one slice keeps the property's shape |
| PropertySpec.PropertyAcceptShaped | property.py:74-82 | accepting a payment keeps the property's shape, whatever the outcome |
| PropertySpec.Round | property.py:87-88 | applying an operation to the slices in order keeps the set of names |
| PropertySpec.AdvanceReapplicable | property.py:87-88 | advance can be applied again to every slice it leaves |
| PropertySpec.RoundUntouched | property.py:87-88 | slices not yet reached are untouched |
| PropertySpec.RoundOnce | property.py:87-88 | each slice is either untouched or has had the operation applied once |
| PropertySpec.RoundError | property.py:87-88 | an error of the round is the error of one of the slices |
| PropertySpec.RoundOutcome | property.py:87-88 | the round succeeds exactly when every slice's operation does, and then every slice has been stepped |
| PropertySpec.AdvanceKeepsSlice | mortgageslice.py:55-103 | advancing a consistent slice keeps it consistent with the same parties and baseline, and never fails verification |
| PropertySpec.AdvanceKeepsShape | property.py:87-88 | advancing one slice keeps the property's shape |
| PropertySpec.PropertyAdvance | property.py:84-88 | advance_period on the property: every slice advanced once in name order; PropertyAdvanceShaped/PropertyAdvanceFails/PropertyAdvanceEach prove the shape is kept, that it succeeds exactly when every slice's advance does, and that success leaves each slice as its own advance does |
| PropertySpec.PropertyAdvanceShaped | property.py:84-88 | advancing keeps the property's shape and never fails verification |
| PropertySpec.AdvanceErrorKinds | mortgageslice.py:55-103 | a consistent slice's advance raises only out-of-range, negative down payment or division by zero |
| PropertySpec.PropertyAdvanceErrorKinds | property.py:84-88 | the property's advance raises only those errors |
| PropertySpec.PropertyAdvanceFails | property.py:84-88 | the property's advance succeeds exactly when every slice's advance does |
| PropertySpec.PropertyAdvanceEach | property.py:84-88 | on success every slice is advanced once |
| PropertySpec.PropertyAdvancePeriod | property.py:84-88 | when all slices were at period p with current payments, they are all at p + 1 with empty queues |
| PropertySpec.SliceTables | property.py:90-95 | one table result per slice name |
| PropertySpec.Collect | property.py:90-95 | the per-name tables gathered into one dictionary, any failure failing the whole; CollectAllOk and CollectFails prove both directions |
| PropertySpec.PropertyTables | property.py:90-95 | get_amortization_schedule on the property: every slice's table by name; PropertyTablesOfShaped proves it succeeds on a shaped property, with each name holding its slice's table |
| PropertySpec.CollectAllOk | property.py:90-95 | when every slice yields its table, the property yields all of them |
| PropertySpec.CollectFails | property.py:90-95 | one slice failing verification fails the whole request |
| PropertySpec.PropertyTablesOfShaped | property.py:90-95 | a shaped property always yields one table per stakeholder, each its slice's table |
| Properties.Property.New | property.py:31-72 | construction fails exactly as InitialProperty does, otherwise gives a fresh property in the initial state |
| Properties.Property.constructor | property.py:31-72 | the new property is in the initial state |
| Properties.Property.QueueDownPayments | property.py:66-72 | the loop leaves every stakeholder with its initial slice |
| Properties.Property.QueueEach | property.py:66-72 | every name ends with its new slice and no name is added |
| Properties.Property.AcceptPayment | property.py:74-82 | the property changes as PropertyAccept says, and reports its error |
| Properties.Property.AdvancePeriod | property.py:84-88 | the property changes as PropertyAdvance says, and reports its error |
| Properties.Property.ApplyInOrder | property.py:87-88 | the loop over slices is Round from the first name |
| Properties.Property.GetAmortizationSchedule | property.py:90-95 | the tables of every slice, or the verification error |
| LedgerSpec.InsertByPeriod | ledger_processor.py:41 | one step of the stable sort by period, one element longer; InsertMultiset/InsertSorted prove it adds x and keeps the list sorted |
| LedgerSpec.SortByPeriod | ledger_processor.py:41 | sorted(payments, key=period), length kept; SortByPeriodSpec proves it sorted, a permutation, and stable within each period |
| LedgerSpec.InsertMultiset | ledger_processor.py:41 | inserting adds exactly the payment |
| LedgerSpec.InsertSorted | ledger_processor.py:41 | inserting into a list sorted by period keeps it sorted |
| LedgerSpec.InsertWithPeriod | ledger_processor.py:41 | inserting keeps the order among payments of the same period |
| LedgerSpec.SortByPeriodSpec | ledger_processor.py:41 | the sort is sorted by period, a permutation, and stable |
| LedgerSpec.MaxPeriod | ledger_processor.py:43-51 | the latest period of the payments, 0 for none |
| LedgerSpec.MaxPeriodCons | ledger_processor.py:43-51 | the latest period of a payment and a list is the later of the two |
| LedgerSpec.CatchUp | ledger_processor.py:49-51 | catching up keeps the property shaped |
| LedgerSpec.ProcessOne | ledger_processor.py:20-32 | forwarding a payment keeps the property shaped |
| LedgerSpec.ProcessFrom | ledger_processor.py:45-55 | processing a list keeps the property shaped |
| LedgerSpec.CatchUpCounter | ledger_processor.py:49-51 | the counter never decreases, and a successful catch-up ends at the later of counter and target |
| LedgerSpec.ProcessFromCounter | ledger_processor.py:43-55 | the counter never decreases, and a successful run ends at the later of the start and the latest payment period |
| LedgerSpec.ProcessLedger | ledger_processor.py:34-55 | process_payments: sort by period, then for each payment catch up to its period and process it, stopping at the first error; ProcessLedgerCounter proves a run that succeeds ends at the latest payment's period, ProcessLedgerOnNew that only advance errors occur and every slice ends at that period |
| LedgerSpec.ProcessLedgerCounter | ledger_processor.py:34-55 | a successful run over a ledger ends with the counter at its latest payment period |
| LedgerSpec.ProcessOneDrops | ledger_processor.py:20-32 | a payment from an unknown sender is dropped without error; forwarding never reports an unknown stakeholder or negative period |
| LedgerSpec.ProcessOneAtPeriod | ledger_processor.py:20-32 | a payment of the property's current period is always accepted, keeping every slice at that period |
| LedgerSpec.CatchUpAtPeriod | ledger_processor.py:49-51 | a successful catch-up leaves every slice at the counter's period |
| LedgerSpec.ProcessFromAtPeriod | ledger_processor.py:43-55 | processing sorted, not-yet-due payments raises only advance errors and leaves every slice at the counter |
| LedgerSpec.AdvanceErrorsOnly | ledger_processor.py:49-51 | catching up raises only advance errors |
| LedgerSpec.ProcessLedgerOnNew | ledger_processor.py:34-55 | on a new property processing a ledger raises only advance errors and leaves every slice at the latest payment period |
| Processing.LedgerProcessor.constructor | ledger_processor.py:12-18 | the processor holds the given property |
| Processing.LedgerProcessor.ProcessPayment | ledger_processor.py:20-32 | the property changes as ProcessOne says |
| Processing.LedgerProcessor.ProcessPayments | ledger_processor.py:34-55 | the property changes as ProcessLedger says, and the error is reported |
| Processing.LedgerProcessor.CatchUpTo | ledger_processor.py:49-51 | the inner while loop is CatchUp |
| Processing.LedgerProcessor.AdvancePeriod | ledger_processor.py:57-65 | the property changes as PropertyAdvance says |
| Processing.LedgerProcessor.GetTables | ledger_processor.py:67-69 | the property's tables, full by default |
| LedgerReading.MonthsBetween | ledger_reader.py:7-9 | months_between: whole calendar months between two dates, days ignored; MonthsBetweenSpec proves its sign and that it adds up along a chain of dates |
| LedgerReading.MonthsBetweenSpec | ledger_reader.py:7-9 | the month count is negative exactly for an earlier month, zero exactly for the same month, antisymmetric and additive |
| LedgerReading.Lower | ledger_reader.py:58 | lower-casing keeps the length and lowers each character |
| LedgerReading.LowerIdempotent | ledger_reader.py:58 | lower-casing twice is lower-casing once |
| LedgerReading.Contains | ledger_reader.py:58 | Python's substring test `in`; ContainsAt proves it holds exactly when the needle sits at some position |
| LedgerReading.ContainsAt | ledger_reader.py:58 | the substring test holds exactly when the needle occurs at some position |
| LedgerReading.ContainsSomewhere | ledger_reader.py:58 | a found needle occurs at some position |
| LedgerReading.FoundContained | ledger_reader.py:58 | a needle occurring at a position is found |
| LedgerReading.Occurs | ledger_reader.py:80-84 | a marker occurs in a description with case ignored; OccursIgnoresCase proves the case of either string does not matter |
| LedgerReading.OccursIgnoresCase | ledger_reader.py:80-84 | matching a marker ignores the case of marker and description |
| LedgerReading.FindAny | ledger_reader.py:57-59 | the loop finds whether any marker occurs |
| LedgerReading.IsCandidate | ledger_reader.py:77-90 | identify_sender's test of one party: a ledger string occurs, no exclusion does, and the amount is not below a non-zero exclusion amount; CandidatesMembers proves the candidates are exactly the parties passing it |
| LedgerReading.Candidates | ledger_reader.py:74-95 | the parties that pass the sender test, in party order; CandidatesMembers and CandidatesTwo prove membership and when there are two or more |
| LedgerReading.CandidatesMembers | ledger_reader.py:77-90 | the candidates are exactly the parties that match, are not excluded, and pass the amount threshold |
| LedgerReading.CandidatesTwo | ledger_reader.py:92-95 | there are several candidates exactly when two distinct positions match |
| LedgerReading.TwoFromCount | ledger_reader.py:92-95 | two candidates come from two positions |
| LedgerReading.CountFromTwo | ledger_reader.py:92-95 | two matching positions give two candidates |
| LedgerReading.Sender | ledger_reader.py:74-100 | identify_sender: an error for several candidates, else the one candidate or none; SenderSpec proves each outcome exactly when stated |
| LedgerReading.SenderSpec | ledger_reader.py:74-100 | several matches is an error, none gives no sender, otherwise the sender is a matching party |
| LedgerReading.IdentifySender | ledger_reader.py:74-100 | the loop returns Sender's result |
| LedgerReading.CommonAccountBuilt | ledger_reader.py:14 | the common account is a party named "Common Account" of the common type |
| LedgerReading.StripCommas | ledger_reader.py:41 | amount_str.replace(',', ''); StripCommasSpec proves no comma is left, every other character kept in order, and a second strip changes nothing |
| LedgerReading.StripCommasSpec | ledger_reader.py:41 | the result has no commas, keeps a comma-free string, and stripping twice is stripping once |
| LedgerReading.StripCommasKeeps | ledger_reader.py:41 | every other character is kept as often as it occurs |
| LedgerReading.StripCommasAppend | ledger_reader.py:41 | stripping distributes over concatenation |
| LedgerReading.MutualPayments | ledger_reader.py:65-69 | a mutual income split into equal shares, one per party, to the common account; MutualPaymentsSpec proves one share per party, to the common account, in the row's period, adding up to the amount |
| LedgerReading.MutualPaymentsSpec | ledger_reader.py:65-69 | a mutual income gives one payment per party, in order, to the common account, adding up to the income |
| LedgerReading.SharesTotal | ledger_reader.py:66-68 | k equal shares add up to k times the share |
| LedgerReading.LinePayments | ledger_reader.py:47-69 | one parsed row: the sender's payment, or the mutual shares, and an error for a row that is both; LinePaymentsSpec proves each outcome exactly when stated |
| LedgerReading.LinePaymentsSpec | ledger_reader.py:47-69 | a row gives: the sender's payment; an error for a negative period; an error for mutual income from a sender; the mutual shares; or nothing |
| LedgerReading.RowPayments | ledger_reader.py:30-69 | one CSV row: fewer than four fields or an unparsable date or amount is skipped, more than four is an error; RowTooManyFields and RowPaymentsFromLedger prove the error and that every payment is a ledger payment |
| LedgerReading.RowPaymentsFromLedger | ledger_reader.py:30-69 | every payment of a row goes to the common account from a known party, dated with the row and in the row's period |
| LedgerReading.RowTooManyFields | ledger_reader.py:30-34 | a row fails on unpacking exactly when it has more than four fields |
| LedgerReading.LineNeverTooMany | ledger_reader.py:47-69 | a parsed row never reports too many fields |
| LedgerReading.ParseLedger | ledger_reader.py:19-72 | parse_ledger: every row's payments in row order, the first error failing the statement; ParseLedgerFromLedger proves every payment it returns is a ledger payment, ParseLedgerStops that an error in a prefix is the statement's error |
| LedgerReading.ParseLedgerFromLedger | ledger_reader.py:19-72 | every payment read goes to the common account from a known party, with a date |
| LedgerReading.ParseRow | ledger_reader.py:27-69 | the row's loop body gives RowPayments' result |
| LedgerReading.ParseRows | ledger_reader.py:19-72 | the loop over rows gives ParseLedger's result |
| LedgerReading.ParseLedgerStops | ledger_reader.py:19-72 | the first failing row fails the whole statement, whatever follows |

## Left out

- Only flexible slices are modelled. The fixed branch of advance_period and get_amortization_schedule is absent; stakes always build flexible slices, and the fixed branch of get_amortization_schedule raises.
- `add_adjustment_loan` (mortgageslice.py:105-110) is absent: nothing in the core calls it.
- `Property.total_stake_allocated` is absent. It reads attributes that stakes do not have and would raise if called.
- `Properties.Property` holds its slices as `SliceSpec.SliceState` values in a map, not as `MortgageSlice` objects. Aliasing between a stake, its slice and the property's map of slices is not represented, and `Stake` records and the `stakes` dictionary are not kept.
- The iteration order of `set(params.stakeholders)` is unspecified in Python. It is modelled as the order of the party list, with the later of two parties of the same name kept. Dictionary order is kept in an explicit `order` list.
- Parties are compared as values. Python compares them by object identity.
- The common fund is built with "Common Party" in the position of the ledger strings (property.py:41). It is modelled as a one-element list, where Python iterates a string character by character. No modelled operation reads those strings.
- Floating point is not modelled. Money is exact: Round2 is round half to even on exact values, and float representation error is absent.
- Loans.Loan.constructor requires a positive annual rate and a start period between 1 and the number of periods. With a zero rate, or a start period one past the last period, the source divides by zero. The only case reachable from the modelled core, the last-period adjustment, is modelled as the `DivisionByZero` error. Stakes.NewStake, Properties.Property.New and Properties.Property.constructor carry the same precondition on the loan terms, because they build loans from them.
- Combine.SubtractNumbered: stated for a first table numbered 1..n, as every loan schedule is. For other tables, rows with a repeated period would overwrite each other in the source's dictionary.
- File reading, CSV splitting, `strptime` date parsing and `float` parsing are not modelled. Rows arrive as lists of fields, and the two parsers are parameters that may fail.
- Lower-casing is ASCII only. Python's `str.lower` also lowers other letters.
- Printing, `__repr__`, `print_summary` and the table formatting used for display are left out.
- `Slices.MortgageSlice.GetAdjustmentTable` returns the sum of the adjustment loans' tables without verifying, as the source does.
- flex_stake.py and the example driver scripts are outside the modelled core.
