# Blockchain address risk scorer, modelled in Dafny

The system gives a wallet address a heuristic risk score from three inputs: the address, the
total amount it moved and its number of transactions. Four independent checks each add a
fixed weight and one reason:

- the address, lower-cased, is on a denylist (also lower-cased): +50, "Known risky address";
- the amount is above 5000: +20, "High transaction amount";
- there are more than 100 transactions: +15, "Many transactions";
- there is at least one transaction and the average amount is below 100: +10,
  "Small average transactions".

The score is then capped at 100. The level is "High" from 70, "Medium" from 30 and "Low"
below. A desktop session keeps a log of these results. "Add Address" validates its input and
appends one result. "Clear All" empties the log. "Save Report" writes the log as numbered
text entries.

The project has four modules:

- `Text` (`text.dfy`): ASCII versions of the Python string operations the scorer relies on.
  These are `str.lower()`, `str.strip()`, the decimal text of an integer and `c * n`.
- `Scorer` (`scorer.dfy`): `calculate_risk_score`. `Assess` is the reference definition, as a
  value. `CalculateRiskScore` is the source's step-by-step accumulation, proved equal to it.
  `IsListed` is the denylist scan. The lemmas state bounds, level thresholds, case
  insensitivity, which reasons appear and in what order, and the divide-by-zero guard.
- `Report` (`report.dfy`): the lines `save_report` writes, as pure functions of the log,
  with lemmas on where each entry sits and what it contains.
- `Session` (`session.dfy`): the class `RiskScorerSession`. Its field `results` is the log.
  `AddAddress`, `ClearAll` and `SaveReport` update it or read it. `SaveReport` rebuilds the
  report in loops and is proved equal to `Report.Document`.

Modelling choices:

- The denylist is a parameter (`seq<string>`), given to the session's constructor. The
  source's hard-coded list is `Scorer.HIGH_RISK_ADDRESSES`; the three worked examples score
  against it.
- The amount is a `real` and the transaction count an `int`. The source's average test
  `amount / transactions < 100` is kept as real division behind the `transactions > 0`
  guard. Dafny's own well-definedness check on `/` therefore also proves that no division by
  zero happens. `Scorer.SmallAverageByMultiplication` shows that the test equals
  `amount < 100 * transactions`.
- The level is a datatype, `Scorer.Level`. `Level.Name()` gives the text the source returns.
- Every contribution is non-negative and they sum to at most 95. So the cap at 100
  (`min(score, 100)`) never lowers a score; `Scorer.ScoreBounds` proves this.
- Each entry closes with `"-" * 50` (line 157), and so does the model's `Report.Separator`.
- `calculate_risk_score` accepts any values, negative ones included; only `add_address`
  refuses a negative amount or count (line 98). The model does the same: `Scorer.Assess` has
  no precondition, and `Session.RiskScorerSession.AddAddress` returns `NegativeValue`.

## Model

| member | source | states |
|---|---|---|
| `Text.ToLower` | enhanced_gui_address_risk_scorer.py:15 | the lower-cased text has the same length and, position by position, the ASCII lower case of each character |
| `Text.LowerEqualIffSameUpToCase` | enhanced_gui_address_risk_scorer.py:15 | two strings lower-case to the same text exactly when they differ only in letter case (both directions) |
| `Text.ToLowerIdempotent` | enhanced_gui_address_risk_scorer.py:15 | lower-casing an already lower-cased text changes nothing |
| `Text.TrimStart` | enhanced_gui_address_risk_scorer.py:90 | the result is a suffix of the input, the removed prefix is all whitespace, and the result does not begin with whitespace |
| `Text.TrimEnd` | enhanced_gui_address_risk_scorer.py:90 | the result is a prefix of the input, the removed suffix is all whitespace, and the result does not end with whitespace |
| `Text.Strip` | enhanced_gui_address_risk_scorer.py:90 | the stripped address is empty exactly when the input is all whitespace; otherwise it neither begins nor ends with whitespace |
| `Text.StripRemovesOnlyOuterSpace` | enhanced_gui_address_risk_scorer.py:90 | the stripped text is a contiguous piece of the input with only whitespace before and after it |
| `Text.StripIdempotent` | enhanced_gui_address_risk_scorer.py:90 | stripping a stripped address changes nothing |
| `Text.Repeat` | enhanced_gui_address_risk_scorer.py:147 | `c * n` has length n and holds c at every position; used for the 50-character rules of lines 147 and 157 |
| `Text.NatToString` | enhanced_gui_address_risk_scorer.py:149 | the entry number is written as decimal digits with no leading zero, and reading the digits back gives the number |
| `Text.NatToStringInjective` | enhanced_gui_address_risk_scorer.py:149 | distinct entry numbers get distinct texts |
| `Text.IntToString` | enhanced_gui_address_risk_scorer.py:151 | the score's text in the report; `IntToStringShape` states its form |
| `Text.IntToStringShape` | enhanced_gui_address_risk_scorer.py:151 | the score's text starts with '-' exactly when the score is negative, followed by the decimal digits of its magnitude, which read back to it |
| `Scorer.IsListed` | enhanced_gui_address_risk_scorer.py:15 | the scan finds a match exactly when some denylist entry lower-cases to the lower-cased address |
| `Scorer.LowerAll` | enhanced_gui_address_risk_scorer.py:15 | the comprehension has one entry per denylist entry, each the lower-cased entry at the same position |
| `Scorer.ListedIffSomeEntryMatches` | enhanced_gui_address_risk_scorer.py:15 | membership in the lower-cased list is the same as some entry matching after lower-casing (both directions) |
| `Scorer.ListedIffSameUpToCase` | enhanced_gui_address_risk_scorer.py:15 | an address is listed exactly when it equals some entry up to letter case |
| `Scorer.CaseInsensitive` | enhanced_gui_address_risk_scorer.py:15 | addresses that differ only in letter case get identical score, level and reasons |
| `Scorer.Assess` | enhanced_gui_address_risk_scorer.py:11-34 | the reference result; `CalculateRiskScore` is proved equal to it and the lemmas `ScoreBounds`, `LevelThresholds`, `ReasonIffCondition`, `ReasonsOrdered`, `ScoreIsWeightOfReasons`, `CaseInsensitive` and `NoTransactionsNoAverage` state its properties |
| `Scorer.CalculateRiskScore` | enhanced_gui_address_risk_scorer.py:11-34 | the step-by-step accumulation of score and reasons, the cap and the level give exactly the reference result `Assess` |
| `Scorer.ScoreBounds` | enhanced_gui_address_risk_scorer.py:12-31 | the score lies in [0, 100]; the uncapped sum is at most 95, so the cap never applies |
| `Scorer.LevelThresholds` | enhanced_gui_address_risk_scorer.py:32 | the level is High iff score >= 70, Medium iff 30 <= score < 70, Low iff score < 30, with those texts |
| `Scorer.LevelOf` | enhanced_gui_address_risk_scorer.py:32 | the level of a score; `LevelThresholds` states both directions of each of its three thresholds |
| `Scorer.Level.Name` | enhanced_gui_address_risk_scorer.py:32 | the texts "High", "Medium" and "Low"; `LevelThresholds` ties them to the score thresholds |
| `Scorer.ReasonIffCondition` | enhanced_gui_address_risk_scorer.py:15-29 | each of the four reasons is present exactly when its check fires |
| `Scorer.ReasonsOrdered` | enhanced_gui_address_risk_scorer.py:13-29 | the reasons are among the four known ones, appear in check order (denylist, amount, transactions, average) and never twice |
| `Scorer.WeightSumAppend` | enhanced_gui_address_risk_scorer.py:16-28 | the total weight of two lists of reasons one after the other is the sum of their weights |
| `Scorer.ScoreIsWeightOfReasons` | enhanced_gui_address_risk_scorer.py:15-31 | the score is the sum of 50/20/15/10 over the reasons given, capped at 100 |
| `Scorer.SmallAverageByMultiplication` | enhanced_gui_address_risk_scorer.py:27 | the guarded average test holds exactly when transactions > 0 and amount < 100 * transactions |
| `Scorer.NoTransactionsNoAverage` | enhanced_gui_address_risk_scorer.py:27 | with no transactions (or a negative count) the average test fails and its reason is never given |
| `Scorer.ExampleBusyAddress` | enhanced_gui_address_risk_scorer.py:11-34 | an unlisted address with 6000 over 150 transactions scores 45, Medium, with the amount, transactions and average reasons |
| `Scorer.ExampleListedIdle` | enhanced_gui_address_risk_scorer.py:15-17 | the first hard-coded risky address, written in any letter case, with nothing moved, scores 50, Medium, with only the denylist reason |
| `Scorer.ExampleOneLargeTransaction` | enhanced_gui_address_risk_scorer.py:19-29 | one transaction of 100000 from an unlisted address scores 20, Low, with only the amount reason |
| `Report.ReasonLines` | enhanced_gui_address_risk_scorer.py:155-156 | one "- reason" line per reason, in order |
| `Report.Header` | enhanced_gui_address_risk_scorer.py:146-147 | the title and a 50 '=' rule then an empty line; `DocumentStart` states it is all that is written before the first entry |
| `Report.Separator` | enhanced_gui_address_risk_scorer.py:157 | the closing rule of 50 dashes (`Text.Repeat`'s ensures); `EntryShape` states it is the last line of every entry |
| `Report.EntryHead` | enhanced_gui_address_risk_scorer.py:149-152 | the numbered heading, address, score and level lines; `EntryShape` states them line by line |
| `Report.ReasonsBlock` | enhanced_gui_address_risk_scorer.py:153-156 | the optional "Reasons:" block; `ReasonsHeadingIffDetails` and `EntryShape` state when it is present and what it holds |
| `Report.Entry` | enhanced_gui_address_risk_scorer.py:149-157 | one result's entry; `EntryShape` states its length and every line |
| `Report.Body` | enhanced_gui_address_risk_scorer.py:148-157 | the entries of the whole log; `BodyAppend`, `BodyStep`, `BodyPrefix` and `EntryAt` state that entries follow log order, numbered from 1 |
| `Report.Document` | enhanced_gui_address_risk_scorer.py:146-157 | the title block followed by the body; `DocumentStart`, `DocumentStep` and `SaveReport` tie it to what is written |
| `Report.EntryShape` | enhanced_gui_address_risk_scorer.py:149-157 | an entry is "Address i:", the address, score and level lines, then "Reasons:" and the reason lines only if there are details, then 50 dashes |
| `Report.ReasonsHeadingIffDetails` | enhanced_gui_address_risk_scorer.py:153-154 | the "Reasons:" line appears in an entry exactly when the result has details |
| `Report.BodyAppend` | enhanced_gui_address_risk_scorer.py:148-157 | the report of a log with one more result is the old report followed by that result's entry |
| `Report.BodyStep` | enhanced_gui_address_risk_scorer.py:148-157 | taking one more result of the log adds exactly its entry, numbered one past the previous |
| `Report.BodyPrefix` | enhanced_gui_address_risk_scorer.py:148-157 | the report of any prefix of the log is a prefix of the report, so entries keep log order |
| `Report.EntryAt` | enhanced_gui_address_risk_scorer.py:148-157 | the k-th result's entry (numbered k + 1) comes right after the entries of the results before it |
| `Report.DocumentStart` | enhanced_gui_address_risk_scorer.py:146-147 | before any entry only the title, a rule of 50 '=' and an empty line are written |
| `Report.DocumentStep` | enhanced_gui_address_risk_scorer.py:146-157 | writing the next entry extends the document by exactly that entry |
| `Session.RiskScorerSession.constructor` | enhanced_gui_address_risk_scorer.py:42 | a new session has an empty log |
| `Session.RiskScorerSession.AddAddress` | enhanced_gui_address_risk_scorer.py:88-109 | an empty stripped address or a negative amount or count is refused and leaves the log unchanged; otherwise exactly one result, with the scorer's output for the stripped address, is appended; every stored result stays well formed |
| `Session.RiskScorerSession.ClearAll` | enhanced_gui_address_risk_scorer.py:128-129 | the log is empty afterwards |
| `Session.RiskScorerSession.SaveReport` | enhanced_gui_address_risk_scorer.py:135-157 | an empty log saves nothing; a cancelled dialog writes nothing; otherwise the lines written are the title block and one entry per result in log order |
| `Session.WriteEntry` | enhanced_gui_address_risk_scorer.py:149-157 | the loop body appends exactly the entry of the current result |
| `Session.WriteReasons` | enhanced_gui_address_risk_scorer.py:155-156 | the inner loop appends exactly one "- reason" line per reason |
| `Session.AcceptedResultExtendsReport` | enhanced_gui_address_risk_scorer.py:109 | appending a result to the log appends exactly its numbered entry to the report |

## Left out

- The tkinter window, its widgets, layout, the result list box and clearing the entry fields
  are left out (lines 36-86, 112-121, 130-133). They are display only. They would not change
  the log.
- The `messagebox` pop-ups become the outcomes returned by `AddAddress` and `SaveReport`.
  Their text and display are not modelled.
- Parsing the amount with `float(...)` and the count with `int(...)` is left out, and so is
  the `ValueError` handler (lines 95-96, 123-124). The model takes already-typed values, so
  the "Enter valid numbers" error path is not modelled. That path also leaves the log
  unchanged.
- Floating point is left out: the amount is an exact `real`. NaN and infinities, which
  `float(...)` accepts, are not modelled, and neither is rounding in `amount / transactions`.
- The file dialog becomes the `chosenPath` parameter of `SaveReport`; an empty path means
  cancel. Opening and writing the file, and I/O errors caught at line 160, are not modelled.
- Session.RiskScorerSession.AddAddress: the transaction count is an exact `int`. In the
  source, a count too large for a float (such as `10**400`) makes `amount / transactions`
  (line 27) raise `OverflowError`; the generic handler at lines 125-126 reports it and nothing
  is appended (line 109 is not reached). The model appends a result for such a count.
- The "Generated on" timestamp line (line 158) is left out, because it reads the clock.
  `tk.datetime` is not an attribute of the tkinter module. So in the source that line raises,
  and the handler at line 160 reports a failure after the title block and entries are already
  written. `SaveReport` returns those written lines; the failure message is not modelled.
- `main` and the event loop (lines 163-169) are left out.
- Text.ToLower: ASCII lower-casing only; Python's `str.lower()` also maps non-ASCII letters.
- Text.Strip: only ASCII whitespace is removed (9-13, 28-31, 32); Python's `str.strip()`
  also removes Unicode spaces such as U+00A0.
