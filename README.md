# Financial scenario simulator — budget step

A Dafny model of the computation the "Financial Scenario Simulator" page runs
when its form is submitted (`app.py`, lines 96-160). The form has six inputs:
salary, rent, groceries, other expenses, current savings and a free-text
goal. From them the step derives:

- the total monthly expenses, the monthly balance (which may be negative) and
  the yearly savings;
- how many whole months the savings would cover the expenses ("survival
  months"), or 0 when there are no expenses;
- an estimate of how many months it takes to reach the goal. The amount is
  taken from the goal text by keeping only its digits, in order, and parsing
  them as an integer. A non-positive balance gives a "not reachable" warning
  instead of an estimate;
- the four pie-chart values and the twelve-month savings projection that feed
  the charts;
- up to three advisory tips, from three independent threshold rules;
- the saved `form_data` record that the chat advisor later reads.

Modules:

- `GoalText` (`goal_text.dfy`) holds the digit filter and the integer parse of
  the goal text.
- `Budget` (`budget.dfy`) holds the arithmetic, the goal outcome, the chart
  values, the tip rules and `Simulate`, the whole step as one pure function.
  `BuildTips` is the tips list built by successive appends, as the source
  builds it.
- `Session` (`session.dfy`) holds the `form_data` dictionary. It also has a
  `SessionState` class whose `Submit` method runs the step, builds the tips
  with `BuildTips` and saves the record into the session.

Python's `//` rounds toward negative infinity. Dafny's `/` on `int` is
Euclidean. The two agree whenever the divisor is positive, and both divisions
in the step are only reached with a positive divisor. `FloorDivIsRealFloor`
proves this agreement against the real-number floor.

Take the default figures with the hint text "Save ₹2L" (app.py:92) typed as
the goal. The digit filter yields 2. The balance is 12000 > 0, so the step
shows the estimate (2 - 50000) // 12000 = -5 ("approx -5 months"), not the
"not reachable" warning. `DefaultFormExample` proves this.

## Model

| member | source | states |
|---|---|---|
| GoalText.Digits | app.py:110 | the filtered goal text contains only digits and is no longer than the text |
| GoalText.DigitsConcat | app.py:110 | filtering a concatenation concatenates the filtered parts, so each character is kept or dropped on its own |
| GoalText.DigitsEmptyIff | app.py:110-111 | the filter yields the empty string exactly when the goal has no digit |
| GoalText.DigitsOfDigits | app.py:110 | a string of digits passes through the filter unchanged |
| GoalText.DigitsIdempotent | app.py:110 | filtering twice gives the same string as filtering once |
| GoalText.DigitsIsSubsequence | app.py:110 | the filtered text is a subsequence of the goal (original order kept) |
| GoalText.DigitsCounts | app.py:110 | every digit is kept as many times as it occurs in the goal, and no other character is kept |
| GoalText.ParseNat | app.py:112 | `int()` of a digit string is a natural number below 10 to the power of its length |
| GoalText.ParseNatConcat | app.py:112 | parsing a concatenation shifts the left part's value by the length of the right part |
| GoalText.LeadingZero | app.py:112 | a leading zero does not change the parsed amount |
| Budget.FloorDiv | app.py:100 | for a positive divisor the quotient q satisfies q*b <= a < q*b + b |
| Budget.FloorDivUnique | app.py:100 | those two bounds determine the quotient uniquely |
| Budget.FloorDivIsRealFloor | app.py:114 | integer division by a positive divisor equals the floor of the real quotient, as with Python's `//` |
| Budget.SurvivalMonths | app.py:100 | zero expenses give 0 whatever the savings; otherwise m*total <= savings < (m+1)*total |
| Budget.GoalOutcomeOf | app.py:108-117 | an empty goal shows nothing; a goal without digits shows no estimate and no warning; the warning appears exactly when the goal has a digit and the balance is <= 0; an estimate exists exactly when the goal has a digit and the balance is > 0, and it is the floor of (goal amount - savings) / balance |
| Budget.MonthsNegativeIff | app.py:113-115 | an estimate is negative exactly when the goal amount is below the current savings |
| Budget.PieValues | app.py:121 | four non-negative values; the savings slice is 0 exactly when the balance is <= 0, and it is never below the balance |
| Budget.PieTotal | app.py:120-121 | the pie adds up to the salary when the balance is non-negative, and to the total expenses otherwise |
| Budget.Projection | app.py:127-128 | twelve entries; the first is savings + balance and consecutive entries differ by exactly the balance |
| Budget.ProjectionAt | app.py:127-128 | entry m (for m = 1..12) is savings + balance*m |
| Budget.ProjectionMonotoneIff | app.py:127-128 | the projection is non-decreasing exactly when the balance is >= 0 |
| Budget.Tips | app.py:140-146 | the rent tip is present iff rent > 40% of salary (equality does not trigger it); the low-savings tip is present iff balance < 2000; the emergency-fund tip is present iff savings == 0; at most three tips, in rule order; each tip's text (`Tip.Message`) is the message the source appends |
| Budget.BuildTips | app.py:140-146 | the list built by successive appends equals the rule-based tips list |
| Budget.Simulate | app.py:96-146 | total = rent + groceries + other; balance = salary - total; yearly = 12*balance; the survival bounds; the goal outcome is `GoalOutcomeOf` of the goal, savings and balance, with its estimate and warning conditions; pie slices; a 12-entry projection whose entry m is savings + balance*m, ending at savings + yearly savings; the tips are exactly `Tips` of salary, rent, balance and savings |
| Budget.DefaultFormExample | app.py:85-117 | "Save ₹2L" extracts and parses to 2; the default inputs with that goal give total 18000, balance 12000, yearly 144000, survival 2, goal amount 2, an estimate of -5 months and no tips |
| Session.FormRecord | app.py:153-160 | the saved record has exactly the six input keys; the goal is stored as text and the rest as amounts |
| Session.InputsOf | app.py:175-183 | reading the six fields back succeeds only when all six keys are present |
| Session.FormRecordRoundTrip | app.py:153-160 | reading the saved record back gives the six inputs unchanged |
| Session.FormRecordInjective | app.py:153-160 | different inputs are saved as different records |
| Session.SessionState.Submit | app.py:96-160 | a submit returns the report of `Simulate` (with tips built by appends) and leaves the session holding the record of exactly the submitted inputs |

## Left out

- Page navigation, session flags and reruns (app.py:39-66, 207-209, 256-259) are left out: UI state toggling.
- CSS, markdown, the video and the Behind The Code page (app.py:11-37, 48-76, 212-254) are left out: presentation only.
- The Plotly figure construction and rendering (app.py:123-125, 129-138) are left out. Only the value lists that feed the charts are modelled.
- The printed messages (`st.success`, `st.write`, `st.info`, `st.warning`) are left out as I/O. The report carries the values they display.
- The chat advisor is left out: prompt formatting, the HTTP POST to the chat-completion service and indexing its JSON reply (app.py:176-199). It is network I/O to an unseen service, and its failures are unhandled. Only the record lookups it performs are modelled (`InputsOf`).
- The chat history in session state (app.py:167-174, 199-205) is left out: a UI conversation log.
- The API key read from `st.secrets` (app.py:6) is left out: external configuration.
- Budget.Tips: the rent rule `rent > salary * 0.4` is evaluated by Python in floating point. The model uses the exact test `10*rent > 4*salary`. The two agree for integer amounts below 2^50. Floating point is not modelled.
- GoalText.IsDigit: only ASCII '0'..'9' count as digits. Python's `str.isdigit` also keeps decimal digits of other scripts, such as Devanagari '२', fullwidth '５' or Arabic-Indic '٣', and `int()` parses them. For such input the model drops those digits and reaches a different outcome: for the goal "Save ₹२०००" the source estimates months for the amount 2000 while the model returns `NoDigits`, and for "2०००" the source parses 2000 while the model parses 2. `str.isdigit` also keeps non-decimal digit characters such as '²' or '①', for which `int()` at app.py:112 raises; that exception is not modelled either.
- GoalText.ParseNat: CPython's `int()` refuses to convert a string of more than 4300 digits (its default int/str conversion limit) and raises ValueError. The goal field at app.py:92 has no length limit, so a goal holding 4301 digits ends the submit step with that exception. The model has no such limit: it parses any number of digits and returns `Months(..)` or `Unreachable`.
- GoalText.ParseNat: requires a string of digits. It is only applied to the filter's non-empty output, as `int()` is in the source.
- Budget.Simulate is pure, so running it twice on the same inputs gives the same report. No separate lemma states this.
