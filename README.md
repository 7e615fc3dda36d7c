# Request-rejection control check, modelled in Dafny

The system is a Nagios plugin. Once per run it takes the procedure requests
whose submission window closed in the last hour, each joined with the
payment-blocking operation recorded for it. It decides for each record
whether the request status and the payment-blocking status disagree, and
exits OK, WARNING, CRITICAL or UNKNOWN according to how many records
disagree.

The model covers the body of the plugin's main block: the loop over the
records and the exit decision after it.

- `decimal.dfy` (module `Decimal`): Python's `str` of an int, used for the two
  integer fields of a reported line. It comes with a parser that reads the
  text back.
- `patterns.dfy` (module `Patterns`): the regular expression that recognises a
  payment rejected for lack of funds. It is written as two fixed-string
  conditions (ghost predicates), and scanners that search the way the
  expression does are proved equal to them.
- `classifier.dfy` (module `Classifier`): one record. Its payload is
  normalised (a `status` is required, a missing `status_description` becomes
  `""`), the three exemption rules are tried in order, and a record no rule
  exempts gets a seven-field line.
- `severity.dfy` (module `Severity`): the four plugin states, their exit codes
  0-3, and the state reached for a given number of flagged records.
- `plugin.dfy` (module `Plugin`): `Run`, the loop and the exit chain as a
  method, proved against `Collect`, a specification over the per-record
  outcomes. Lemmas show that the collected lines are the flagged records in
  input order, that their number is the number of flagged records, and that
  an exception in any record aborts the run.

Some behaviours of the code that are easy to expect otherwise:

- Under the default limits (1 and 1), one flagged record gives CRITICAL, not
  WARNING. The code tests the critical limit first (`Severity.DefaultLimits`,
  `Plugin.PendingAndStrayBatch`).
- In the "amount to block exceeds ... balance" pattern, the text between the
  two phrases may contain no newline, because the expression is compiled
  without `DOTALL`.
- A positive count below both limits is not resolved to OK. The decision
  chain ends without an exit, and the plugin then exits UNKNOWN (main.py
  lines 144-146). The shown lines are still returned, because they were
  printed before the chain.
- A `status_description` that is present but is not a string (JSON `null`, a
  number) is carried as `Field.NonStr`. The rejection search raises on such a
  value, so a record with request status 69 and payment status 2 that carries
  one makes the whole run UNKNOWN; on any other record that is flagged, the
  value is only rendered into the line.

## Model

| member | source | states |
|---|---|---|
| `Classifier.Normalize` | main.py:92-94 | fails exactly when `status` is missing or not an int; otherwise keeps the status; an absent description becomes the empty string and a present one is kept |
| `Classifier.Decide` | main.py:96-109 | one characterisation per outcome: rule 1 iff payment status 0; rule 2 iff request status in {20, 74} and payment status in {1, -10}; rule 3 iff 69/2 with a string description showing lack of funds; an exception iff 69/2 with a non-string description; flagged iff none of these |
| `Patterns.Matches` | main.py:107-108 | the search succeeds iff the text contains either spelling of "insufficient funds", or "amount to block exceeds" followed on the same line by "balance on the account" |
| `Patterns.FindIsContains` | main.py:107 | a left-to-right search for a phrase succeeds iff the phrase occurs at some position |
| `Patterns.LazyThenIsGap` | main.py:107 | the lazy `.*?` followed by a phrase matches iff the phrase occurs with no newline before it |
| `Patterns.FindPairIsFollowedOnLine` | main.py:107 | searching for phrase, `.*?`, phrase succeeds iff the second phrase begins after the end of the first with no newline between them |
| `Decimal.NatToString` | main.py:121 | the rendering is a non-empty string of digits, with a leading zero only for 0 |
| `Decimal.IntToStringRoundTrip` | main.py:121 | the rendering of every int is well-formed and reads back as that int |
| `Classifier.LineReports` | main.py:113-121 | the line has seven fields: registration number, end time, request id and INN unchanged, the two statuses as text that reads back as those statuses, then the description |
| `Classifier.Classify` | main.py:91-123 | a record without a usable status raises; otherwise the outcome is the rules' decision, and a flagged record carries its line as above |
| `Classifier.PendingNeverFlagged` | main.py:97-98 | payment status 0 is exempt by rule 1, whatever the other fields hold |
| `Classifier.BlockedAndAcceptedNeverFlagged` | main.py:101-102 | request status 20 or 74 with payment status 1 or -10 is exempt by rule 2 |
| `Classifier.RejectionDecidedByDescription` | main.py:105-109 | at 69/2 with a string description: exempt by rule 3 iff the description shows lack of funds, flagged iff it does not |
| `Classifier.MissingDescriptionFlagged` | main.py:94-109 | at 69/2 with no description the record is flagged and its description field is empty |
| `Classifier.OnlyStatusesAndDescriptionDecide` | main.py:96-121 | two records with the same request status and payload get the same outcome; the other fields change only the first four fields of the line |
| `Classifier.InsufficientFundsPhraseIgnored` | main.py:105-109 | at 69/2, a description with either spelling of "insufficient funds" anywhere in it is exempt |
| `Classifier.ExceededBalanceIgnored` | main.py:105-109 | at 69/2, "amount to block exceeds", then any newline-free text, then "balance on the account" is exempt, whatever surrounds it |
| `Plugin.CollectFailsFast` | main.py:139-142 | the collection fails iff at least one record raises, wherever it is in the batch |
| `Plugin.FlaggedPositions` | main.py:111-123 | the flagged positions are strictly increasing and in range, and they include every flagged record |
| `Plugin.CollectListsFlagged` | main.py:111-123 | there are as many collected lines as flagged positions; the m-th line is the line of the m-th flagged record |
| `Plugin.CollectCountsFlagged` | main.py:111-123 | the number of collected lines equals the number of records no rule exempts |
| `Plugin.Run` | main.py:91-146 | the exit code is that of the returned state; if any record raises: UNKNOWN with nothing shown; otherwise the state for the number of flagged records under the two limits, showing the flagged lines in input order when there are any |
| `Plugin.PendingAndStrayBatch` | main.py:96-137 | a pending record followed by a 99/5 record gives one line, the second record's, with "99" and "5" in it; CRITICAL under the default limits and WARNING with a critical limit of 5 |
| `Severity.ExitCode` | main.py:15 | OK, WARNING, CRITICAL and UNKNOWN map to 0, 1, 2 and 3 respectively, and only to those; `Run` returns this code beside the state |
| `Severity.StatusFor` | main.py:125-146 | OK iff the count is 0; CRITICAL iff positive and at or above the critical limit, whatever the warning limit; WARNING iff positive, below the critical limit and at or above the warning limit; UNKNOWN iff positive and below both |
| `Severity.UnknownGapIff` | main.py:130-146 | some count ends UNKNOWN iff both limits are above 1 |
| `Severity.NoWarningBelowCritical` | main.py:130-134 | when the critical limit is at most the warning limit, WARNING never occurs |
| `Severity.DefaultLimits` | main.py:130-131 | with both limits at their default of 1, any positive count is CRITICAL |
| `Severity.CriticalIsUpwardClosed` | main.py:130-131 | if a count is CRITICAL, every larger count is CRITICAL too |

## Left out

- The SQL query and the MySQL connection (main.py lines 21-45, 88-89). They are external I/O through a library that is not part of this model. The batch is a parameter of `Run`.
- Command-line parsing, `--version` and the help and version text (lines 55-86, 144-145). The two limits are plain `int` parameters, and the separator is not modelled.
- Printing, joining the fields with the separator, and transliteration (lines 126-128). They are display formatting through a foreign library. `Run` returns the lines it would show. An exception raised while printing is not modelled.
- `json.loads` and Python's `int()` coercion (lines 92-93). The payload is given already decoded. Its `status` is either an int or absent/unusable, which covers a missing key, an unconvertible value and a payload that does not decode.
- `str()` of the end time and of the request id (line 121). These are given as the strings the line shows. Only the two integer statuses are rendered by the model.
- The general regular-expression engine. Only the one fixed expression at line 107 is modelled.
- The difference between `SystemExit` and `Exception`. Exits are returned states. The OK, WARNING and CRITICAL exits are not turned into UNKNOWN, as in the source, where `SystemExit` passes through the `except` clause.
- Rewriting the decoded dictionary in place (lines 93-94). `Normalize` returns a fresh `PaymentInfo` instead, because nothing else reads that dictionary.
