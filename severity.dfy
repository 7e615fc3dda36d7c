/** The monitoring verdict (main.py, lines 15 and 125-146): the four plugin
    states, their exit codes, and the state a number of flagged records
    leads to under the two configured limits. */
module Severity {

  datatype Status = OK | WARNING | CRITICAL | UNKNOWN

  /** The exit codes 0, 1, 2 and 3, in this order. */
  function ExitCode(s: Status): (code: nat)
    ensures code < 4
    ensures s == OK <==> code == 0
    ensures s == WARNING <==> code == 1
    ensures s == CRITICAL <==> code == 2
    ensures s == UNKNOWN <==> code == 3
  {
    match s
    case OK => 0
    case WARNING => 1
    case CRITICAL => 2
    case UNKNOWN => 3
  }

  /** The state after a loop that flagged `count` records. The critical limit is
      tested before the warning limit, and a positive count below both limits
      falls out of the decision chain to the plugin's final UNKNOWN exit. */
  function StatusFor(count: nat, warningLimit: int, criticalLimit: int): (s: Status)
    ensures s == OK <==> count == 0
    ensures s == CRITICAL <==> count > 0 && count >= criticalLimit
    ensures s == WARNING <==> count > 0 && count < criticalLimit && count >= warningLimit
    ensures s == UNKNOWN <==> count > 0 && count < criticalLimit && count < warningLimit
  {
    if count == 0 then OK
    else if count >= criticalLimit then CRITICAL
    else if count >= warningLimit then WARNING
    else UNKNOWN
  }

  /** The undecided gap exists exactly when both limits are above 1; the
      smallest count in it is 1. */
  lemma UnknownGapIff(warningLimit: int, criticalLimit: int)
    ensures (exists count: nat :: StatusFor(count, warningLimit, criticalLimit) == UNKNOWN)
      <==> warningLimit > 1 && criticalLimit > 1
  {
    if warningLimit > 1 && criticalLimit > 1 {
      assert StatusFor(1, warningLimit, criticalLimit) == UNKNOWN;
    }
  }

  /** With a critical limit at or below the warning limit WARNING never occurs. */
  lemma NoWarningBelowCritical(count: nat, warningLimit: int, criticalLimit: int)
    requires criticalLimit <= warningLimit
    ensures StatusFor(count, warningLimit, criticalLimit) != WARNING
  {
  }

  /** Under the default limits (1 and 1) any flagged record is CRITICAL. */
  lemma DefaultLimits(count: nat)
    ensures StatusFor(count, 1, 1) == if count == 0 then OK else CRITICAL
  {
  }

  /** Once the count reaches the critical limit, more flagged records keep it CRITICAL. */
  lemma CriticalIsUpwardClosed(count: nat, more: nat, warningLimit: int, criticalLimit: int)
    requires StatusFor(count, warningLimit, criticalLimit) == CRITICAL
    requires more >= count
    ensures StatusFor(more, warningLimit, criticalLimit) == CRITICAL
  {
  }
}
