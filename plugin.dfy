/** The plugin's run over one batch of records (main.py, lines 91-146): the
    loop that collects the flagged lines and the exit decision that follows it.
    The query, the command line and the printing around them are not modelled;
    the batch and the two limits are parameters. */
module Plugin {
  import opened Classifier
  import opened Severity

  // Specification

  /** What the loop body makes of each record, in input order. */
  function Outcomes(rs: seq<Record>): (cs: seq<Classification>)
    ensures |cs| == |rs|
    ensures forall k :: 0 <= k < |rs| ==> cs[k] == Classify(rs[k])
  {
    seq(|rs|, k requires 0 <= k < |rs| => Classify(rs[k]))
  }

  /** The flagged lines in input order, or `None` when some outcome is an
      exception. */
  function Collect(cs: seq<Classification>): Option<seq<seq<string>>>
    decreases |cs|
  {
    if cs == [] then Some([])
    else
      match Collect(cs[..|cs| - 1])
      case None => None
      case Some(lines) =>
        match cs[|cs| - 1]
        case Raised => None
        case Ignored(_) => Some(lines)
        case Flagged(line) => Some(lines + [line])
  }

  /** One more outcome extends the collection of a prefix. */
  lemma CollectStep(cs: seq<Classification>, i: int, lines: seq<seq<string>>)
    requires 0 <= i < |cs| && Collect(cs[..i]) == Some(lines)
    ensures Collect(cs[..i + 1]) ==
      match cs[i]
      case Raised => None
      case Ignored(_) => Some(lines)
      case Flagged(line) => Some(lines + [line])
  {
    assert cs[..i + 1][..i] == cs[..i];
  }

  ghost predicate SomeRaised(cs: seq<Classification>) {
    exists k :: 0 <= k < |cs| && cs[k].Raised?
  }

  /** The positions of the flagged outcomes, in increasing order. */
  ghost function FlaggedPositions(cs: seq<Classification>): (idx: seq<int>)
    ensures forall m :: 0 <= m < |idx| ==> 0 <= idx[m] < |cs| && cs[idx[m]].Flagged?
    ensures forall m, n :: 0 <= m < n < |idx| ==> idx[m] < idx[n]
    ensures forall k :: 0 <= k < |cs| && cs[k].Flagged? ==> k in idx
    decreases |cs|
  {
    if cs == [] then []
    else FlaggedPositions(cs[..|cs| - 1]) + if cs[|cs| - 1].Flagged? then [|cs| - 1] else []
  }

  ghost function FlaggedSet(cs: seq<Classification>): set<int> {
    set k | 0 <= k < |cs| && cs[k].Flagged?
  }

  // Properties of the collected lines

  /** One exception anywhere in the batch, and nothing else, makes the
      collection fail. */
  lemma {:induction false} CollectFailsFast(cs: seq<Classification>)
    ensures Collect(cs).None? <==> SomeRaised(cs)
    decreases |cs|
  {
    if cs != [] {
      var init := cs[..|cs| - 1];
      CollectFailsFast(init);
      if SomeRaised(cs) && !cs[|cs| - 1].Raised? {
        var k :| 0 <= k < |cs| && cs[k].Raised?;
        assert init[k].Raised?;
      }
    }
  }

  /** The collected lines are exactly the lines of the flagged outcomes, in
      input order: the m-th line belongs to the m-th flagged record. */
  lemma {:induction false} CollectListsFlagged(cs: seq<Classification>)
    requires Collect(cs).Some?
    ensures |Collect(cs).value| == |FlaggedPositions(cs)|
    ensures forall m :: 0 <= m < |FlaggedPositions(cs)| ==>
      Collect(cs).value[m] == cs[FlaggedPositions(cs)[m]].line
    decreases |cs|
  {
    if cs != [] {
      CollectListsFlagged(cs[..|cs| - 1]);
    }
  }

  /** The number of collected lines is the number of records no rule exempts. */
  lemma {:induction false} CollectCountsFlagged(cs: seq<Classification>)
    requires Collect(cs).Some?
    ensures |Collect(cs).value| == |FlaggedSet(cs)|
    decreases |cs|
  {
    if cs != [] {
      var n := |cs| - 1;
      var init := cs[..n];
      CollectCountsFlagged(init);
      assert n !in FlaggedSet(init);
      if cs[n].Flagged? {
        assert FlaggedSet(cs) == FlaggedSet(init) + {n};
      } else {
        assert FlaggedSet(cs) == FlaggedSet(init);
      }
    }
  }

  // The run

  /** Lines 91-146 without the query and the printing: returns the final state,
      the exit code the plugin ends with, and the flagged lines shown before it
      (none when the run aborts or finds nothing). `errorCounter` is the
      `count(start=1)` iterator, `errorCount` the last value drawn from it. */
  method Run(records: seq<Record>, warningLimit: int, criticalLimit: int)
    returns (status: Status, code: nat, shown: seq<seq<string>>)
    ensures code == ExitCode(status)
    ensures SomeRaised(Outcomes(records)) ==> status == UNKNOWN && shown == []
    ensures Collect(Outcomes(records)).Some? ==>
      var lines := Collect(Outcomes(records)).value;
      status == StatusFor(|lines|, warningLimit, criticalLimit) &&
      shown == lines
    ensures !SomeRaised(Outcomes(records)) ==>
      status == StatusFor(|FlaggedSet(Outcomes(records))|, warningLimit, criticalLimit)
  {
    ghost var outcomes := Outcomes(records);
    CollectFailsFast(outcomes);
    var errorData: seq<seq<string>> := [];
    var errorCount := 0;
    var errorCounter := 1;
    for i := 0 to |records|
      invariant Collect(outcomes[..i]) == Some(errorData)
      invariant errorCount == |errorData| && errorCounter == errorCount + 1
    {
      CollectStep(outcomes, i, errorData);
      var record := records[i];
      var info := Normalize(record.additionalInformation);
      assert outcomes[i] == Classify(record);
      if info.None? {
        assert outcomes[i].Raised?;
        return UNKNOWN, ExitCode(UNKNOWN), [];
      }
      var decision := Classifier.Decide(record.requestStatusId, info.value);
      if decision.Fail? {
        assert outcomes[i].Raised?;
        return UNKNOWN, ExitCode(UNKNOWN), [];
      }
      if decision.Flag? {
        assert outcomes[i] == Flagged(Line(record, info.value));
        errorCount := errorCounter;
        errorCounter := errorCounter + 1;
        errorData := errorData + [Line(record, info.value)];
      }
    }
    assert outcomes[..|records|] == outcomes;
    CollectCountsFlagged(outcomes);
    if errorCount != 0 {
      shown := errorData;
      if errorCount >= criticalLimit {
        return CRITICAL, ExitCode(CRITICAL), shown;
      } else if errorCount >= warningLimit {
        return WARNING, ExitCode(WARNING), shown;
      }
    } else {
      return OK, ExitCode(OK), [];
    }
    // Below both limits: the decision chain ends and the plugin exits UNKNOWN.
    status, code := UNKNOWN, ExitCode(UNKNOWN);
  }

  // A batch

  /** A batch of a pending payment and a record with request status 99 and
      payment status 5: only the second is flagged, its line shows both
      statuses, and one flagged record is CRITICAL under the default limits
      and WARNING with a critical limit of 5. */
  lemma PendingAndStrayBatch(pending: Record, stray: Record)
    requires pending.additionalInformation.status == Some(0)
    requires stray.requestStatusId == 99 && stray.additionalInformation.status == Some(5)
    ensures Collect(Outcomes([pending, stray])).Some?
    ensures var lines := Collect(Outcomes([pending, stray])).value;
      |lines| == 1 && lines[0] == Classify(stray).line &&
      lines[0][0] == stray.registrationNumber && lines[0][3] == stray.inn &&
      lines[0][4] == "99" && lines[0][5] == "5" &&
      StatusFor(|lines|, 1, 1) == CRITICAL && StatusFor(|lines|, 1, 5) == WARNING
  {
    var cs := Outcomes([pending, stray]);
    assert cs[0] == Ignored(PendingPayment);
    assert cs[1] == Classify(stray) && cs[1].Flagged?;
    assert cs[..1][..0] == [];
    assert Collect(cs[..1]) == Some([]);
    assert Decimal.NatToString(99) == "99";
  }
}
