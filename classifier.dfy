/** One record of the batch: its payment payload normalised, the three
    exemption rules tried in order, and the line reported for a record that
    none of them exempts (main.py, lines 92-121). */
module Classifier {
  import opened Decimal
  import opened Patterns

  datatype Option<T> = None | Some(value: T)

  /** A decoded JSON value in the payload: a string, or any other value
      (null, a number, ...) together with what Python's `str` makes of it. */
  datatype Field = Str(text: string) | NonStr(rendered: string)

  /** `additional_information` after decoding. `status` is `None` when the key
      is missing or its value cannot be turned into an int; otherwise it is that
      int. `description` is `None` when the key `status_description` is absent. */
  datatype Payload = Payload(status: Option<int>, description: Option<Field>)

  /** The payload after lines 93-94 have rewritten it. */
  datatype PaymentInfo = PaymentInfo(status: int, description: Field)

  /** One row of the query. `kpp`, `ogrn` and the status title are fetched but
      never used by the plugin. */
  datatype Record = Record(
    registrationNumber: string,
    requestEndGiveDateTime: string,
    requestId: string,
    requestStatusId: int,
    inn: string,
    kpp: string,
    ogrn: string,
    statusTitle: string,
    additionalInformation: Payload)

  /** The exemption rules, in the order they are tried. */
  datatype Rule = PendingPayment | BlockedAndAccepted | RejectedForInsufficientFunds

  /** What the rules make of a record: exempt by a rule, flagged, or an
      exception (the description search on a value that is not a string). */
  datatype Decision = Skip(rule: Rule) | Flag | Fail

  /** What the loop body does with one record. `Raised` is an exception that
      ends the whole run. */
  datatype Classification = Ignored(rule: Rule) | Flagged(line: seq<string>) | Raised

  /** Lines 92-94: `status` must be present and an int, otherwise the run
      aborts; a missing `status_description` becomes the empty string. */
  function Normalize(p: Payload): (r: Option<PaymentInfo>)
    ensures r.None? <==> p.status.None?
    ensures r.Some? ==> r.value.status == p.status.value
    ensures r.Some? && p.description.None? ==> r.value.description == Str("")
    ensures r.Some? && p.description.Some? ==> r.value.description == p.description.value
  {
    match p.status
    case None => None
    case Some(status) =>
      Some(PaymentInfo(status, match p.description case None => Str("") case Some(d) => d))
  }

  /** Lines 96-109: the first rule whose condition holds exempts the record;
      a record no rule exempts is flagged. Reaching the third rule's search with
      a description that is not a string raises. */
  function Decide(requestStatus: int, info: PaymentInfo): (d: Decision)
    ensures d == Skip(PendingPayment) <==> info.status == 0
    ensures d == Skip(BlockedAndAccepted) <==>
      requestStatus in {20, 74} && info.status in {1, -10}
    ensures d == Skip(RejectedForInsufficientFunds) <==>
      requestStatus == 69 && info.status == 2 &&
      info.description.Str? && InsufficientFunds(info.description.text)
    ensures d == Fail <==>
      requestStatus == 69 && info.status == 2 && info.description.NonStr?
    ensures d == Flag <==>
      info.status != 0 &&
      !(requestStatus in {20, 74} && info.status in {1, -10}) &&
      (requestStatus == 69 && info.status == 2 ==>
        info.description.Str? && !InsufficientFunds(info.description.text))
  {
    if info.status == 0 then
      Skip(PendingPayment)
    else if requestStatus in {20, 74} && info.status in {1, -10} then
      Skip(BlockedAndAccepted)
    else if requestStatus == 69 && info.status == 2 then
      match info.description
      case NonStr(_) => Fail
      case Str(text) => if Matches(text) then Skip(RejectedForInsufficientFunds) else Flag
    else
      Flag
  }

  /** What `str` makes of a description. */
  function Rendered(f: Field): string {
    match f
    case Str(text) => text
    case NonStr(rendered) => rendered
  }

  /** Lines 113-121: the seven fields of a flagged record, as text. */
  function Line(r: Record, info: PaymentInfo): seq<string> {
    [r.registrationNumber, r.requestEndGiveDateTime, r.requestId, r.inn,
     IntToString(r.requestStatusId), IntToString(info.status), Rendered(info.description)]
  }

  /** The line carries the record's identifiers unchanged, and its two status
      fields read back as the request status and the payment status. */
  predicate Reports(line: seq<string>, r: Record, info: PaymentInfo) {
    |line| == 7 &&
    line[0] == r.registrationNumber &&
    line[1] == r.requestEndGiveDateTime &&
    line[2] == r.requestId &&
    line[3] == r.inn &&
    IsIntString(line[4]) && ParseInt(line[4]) == r.requestStatusId &&
    IsIntString(line[5]) && ParseInt(line[5]) == info.status &&
    line[6] == Rendered(info.description)
  }

  lemma LineReports(r: Record, info: PaymentInfo)
    ensures Reports(Line(r, info), r, info)
  {
    var line := Line(r, info);
    assert line[4] == IntToString(r.requestStatusId);
    assert line[5] == IntToString(info.status);
    IntToStringRoundTrip(r.requestStatusId);
    IntToStringRoundTrip(info.status);
  }

  /** The body of the loop at lines 91-123 for one record. */
  function Classify(r: Record): (c: Classification)
    ensures Normalize(r.additionalInformation).None? ==> c == Raised
    ensures Normalize(r.additionalInformation).Some? ==>
      var info := Normalize(r.additionalInformation).value;
      match Decide(r.requestStatusId, info)
      case Skip(rule) => c == Ignored(rule)
      case Fail => c == Raised
      case Flag => c.Flagged? && Reports(c.line, r, info)
  {
    match Normalize(r.additionalInformation)
    case None => Raised
    case Some(info) =>
      match Decide(r.requestStatusId, info)
      case Skip(rule) => Ignored(rule)
      case Fail => Raised
      case Flag =>
        LineReports(r, info);
        Flagged(Line(r, info))
  }

  // Properties of single records

  /** A record whose payment status is 0 is never flagged. */
  lemma PendingNeverFlagged(r: Record)
    requires r.additionalInformation.status == Some(0)
    ensures Classify(r) == Ignored(PendingPayment)
  {
  }

  /** Request status 20 or 74 with payment status 1 or -10 is never flagged. */
  lemma BlockedAndAcceptedNeverFlagged(r: Record)
    requires r.requestStatusId in {20, 74}
    requires r.additionalInformation.status == Some(1) ||
             r.additionalInformation.status == Some(-10)
    ensures Classify(r) == Ignored(BlockedAndAccepted)
  {
  }

  /** Under request status 69 and payment status 2 a string description
      decides: exempt exactly when it reads as lack of funds. */
  lemma RejectionDecidedByDescription(r: Record, text: string)
    requires r.requestStatusId == 69 && r.additionalInformation.status == Some(2)
    requires r.additionalInformation.description == Some(Str(text))
    ensures Classify(r) == Ignored(RejectedForInsufficientFunds) <==> InsufficientFunds(text)
    ensures Classify(r).Flagged? <==> !InsufficientFunds(text)
  {
  }

  /** A record at 69/2 without a description is flagged: the empty default
      contains neither phrase. */
  lemma MissingDescriptionFlagged(r: Record)
    requires r.requestStatusId == 69 && r.additionalInformation.status == Some(2)
    requires r.additionalInformation.description.None?
    ensures Classify(r).Flagged?
    ensures Classify(r).line[6] == ""
  {
  }

  /** The outcome depends only on the request status and the payload; the
      other fields are carried into the line unchanged. */
  lemma OnlyStatusesAndDescriptionDecide(r1: Record, r2: Record)
    requires r1.requestStatusId == r2.requestStatusId
    requires r1.additionalInformation == r2.additionalInformation
    ensures Classify(r1).Flagged? <==> Classify(r2).Flagged?
    ensures !Classify(r1).Flagged? ==> Classify(r1) == Classify(r2)
    ensures Classify(r1).Flagged? ==> Classify(r1).line[4..] == Classify(r2).line[4..]
  {
  }

  /** A record at 69/2 whose description holds either spelling of
      "insufficient funds", whatever surrounds it, is exempt. */
  lemma InsufficientFundsPhraseIgnored(r: Record, before: string, phrase: string, after: string)
    requires r.requestStatusId == 69 && r.additionalInformation.status == Some(2)
    requires phrase == InsufficientLower || phrase == InsufficientUpper
    requires r.additionalInformation.description == Some(Str(before + phrase + after))
    ensures Classify(r) == Ignored(RejectedForInsufficientFunds)
  {
    var s := before + phrase + after;
    assert s[|before|..|before| + |phrase|] == phrase;
    assert OccursAt(s, phrase, |before|);
  }

  /** A record at 69/2 citing the amount to block and then, later on the same
      line, the balance, is exempt. */
  lemma ExceededBalanceIgnored(r: Record, before: string, gap: string, after: string)
    requires r.requestStatusId == 69 && r.additionalInformation.status == Some(2)
    requires forall k :: 0 <= k < |gap| ==> gap[k] != '\n'
    requires r.additionalInformation.description ==
      Some(Str(before + BlockExceeds + gap + BalanceRemaining + after))
    ensures Classify(r) == Ignored(RejectedForInsufficientFunds)
  {
    var s := before + BlockExceeds + gap + BalanceRemaining + after;
    var i := |before|;
    var j := i + |BlockExceeds| + |gap|;
    assert s[i..i + |BlockExceeds|] == BlockExceeds;
    assert s[j..j + |BalanceRemaining|] == BalanceRemaining;
    assert forall k :: i + |BlockExceeds| <= k < j ==> s[k] == gap[k - i - |BlockExceeds|];
    assert PairAt(s, BlockExceeds, BalanceRemaining, i, j);
  }
}
