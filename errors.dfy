/**
 * The failures of a client operation and of a migration step, and the text
 * each one reports. A migration error is a step label wrapped around the
 * client error that caused it, so the cause is never lost.
 */
module Errors {

  /** The three schema operations of a Directus instance. */
  datatype Op = SnapshotOp | DiffOp | ApplyOp

  function OpName(op: Op): string
  {
    match op
    case SnapshotOp => "snapshot"
    case DiffOp => "diff"
    case ApplyOp => "apply"
  }

  /**
   * What an operation sends as its request body. The snapshot request has no
   * body and is never marshalled, so the text given for it is never reported.
   */
  function PayloadName(op: Op): string
  {
    match op
    case SnapshotOp => "payload"
    case DiffOp => "snapshot"
    case ApplyOp => "diff"
  }

  datatype ClientError =
    | MarshalFailed(op: Op, cause: string)
    | ExecuteFailed(op: Op, cause: string)
    | StatusFailed(op: Op, status: nat, body: string)
    | DecodeFailed(op: Op, cause: string)
    | MissingData(op: Op)
    | DataNotObject(op: Op)

  datatype Step = SnapshotStep | DiffStep | ApplyStep

  function StepLabel(step: Step): string
  {
    match step
    case SnapshotStep => "failed to get snapshot"
    case DiffStep => "failed to get diff"
    case ApplyStep => "failed to apply diff"
  }

  datatype MigrateError = MigrateError(step: Step, cause: ClientError)

  predicate IsDigit(c: char)
  {
    '0' <= c <= '9'
  }

  predicate AllDigits(s: string)
  {
    forall i :: 0 <= i < |s| ==> IsDigit(s[i])
  }

  /** The number a string of decimal digits spells, most significant digit first. */
  function DigitsValue(s: string): nat
    requires AllDigits(s)
  {
    if s == [] then 0 else 10 * DigitsValue(s[..|s| - 1]) + (s[|s| - 1] as int - '0' as int)
  }

  function DigitChar(d: nat): (c: char)
    requires d < 10
    ensures IsDigit(c)
    ensures c as int - '0' as int == d
  {
    ('0' as int + d) as char
  }

  /**
   * The decimal rendering of a status code, as Go's `%d` prints it: the digits
   * spell the code, with no leading zero.
   */
  function Decimal(n: nat): (s: string)
    ensures |s| >= 1 && AllDigits(s)
    ensures DigitsValue(s) == n
    ensures n > 0 ==> s[0] != '0'
    ensures (|s| == 1) == (n < 10)
    decreases n
  {
    if n < 10 then
      [DigitChar(n)]
    else
      var s := Decimal(n / 10) + [DigitChar(n % 10)];
      assert s[..|s| - 1] == Decimal(n / 10);
      s
  }

  /** Distinct status codes print differently, so a printed status names one code. */
  lemma DecimalInjective(m: nat, n: nat)
    requires Decimal(m) == Decimal(n)
    ensures m == n
  {
  }

  /** The text of a rejected request: operation, status code, then the body verbatim. */
  function StatusText(op: Op, status: nat, body: string): string
  {
    OpName(op) + " request failed with status " + Decimal(status) + ": " + body
  }

  /** Equal rejected-request texts come from the same operation, status code and body. */
  lemma StatusTextInjective(op1: Op, status1: nat, body1: string, op2: Op, status2: nat, body2: string)
    requires StatusText(op1, status1, body1) == StatusText(op2, status2, body2)
    ensures op1 == op2 && status1 == status2 && body1 == body2
  {
    assert op1 == op2 by {
      var m := StatusText(op1, status1, body1);
      assert m[0] == OpName(op1)[0] && m[0] == OpName(op2)[0];
    }
    var p := OpName(op1) + " request failed with status ";
    var r1, r2 := Decimal(status1) + ": " + body1, Decimal(status2) + ": " + body2;
    assert r1 == r2 by {
      assert StatusText(op1, status1, body1) == p + r1;
      assert StatusText(op2, status2, body2) == p + r2;
      assert (p + r1)[|p|..] == r1 && (p + r2)[|p|..] == r2;
    }
    DigitsThenSeparator(Decimal(status1), body1, Decimal(status2), body2);
    DecimalInjective(status1, status2);
  }

  /**
   * The text of a client error. A rejected request shows the operation, the
   * status code and the body verbatim; the other failures keep the underlying
   * cause verbatim at the end.
   */
  function Message(e: ClientError): (m: string)
    ensures e.StatusFailed? ==>
      StartsWith(m, OpName(e.op) + " request failed with status " + Decimal(e.status) + ": ") && EndsWith(m, e.body)
    ensures e.MarshalFailed? || e.ExecuteFailed? || e.DecodeFailed? ==>
      StartsWith(m, "failed to ") && EndsWith(m, e.cause)
    ensures e.MissingData? || e.DataNotObject? ==> StartsWith(m, OpName(e.op) + " response ")
  {
    match e
    case MarshalFailed(op, cause) =>
      "failed to marshal " + PayloadName(op) + " for " + OpName(op) + " request: " + cause
    case ExecuteFailed(op, cause) =>
      "failed to execute " + OpName(op) + " request: " + cause
    case StatusFailed(op, status, body) => StatusText(op, status, body)
    case DecodeFailed(op, cause) =>
      "failed to decode " + OpName(op) + " response: " + cause
    case MissingData(op) =>
      OpName(op) + " response does not contain 'data' field"
    case DataNotObject(op) =>
      OpName(op) + " response 'data' field is not an object"
  }

  /** The text of a migration error: the step label, then the cause's own text. */
  function MigrateMessage(e: MigrateError): (m: string)
    ensures |m| == |StepLabel(e.step)| + 2 + |Message(e.cause)|
    ensures StartsWith(m, StepLabel(e.step) + ": ")
    ensures m[|StepLabel(e.step)| + 2..] == Message(e.cause)
  {
    StepLabel(e.step) + ": " + Message(e.cause)
  }

  predicate StartsWith(s: string, prefix: string)
  {
    |prefix| <= |s| && s[..|prefix|] == prefix
  }

  predicate EndsWith(s: string, suffix: string)
  {
    |suffix| <= |s| && s[|s| - |suffix|..] == suffix
  }

  /**
   * The text of a failed migration step starts with the step's label and ends
   * with the response body verbatim when the cause was a rejected request.
   */
  lemma MigrateMessageShowsLabelAndBody(e: MigrateError)
    requires e.cause.StatusFailed?
    ensures StartsWith(MigrateMessage(e), StepLabel(e.step) + ": ")
    ensures EndsWith(MigrateMessage(e), e.cause.body)
  {
  }

  /** A status code rendered as digits and followed by ": " can be split off again. */
  lemma DigitsThenSeparator(d1: string, b1: string, d2: string, b2: string)
    requires AllDigits(d1) && AllDigits(d2)
    requires d1 + ": " + b1 == d2 + ": " + b2
    ensures d1 == d2 && b1 == b2
  {
    var s := d1 + ": " + b1;
    assert s[|d1|] == ':' && s[|d2|] == ':';
    assert forall i :: 0 <= i < |d1| ==> s[i] == d1[i];
    assert forall i :: 0 <= i < |d2| ==> s[i] == d2[i];
    assert |d1| == |d2|;
    assert d1 == s[..|d1|] == d2;
    assert b1 == s[|d1| + 2..] == b2;
  }

  /**
   * The text of a rejected request determines the operation, the status code
   * and the response body: nothing of the diagnostic is lost in the message.
   */
  lemma StatusMessageDeterminesError(e1: ClientError, e2: ClientError)
    requires e1.StatusFailed? && e2.StatusFailed?
    requires Message(e1) == Message(e2)
    ensures e1 == e2
  {
    StatusTextInjective(e1.op, e1.status, e1.body, e2.op, e2.status, e2.body);
  }

  /**
   * The same holds after a migration step has wrapped the error: the final
   * text still determines the step, the status code and the body.
   */
  lemma MigrateStatusMessageDeterminesError(e1: MigrateError, e2: MigrateError)
    requires e1.cause.StatusFailed? && e2.cause.StatusFailed?
    requires MigrateMessage(e1) == MigrateMessage(e2)
    ensures e1 == e2
  {
    var m := MigrateMessage(e1);
    assert m[10] == StepLabel(e1.step)[10] && m[14] == StepLabel(e1.step)[14];
    assert m[10] == StepLabel(e2.step)[10] && m[14] == StepLabel(e2.step)[14];
    assert e1.step == e2.step;
    StatusMessageDeterminesError(e1.cause, e2.cause);
  }
}
