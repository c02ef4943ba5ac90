/**
 * What the network call ends with, already decoded, and the text of the
 * bot message that onFailure / onResponse put in place of the placeholder.
 */
module Outcomes {
  import opened Wrappers
  import opened JavaString

  /**
   * The three ways the call can end. A transport failure carries the
   * exception's message, which Java may report as null. A non-success
   * status carries the text of response.body().toString(). A success
   * status carries the decoded body: its "success" flag and the "value"
   * and "cause" fields, each absent or present.
   */
  datatype Outcome =
    | TransportFailure(message: Option<string>)
    | HttpError(bodyDescription: string)
    | Reply(success: bool, value: Option<string>, cause: Option<string>)
    | Malformed  // not a JSON object, or no boolean "success"

  /** Faults that end a callback without a reply message. */
  datatype Fault =
    | MalformedResponse   // JSONException rethrown as RuntimeException
    | EmptyConversation   // messageList.remove(-1): IndexOutOfBoundsException

  const ConnectFailurePrefix := "Failed to connect due to: "
  const LoadFailurePrefix := "Failed to load response due to"

  /** Java's string concatenation writes a null reference as "null". */
  function JavaText(m: Option<string>): string {
    match m
    case Some(t) => t
    case None => "null"
  }

  /** The body field onResponse reads: "value" on success, "cause" otherwise. */
  function ReadField(success: bool, value: Option<string>, cause: Option<string>): Option<string> {
    if success then value else cause
  }

  /** Every field the callback reads is present. */
  predicate Readable(o: Outcome) {
    match o
    case Malformed => false
    case Reply(success, value, cause) => ReadField(success, value, cause).Some?
    case _ => true
  }

  /**
   * The bot reply an outcome resolves to, or the fault it raises. Failures
   * carry a fixed prefix and the reason; a well-formed reply is the field
   * read, trimmed. Only an unreadable body raises a fault.
   */
  function ReplyText(o: Outcome): (r: Result<string, Fault>)
    ensures r.Success? <==> Readable(o)
    ensures r.Failure? ==> r.error == MalformedResponse
    ensures o.TransportFailure? ==> r.value == ConnectFailurePrefix + JavaText(o.message)
    ensures o.HttpError? ==> r.value == LoadFailurePrefix + o.bodyDescription
    ensures o.Reply? && r.Success? ==> r.value == Trim(ReadField(o.success, o.value, o.cause).value)
  {
    match o
    case TransportFailure(m) => Success(ConnectFailurePrefix + JavaText(m))
    case HttpError(d) => Success(LoadFailurePrefix + d)
    case Reply(success, value, cause) =>
      (match ReadField(success, value, cause)
       case Some(t) => Success(Trim(t))
       case None => Failure(MalformedResponse))
    case Malformed => Failure(MalformedResponse)
  }

  /**
   * A reply from the service is shown without surrounding whitespace and
   * cut from the field it came from; it is empty exactly when that field
   * holds nothing but whitespace and control characters.
   */
  lemma ReplyIsTrimmedField(o: Outcome)
    requires o.Reply? && Readable(o)
    ensures var t := ReadField(o.success, o.value, o.cause).value;
            var r := ReplyText(o).value;
            && Trim(r) == r
            && |r| <= |t|
            && (r == [] <==> forall k :: 0 <= k < |t| ==> Trimmable(t[k]))
  {
    var t := ReadField(o.success, o.value, o.cause).value;
    TrimIdempotent(t);
    BlankIffAllTrimmable(t);
  }

  /** Failure texts end with the reason they report, so the reason is shown in full. */
  lemma FailureTextEndsWithReason(o: Outcome)
    requires o.TransportFailure? || o.HttpError?
    ensures var reason := if o.TransportFailure? then JavaText(o.message) else o.bodyDescription;
            var r := ReplyText(o).value;
            |reason| <= |r| && r[|r| - |reason|..] == reason
  {
  }

  /** A refusal with cause "rate limited" is shown exactly as "rate limited". */
  lemma {:induction false} BusinessFailureShownAsCause()
    ensures ReplyText(Reply(false, None, Some("rate limited"))) == Success("rate limited")
  {
    var c := "rate limited";
    assert LeadingCount(c) == 0;
    assert c[0..] == c;
    assert TrailingCount(c) == 0;
    assert c[..|c|] == c;
    assert Trim(c) == c;
  }
}
