/**
 * The failures a call can end in, and the classification of a response in
 * `postBytesRequest` (ProfilingConnection.java, lines 115-131): parse first, then the status
 * code, then the server's own `error` flag.
 */
module Responses {
  import opened Wrappers
  import opened Json
  import opened Transport

  /** What an exception carries as its cause. */
  datatype Cause =
    | SendFailed                                 // the HTTP client threw while connecting or sending
    | BadStatus(code: int, object: JsonObject)   // a parsed answer with a status other than 200
    | BadBody(uri: Uri, excerpt: seq<CodeUnit>)  // an answer that is not JSON, and its first UTF-16 code units
    | NoSession(object: JsonObject)              // a creation answer without an id or a key

  datatype Failure =
    | IoError(reason: Cause)                            // a checked `IOException`
    | UserReportable(message: string, cause: Option<Cause>)
    | Unsupported(expected: string, value: Value)       // unchecked: a JSON value asked for a kind it is not
    | IllegalState                                      // unchecked: a read past the end of a byte array
    | IllegalArgument(input: string)                    // unchecked: a request path `URI.create` refuses

  const INVALID_DATA := "Received invalid data from Flare server"
  const SERVER_ERROR := "Error from Flare server: "
  const UNKNOWN_ERROR := "unknown error"
  const EXCERPT_LENGTH := 100

  /** A UTF-16 code unit: what a Java `String` is a sequence of. */
  type CodeUnit = x: int | 0 <= x < 0x1_0000

  /** The UTF-16 code units of one character: itself below 0x10000, a surrogate pair above. */
  function Units(c: char): (u: seq<CodeUnit>)
    ensures |u| == 1 <==> c as int < 0x1_0000
    ensures |u| == 1 || |u| == 2
    ensures |u| == 2 ==> 0xD800 <= u[0] < 0xDC00 && 0xDC00 <= u[1] < 0xE000
  {
    var v := c as int;
    if v < 0x1_0000 then [v] else [0xD800 + (v - 0x1_0000) / 0x400, 0xDC00 + (v - 0x1_0000) % 0x400]
  }

  /** The Java `String` holding `s`: its characters as UTF-16 code units. */
  function Utf16(s: string): (r: seq<CodeUnit>)
    ensures |r| >= |s|
  {
    if s == [] then [] else Units(s[0]) + Utf16(s[1..])
  }

  /** A text whose characters all lie below 0x10000 is one code unit per character. */
  predicate BasicPlane(s: string)
  {
    forall i :: 0 <= i < |s| ==> s[i] as int < 0x1_0000
  }

  /** Encoding a concatenation encodes the parts one after the other. */
  lemma {:induction false} Utf16Concat(a: string, b: string)
    ensures Utf16(a + b) == Utf16(a) + Utf16(b)
  {
    if a != [] {
      assert (a + b)[0] == a[0] && (a + b)[1..] == a[1..] + b;
      Utf16Concat(a[1..], b);
      calc {
        Utf16(a + b);
        Units(a[0]) + Utf16(a[1..] + b);
        Units(a[0]) + (Utf16(a[1..]) + Utf16(b));
        (Units(a[0]) + Utf16(a[1..])) + Utf16(b);
      }
    } else {
      assert a + b == b;
    }
  }

  /** On the basic plane the code units are the characters themselves. */
  lemma {:induction false} Utf16BasicPlane(s: string)
    requires BasicPlane(s)
    ensures |Utf16(s)| == |s|
    ensures forall i :: 0 <= i < |s| ==> Utf16(s)[i] == s[i] as int
  {
    if s != [] {
      Utf16BasicPlane(s[1..]);
    }
  }

  /** The diagnostic excerpt `body.substring(0, min(100, body.length()))`, counted in UTF-16 code units. */
  function Excerpt(body: string): (r: seq<CodeUnit>)
    ensures |r| <= EXCERPT_LENGTH && |r| <= |Utf16(body)|
    ensures r == Utf16(body)[..|r|]
    ensures |r| == EXCERPT_LENGTH || r == Utf16(body)
  {
    var units := Utf16(body);
    if |units| < EXCERPT_LENGTH then units else units[..EXCERPT_LENGTH]
  }

  /** On the basic plane the excerpt is the first (at most) 100 characters of the body. */
  lemma ExcerptBasicPlane(body: string)
    requires BasicPlane(body)
    ensures |Excerpt(body)| == if |body| < EXCERPT_LENGTH then |body| else EXCERPT_LENGTH
    ensures forall i :: 0 <= i < |Excerpt(body)| ==> Excerpt(body)[i] == body[i] as int
  {
    Utf16BasicPlane(body);
  }

  /**
   * A character at or above 0x10000 at position 99 is cut in half: the excerpt ends with the high
   * surrogate of its pair.
   */
  lemma ExcerptSplitsPair(body: string)
    requires |body| > 99 && BasicPlane(body[..99]) && body[99] as int >= 0x1_0000
    ensures |Excerpt(body)| == EXCERPT_LENGTH
    ensures 0xD800 <= Excerpt(body)[99] < 0xDC00
  {
    assert body == body[..99] + ([body[99]] + body[100..]);
    Utf16Concat(body[..99], [body[99]] + body[100..]);
    Utf16BasicPlane(body[..99]);
    assert Utf16([body[99]] + body[100..]) == Units(body[99]) + Utf16(body[100..]);
  }

  /** The `error` flag as the server means it: absent means false. */
  predicate ErrorFlagClear(o: JsonObject)
  {
    "error" !in o || o["error"] == Bool(false)
  }

  /**
   * The outcome of one answered request to `uri`: `parsed` is what the JSON parser made of
   * `body` (`None` when it threw a `ParseException`).
   */
  function Classify(uri: Uri, status: int, body: string, parsed: Option<Value>): (r: Result<JsonObject, Failure>)
    ensures r.Success? ==> status == 200 && parsed == Some(Object(r.value)) && ErrorFlagClear(r.value)
    ensures r.Failure? && r.error.IoError? ==> parsed.Some? && r.error.reason.BadStatus? && r.error.reason.code == status
    ensures r.Failure? ==> !r.error.IllegalState? && !r.error.IllegalArgument?
  {
    match parsed
    case None => Failure(UserReportable(INVALID_DATA, Some(BadBody(uri, Excerpt(body)))))
    case Some(v) =>
      if !v.Object? then Failure(Unsupported("object", v))
      else if status != 200 then Failure(IoError(BadStatus(status, v.members)))
      else match GetBoolean(v.members, "error", false)
        case Failure(w) => Failure(Unsupported("boolean", w))
        case Success(false) => Success(v.members)
        case Success(true) =>
          match GetString(v.members, "message", Some(UNKNOWN_ERROR))
          case Failure(w) => Failure(Unsupported("string", w))
          case Success(m) => Failure(UserReportable(SERVER_ERROR + m.value, None))
  }

  /** A body that does not parse is reported as invalid data whatever the status code. */
  lemma ParseFailureFirst(uri: Uri, status: int, body: string)
    ensures Classify(uri, status, body, None) ==
      Failure(UserReportable(INVALID_DATA, Some(BadBody(uri, Excerpt(body)))))
    ensures status != 200 ==> !Classify(uri, status, body, None).error.IoError?
  {
  }

  /**
   * A status other than 200 is an `IOException` exactly when the body parses to an object;
   * it then carries the status and that object. A status of 200 never is.
   */
  lemma BadStatusIff(uri: Uri, status: int, body: string, parsed: Option<Value>)
    ensures var r := Classify(uri, status, body, parsed);
      (r.Failure? && r.error.IoError?) <==> (parsed.Some? && parsed.value.Object? && status != 200)
    ensures var r := Classify(uri, status, body, parsed);
      r.Failure? && r.error.IoError? ==> r.error.reason == BadStatus(status, parsed.value.members)
  {
  }

  /**
   * A call succeeds exactly when the body is an object, the status is 200 and the `error`
   * flag is clear; the object is then returned unchanged.
   */
  lemma SuccessIff(uri: Uri, status: int, body: string, parsed: Option<Value>)
    ensures var r := Classify(uri, status, body, parsed);
      r.Success? <==> parsed.Some? && parsed.value.Object? && status == 200 && ErrorFlagClear(parsed.value.members)
    ensures var r := Classify(uri, status, body, parsed);
      r.Success? ==> r.value == parsed.value.members
  {
  }

  /**
   * With status 200 and a set `error` flag the call fails with the server's `message`, or
   * with "unknown error" when there is none.
   */
  lemma ServerErrorMessage(uri: Uri, body: string, o: JsonObject)
    requires "error" in o && o["error"] == Bool(true)
    ensures "message" !in o ==>
      Classify(uri, 200, body, Some(Object(o))) == Failure(UserReportable(SERVER_ERROR + UNKNOWN_ERROR, None))
    ensures "message" in o && o["message"].Str? ==>
      Classify(uri, 200, body, Some(Object(o))) == Failure(UserReportable(SERVER_ERROR + o["message"].s, None))
    ensures "message" in o && !o["message"].Str? ==>
      Classify(uri, 200, body, Some(Object(o))) == Failure(Unsupported("string", o["message"]))
  {
  }

  /** An answer that parses to something other than an object, or an `error` member that is not a boolean, escapes unchecked. */
  lemma UncheckedShapes(uri: Uri, status: int, body: string, parsed: Option<Value>)
    requires parsed.Some?
    ensures !parsed.value.Object? ==>
      Classify(uri, status, body, parsed) == Failure(Unsupported("object", parsed.value))
    ensures parsed.value.Object? && status == 200 && "error" in parsed.value.members && !parsed.value.members["error"].Bool? ==>
      Classify(uri, status, body, parsed) == Failure(Unsupported("boolean", parsed.value.members["error"]))
  {
  }

  /** `{"error":true,"message":"quota exceeded"}` with status 200. */
  lemma QuotaExceeded(uri: Uri, body: string)
    ensures Classify(uri, 200, body, Some(Object(map["error" := Bool(true), "message" := Str("quota exceeded")])))
      == Failure(UserReportable("Error from Flare server: quota exceeded", None))
  {
    assert SERVER_ERROR + "quota exceeded" == "Error from Flare server: quota exceeded";
  }
}
