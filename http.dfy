/**
 * The shape of the client's HTTP traffic: the requests it sends (relative to the
 * configured API base), the error responses it receives and what its handlers
 * can read from an error body.
 */
module Http {
  import opened Wrappers
  import opened Strings
  import opened Dtos

  datatype Verb = Get | Post | Put | Patch | Delete

  /** The JSON body of a request. */
  datatype Body =
    | NoContent
    | Credentials(username: string, password: string)
    | NewUsername(newUsername: string)
    | PasswordChange(oldPassword: string, newPassword: string)
    | UserDataChange(update: UserDataUpdate)

  datatype HttpRequest = HttpRequest(verb: Verb, url: string, body: Body)

  /** The `error` field of an HttpErrorResponse: the parsed JSON, or the raw text when it is not JSON. */
  datatype ErrorBody =
    | NoBody                               // null
    | CodeBody(code: ErrorCode)            // a single error number
    | CodeListBody(codes: seq<ErrorCode>)  // an array of error numbers
    | TextListBody(lines: seq<string>)     // an array of strings
    | TextBody(text: string)               // a string: a JSON string, or a body that is not JSON
    | OtherBody                            // any other value whose text is not a number, e.g. a ProgressEvent

  datatype HttpError = HttpError(status: int, body: ErrorBody)

  /** What a request's observable delivers: a value or an error. */
  datatype Response<T> = Ok(value: T) | Err(error: HttpError)

  /** The text of an error number, as JavaScript converts it. */
  function CodeText(code: ErrorCode): string {
    NatToString(Ordinal(code))
  }

  /**
   * `(body as Error[]).includes(code)`: on an array, whether the code is an element
   * (never, for strings); on a string, `String.prototype.includes`, whether the code's
   * text occurs in it. On null, a number or another object the call throws: `None`.
   */
  function Includes(body: ErrorBody, code: ErrorCode): (r: Option<bool>)
    ensures r.Some? <==> body.CodeListBody? || body.TextListBody? || body.TextBody?
    ensures r == Some(true) <==> (body.CodeListBody? && code in body.codes)
                                 || (body.TextBody? && Contains(body.text, CodeText(code)))
  {
    match body
    case CodeListBody(codes) => Some(code in codes)
    case TextListBody(_) => Some(false)
    case TextBody(text) => Some(Contains(text, CodeText(code)))
    case _ => None
  }

  /** `codes.toString()`: the numbers' texts joined by ",". */
  function CodesText(codes: seq<ErrorCode>): string {
    if |codes| == 0 then ""
    else if |codes| == 1 then CodeText(codes[0])
    else CodeText(codes[0]) + "," + CodesText(codes[1..])
  }

  /**
   * `body == code` with JavaScript's loose equality: null equals no number, a number
   * is compared as it is, and a string or an array is first turned into text (an
   * array by joining its elements with ",") and the text into a number.
   */
  predicate IsCode(body: ErrorBody, code: ErrorCode) {
    match body
    case NoBody => false
    case CodeBody(c) => c == code
    case CodeListBody(codes) => TextToNumber(CodesText(codes)) == Some(Ordinal(code))
    case TextListBody(lines) => TextToNumber(Join(lines, ',')) == Some(Ordinal(code))
    case TextBody(text) => TextToNumber(text) == Some(Ordinal(code))
    case OtherBody => false
  }

  /** Distinct codes have distinct numbers. */
  lemma OrdinalInjective(a: ErrorCode, b: ErrorCode)
    ensures Ordinal(a) == Ordinal(b) <==> a == b
  {
    OrdinalRoundTrip(a);
    OrdinalRoundTrip(b);
  }

  /**
   * Loose equality on an array of codes: an empty array equals the code numbered 0,
   * a one-element array equals its element, and a longer array equals no code.
   */
  lemma IsCodeOnCodes(codes: seq<ErrorCode>, code: ErrorCode)
    ensures |codes| == 0 ==> (IsCode(CodeListBody(codes), code) <==> Ordinal(code) == 0)
    ensures |codes| == 1 ==> (IsCode(CodeListBody(codes), code) <==> codes[0] == code)
    ensures |codes| >= 2 ==> !IsCode(CodeListBody(codes), code)
  {
    if |codes| == 1 {
      NumeralToNumber(Ordinal(codes[0]));
      OrdinalInjective(codes[0], code);
    } else if |codes| >= 2 {
      var text := CodesText(codes);
      assert text == CodeText(codes[0]) + "," + CodesText(codes[1..]);
      assert ',' in text by {
        assert text[|CodeText(codes[0])|] == ',';
      }
      NotANumber(text, ',');
    }
  }

  /** A text body holding a code's number equals that code alone; an empty text equals the code numbered 0. */
  lemma IsCodeOnText(c: ErrorCode, code: ErrorCode)
    ensures IsCode(TextBody(CodeText(c)), code) <==> c == code
    ensures IsCode(TextBody(""), code) <==> Ordinal(code) == 0
  {
    NumeralToNumber(Ordinal(c));
    OrdinalInjective(c, code);
  }
}
