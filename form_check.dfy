/**
 * `DescriptorImpl.doCheckObs_event`, the form check on the pattern string,
 * identical in both trigger classes: the value must end with ';' (tested
 * before any parsing) and must then parse, ';' included, as a JSON object.
 */
module FormCheck {
  import opened Json

  /**
   * What the check hands back to the form: FormValidation.ok(), or
   * FormValidation.error(message), or an exception the check does not catch.
   */
  datatype Validation = Ok | Error(message: string) | Uncaught(exception: string)

  const UnterminatedMessage: string := "Please end the String with a ;."
  const InvalidJsonMessage: string := "Please input a valid JSON String."

  /** `value.endsWith(";")` */
  predicate EndsWithSemicolon(value: string) {
    |value| > 0 && value[|value| - 1] == ';'
  }

  /**
   * The check as written: only JSONException is caught, so a value that is
   * JSON but not an object (`[1];`) lets the cast's ClassCastException escape.
   */
  function CheckObsEventAsWritten(value: string, toJson: Parser): (r: Validation)
    ensures !EndsWithSemicolon(value) ==> r == Error(UnterminatedMessage)
    ensures EndsWithSemicolon(value) ==> (r == Ok <==> toJson(value).Object?)
    ensures EndsWithSemicolon(value) && toJson(value).Malformed? ==> r == Error(InvalidJsonMessage)
    ensures r.Uncaught? <==> EndsWithSemicolon(value) && toJson(value).NotAnObject?
  {
    if !EndsWithSemicolon(value) then Error(UnterminatedMessage)
    else match toJson(value)
      case Object(_) => Ok
      case Malformed => Error(InvalidJsonMessage)
      case NotAnObject => Uncaught("ClassCastException")
  }

  /** The check as intended: every value that is not a JSON object is reported as invalid JSON. */
  function CheckObsEvent(value: string, toJson: Parser): (r: Validation)
    ensures r == Ok <==> EndsWithSemicolon(value) && toJson(value).Object?
    ensures !r.Uncaught?
    ensures r.Error? ==> r.message == if EndsWithSemicolon(value) then InvalidJsonMessage else UnterminatedMessage
  {
    if !EndsWithSemicolon(value) then Error(UnterminatedMessage)
    else if toJson(value).Object? then Ok
    else Error(InvalidJsonMessage)
  }

  /** An array pattern ending in ';' escapes the check as written, and is reported by the intended one. */
  lemma ArrayValueEscapesCheck()
    ensures CheckObsEventAsWritten("[1];", (s: string) => if s == "[1];" then NotAnObject else Malformed)
            == Uncaught("ClassCastException")
    ensures CheckObsEvent("[1];", (s: string) => if s == "[1];" then NotAnObject else Malformed)
            == Error(InvalidJsonMessage)
  {
  }

  /** The two checks differ only where the written one lets the exception escape. */
  lemma CheckAgreesExceptOnNonObjects(value: string, toJson: Parser)
    ensures CheckObsEventAsWritten(value, toJson).Uncaught?
            || CheckObsEventAsWritten(value, toJson) == CheckObsEvent(value, toJson)
  {
  }

  /**
   * A value without the trailing ';' is rejected before it is parsed: the
   * result is the same whatever the parser would have said.
   */
  lemma UnterminatedRejectedBeforeParsing(value: string, toJson: Parser, other: Parser)
    requires !EndsWithSemicolon(value)
    ensures CheckObsEventAsWritten(value, toJson) == CheckObsEventAsWritten(value, other) == Error(UnterminatedMessage)
    ensures CheckObsEvent(value, toJson) == CheckObsEvent(value, other) == Error(UnterminatedMessage)
  {
  }
}
