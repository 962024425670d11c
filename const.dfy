/** The caller's declaration of how a successful response body is to be read. */
module Const {
  import opened Wrappers

  /**
   * `ResponseType`: `NoContent` is the member whose value is "none" (the body is
   * discarded), `JsonContent` ("json") reads the JSON envelope, `TextContent`
   * ("text") the raw text.
   */
  datatype ResponseType = NoContent | JsonContent | TextContent

  /** The StrEnum value of each member. */
  function ResponseTypeValue(t: ResponseType): string
  {
    match t
    case NoContent => "none"
    case JsonContent => "json"
    case TextContent => "text"
  }

  /** Recognises a StrEnum value. */
  function ParseResponseType(s: string): Option<ResponseType>
  {
    match s
    case "none" => Some(NoContent)
    case "json" => Some(JsonContent)
    case "text" => Some(TextContent)
    case _ => None
  }

  /** The three values are distinct and each names its own member. */
  lemma ResponseTypeValues(t: ResponseType, s: string)
    ensures ParseResponseType(ResponseTypeValue(t)) == Some(t)
    ensures ParseResponseType(s).Some? ==> ResponseTypeValue(ParseResponseType(s).value) == s
  {
  }
}
