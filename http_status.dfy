/**
 * The HTTP status enumeration: seven statuses, each with its reason phrase.
 * A numeric TypeScript enum maps both ways, name to number and number to name;
 * both directions are modelled and shown to be inverse to each other.
 */
module HttpStatus {
  import opened Wrappers

  /** The number-to-name direction, `HttpStatus[code]`; absent for codes outside the table. */
  function ReasonPhrase(code: int): (r: Option<string>)
    ensures r.Some? <==> code in {400, 401, 403, 404, 409, 422, 500}
  {
    match code
    case 400 => Some("Bad Request")
    case 401 => Some("Unauthorized")
    case 403 => Some("Forbidden")
    case 404 => Some("Not Found")
    case 409 => Some("Conflict")
    case 422 => Some("Unprocessable Entity")
    case 500 => Some("Internal Server Error")
    case _ => None
  }

  /** The name-to-number direction, `HttpStatus[name]`. */
  function StatusOf(name: string): (r: Option<int>)
    ensures r.Some? <==> name in {"Bad Request", "Unauthorized", "Forbidden", "Not Found", "Conflict",
                                  "Unprocessable Entity", "Internal Server Error"}
    ensures r.Some? ==> ReasonPhrase(r.value).Some?
  {
    match name
    case "Bad Request" => Some(400)
    case "Unauthorized" => Some(401)
    case "Forbidden" => Some(403)
    case "Not Found" => Some(404)
    case "Conflict" => Some(409)
    case "Unprocessable Entity" => Some(422)
    case "Internal Server Error" => Some(500)
    case _ => None
  }

  /** Looking up a code's phrase and then the phrase's code gives the code back. */
  lemma PhraseRoundTrip(code: int)
    requires ReasonPhrase(code).Some?
    ensures StatusOf(ReasonPhrase(code).value) == Some(code)
  {
  }

  /** Looking up a name's code and then the code's phrase gives the name back. */
  lemma StatusRoundTrip(name: string)
    requires StatusOf(name).Some?
    ensures ReasonPhrase(StatusOf(name).value) == Some(name)
  {
  }
}
