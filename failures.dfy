/**
 * The library's exception classes as error values, and the JSON values that
 * the device exchanges, as `json_decode` hands them over.
 */
module Failures {

  datatype Option<+T> = None | Some(value: T)

  /**
   * One value per exception kind the library raises. `TypeError` stands for
   * the failures PHP itself raises under strict typing (a missing table key
   * passed on as null, a value of the wrong type reaching a typed parameter).
   */
  datatype Error =
    | NoResponse                         // HttpNoResponseException
    | AuthRequired                       // HttpAuthRequiredException
    | InvalidResponse                    // InvalidResponseException
    | RequestNotOk(code: Option<int>)    // RequestNotOkException, with the device's err code if sent
    | PasswordTimeout                    // PasswordTimeoutException
    | InvalidParameter(given: string)    // InvalidParameterException, naming the rejected value
    | TypeError

  datatype Result<+T> = Ok(value: T) | Err(error: Error)

  /** A decoded JSON value; numbers are integers. */
  datatype Json =
    | JNull
    | JBool(b: bool)
    | JInt(i: int)
    | JString(s: string)
    | JArray(items: seq<Json>)
    | JObject(fields: map<string, Json>)

  /** PHP truthiness of a value `json_decode` returns; a decoded object is always truthy. */
  predicate Truthy(j: Json) {
    match j
    case JNull => false
    case JBool(b) => b
    case JInt(i) => i != 0
    case JString(s) => s != "" && s != "0"
    case JArray(items) => items != []
    case JObject(_) => true
  }
}
