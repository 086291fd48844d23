/** Values shared by every part of the model: optional values, JavaScript
    truthiness of strings, JSON values, the replies of the backend services
    and the `getUserId` middleware those services share. */
module Common {

  datatype Option<T> = None | Some(value: T)

  /** A JavaScript value that is either absent (undefined or null) or a string
      is truthy exactly when it is a non-empty string. */
  predicate Truthy(x: Option<string>) {
    x.Some? && x.value != ""
  }

  /** The value of a header, if the request carries it. */
  function Header(headers: map<string, string>, name: string): Option<string> {
    if name in headers then Some(headers[name]) else None
  }

  /** JSON values as sent and received by the services. */
  datatype Json =
    | JNull
    | JBool(b: bool)
    | JNum(n: int)
    | JStr(s: string)
    | JArr(items: seq<Json>)
    | JObj(fields: map<string, Json>)

  /** `{ error: message }`, the error envelope used throughout the suite. */
  function ErrorEnvelope(message: string): (j: Json)
    ensures j.JObj? && j.fields.Keys == {"error"} && j.fields["error"] == JStr(message)
  {
    JObj(map["error" := JStr(message)])
  }

  /** What a handler of a backend service sends: a JSON payload, an
      `{ error }` envelope, or no body at all (`res.status(204).send()`). */
  datatype Body<T> = Payload(value: T) | Error(message: string) | NoBody

  datatype Reply<T> = Reply(status: int, body: Body<T>)

  const MissingUserId := "Identificação de usuário ausente."

  /** The `getUserId` middleware of the notes, whiteboard and tasks services:
      the caller is the value of the trusted `x-user-id` header; a missing or
      empty header stops the request with 401. */
  function GetUserId(headers: map<string, string>): (r: Option<string>)
    ensures r.Some? <==> Truthy(Header(headers, "x-user-id"))
    ensures r.Some? ==> "x-user-id" in headers && r.value == headers["x-user-id"] && r.value != ""
  {
    if "x-user-id" in headers && headers["x-user-id"] != "" then Some(headers["x-user-id"]) else None
  }

  /** The reply every service handler gives when `getUserId` rejects. */
  function Unidentified<T>(): Reply<T> {
    Reply(401, Error(MissingUserId))
  }
}
