/** What the handler gives back to the platform: a status and a body. */
module Responses {
  import opened Wrappers
  import opened Json

  /** `context.res.json(value, status)` or `context.res.send(text, status)`. */
  datatype Body = JsonBody(value: Value) | TextBody(text: string)

  datatype Reply = Reply(status: int, body: Body)

  /** The `{'error': message}` object every failing JSON reply carries. */
  function ErrorObject(message: string): (v: Value)
    ensures ErrorText(v) == Some(message)
  {
    Obj(map["error" := Str(message)])
  }

  /** What a client reads as the error message of a JSON reply, if any. */
  function ErrorText(v: Value): Option<string> {
    if v.Obj? && "error" in v.fields && v.fields["error"].Str? then Some(v.fields["error"].s) else None
  }
}
