/** Request payloads of the conversation API: the optional `context`
    dictionary a client sends with `/chat` and `/conversation/start`. */
module Payload {

  datatype Option<+T> = None | Some(value: T)

  /** A JSON value inside the context dictionary. The handlers only ever
      compare a value with a string, so every other JSON value is kept as
      its text. */
  datatype Value = Str(s: string) | NonString(json: string)

  /** The `context` dictionary of a request. */
  type Context = map<string, Value>

  /** `request.context or {}`: a missing (null) context and an empty one both
      become the empty dictionary; any other dictionary is used as sent. */
  function RequestContext(sent: Option<Context>): (ctx: Context)
    ensures sent.None? ==> ctx == map[]
    ensures sent.Some? ==> ctx == sent.value
  {
    match sent
    case None => map[]
    case Some(c) => if |c| == 0 then map[] else c
  }
}
