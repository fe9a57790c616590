/**
 * The one-shot path (`handle_normal_chat`): the provider's complete answer
 * becomes `{success, response, usage}`; any exception becomes `{error}` with
 * status 500.
 */
module Composer {
  import opened Wrappers
  import opened Json
  import opened Responses

  /** The provider's token counts, reported verbatim. */
  datatype Usage = Usage(promptTokens: int, completionTokens: int, totalTokens: int)

  /** What the provider's one-shot call does: it answers with the first
      choice's message content (None when the message has no text) and the
      usage counts, or it raises an exception whose text is `message`. */
  datatype Completion =
    | Answer(content: Option<string>, usage: Usage)
    | Raised(message: string)

  function UsageObject(u: Usage): (v: Value)
    ensures ReadUsage(v) == Some(u)
    ensures v.Obj? && v.fields.Keys == {"prompt_tokens", "completion_tokens", "total_tokens"}
  {
    Obj(map[
      "prompt_tokens" := Int(u.promptTokens),
      "completion_tokens" := Int(u.completionTokens),
      "total_tokens" := Int(u.totalTokens)])
  }

  /** The reply of the one-shot path. */
  function NormalReply(result: Completion): (r: Reply)
    ensures r.body.JsonBody?
    ensures r.status == 200 <==> result.Answer?
    ensures result.Answer? ==> ReadAnswer(r.body.value) == Some(result)
    ensures result.Answer? ==> r.body.value.Obj? && r.body.value.fields.Keys == {"success", "response", "usage"}
    ensures result.Raised? ==> r.body.value.Obj? && r.body.value.fields.Keys == {"error"}
    ensures result.Raised? ==>
      r.status == 500 && ReadAnswer(r.body.value) == None && ErrorText(r.body.value) == Some(result.message)
  {
    match result
    case Answer(content, usage) =>
      var response := match content case Some(text) => Str(text) case None => Null;
      Reply(200, JsonBody(Obj(map["success" := Bool(true), "response" := response, "usage" := UsageObject(usage)])))
    case Raised(message) =>
      Reply(500, JsonBody(ErrorObject(message)))
  }

  /** How a client reads a successful one-shot reply: `success` is true, the
      text (or null) and the three integer counts. */
  function ReadAnswer(v: Value): Option<Completion> {
    if !v.Obj? then None
    else
      var m := v.fields;
      if "success" !in m || m["success"] != Bool(true) || "response" !in m || "usage" !in m then None
      else
        var content: Option<Option<string>> :=
          match m["response"] case Str(text) => Some(Some(text)) case Null => Some(None) case _ => None;
        match (content, ReadUsage(m["usage"]))
        case (Some(c), Some(u)) => Some(Answer(c, u))
        case _ => None
  }

  function ReadUsage(v: Value): Option<Usage> {
    if !v.Obj? then None
    else
      var m := v.fields;
      if "prompt_tokens" in m && m["prompt_tokens"].Int?
        && "completion_tokens" in m && m["completion_tokens"].Int?
        && "total_tokens" in m && m["total_tokens"].Int?
      then Some(Usage(m["prompt_tokens"].i, m["completion_tokens"].i, m["total_tokens"].i))
      else None
  }

  /** The one-shot example: text "hello" with usage 5, 1 and 6. */
  lemma HelloAnswer()
    ensures NormalReply(Answer(Some("hello"), Usage(5, 1, 6))) ==
      Reply(200, JsonBody(Obj(map[
        "success" := Bool(true),
        "response" := Str("hello"),
        "usage" := Obj(map["prompt_tokens" := Int(5), "completion_tokens" := Int(1), "total_tokens" := Int(6)])])))
  {
  }
}
