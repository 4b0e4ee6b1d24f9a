/** Reading a failed request's status and server message out of the thrown
    HTTP-client error, which is modelled as the JSON-like value it is. */
module ApiError {
  import opened Wrappers
  import opened Json

  datatype ErrorInfo = ErrorInfo(status: Option<real>, message: Option<string>)

  /** `typeof x === 'number'` on a property that may be missing. */
  function NumberField(j: Option<Json>, key: string): (r: Option<real>)
    ensures r.Some? <==> j.Some? && Get(j.value, key).Some? && Get(j.value, key).value.JNum?
  {
    if j.Some? then match Get(j.value, key) case Some(JNum(n)) => Some(n) case _ => None
    else None
  }

  /** `parseApiError`: for an object with a `response` property, the
      response's numeric status and its body's string message, each only
      when it has that type; for anything else, neither. */
  function ParseApiError(error: Json): (r: ErrorInfo)
    ensures !(error.JObj? && "response" in error.fields) ==> r == ErrorInfo(None, None)
    ensures r.status.Some? <==> (error.JObj? && "response" in error.fields
      && Get(error.fields["response"], "status").Some? && Get(error.fields["response"], "status").value.JNum?)
    ensures r.status.Some? ==> Get(error.fields["response"], "status") == Some(JNum(r.status.value))
    ensures r.message.Some? ==> (error.JObj? && "response" in error.fields
      && Get(error.fields["response"], "data").Some?
      && GetString(Get(error.fields["response"], "data").value, "message") == r.message)
    ensures (error.JObj? && "response" in error.fields && Get(error.fields["response"], "data").Some?
      && GetString(Get(error.fields["response"], "data").value, "message").Some?) ==> r.message.Some?
  {
    if error.JObj? && "response" in error.fields then
      var response := error.fields["response"];
      var data := Get(response, "data");
      ErrorInfo(NumberField(Some(response), "status"),
        if data.Some? then GetString(data.value, "message") else None)
    else ErrorInfo(None, None)
  }

  /** The error the HTTP client throws for a server reply with a status
      and a JSON body carrying `message`. */
  function ServerError(status: real, message: string): (e: Json)
    ensures e.JObj? && "response" in e.fields
  {
    JObj(map["message" := JStr("Request failed"),
      "response" := JObj(map["status" := JNum(status), "data" := JObj(map["message" := JStr(message)])])])
  }

  /** The status and message the server sent are what is read back. */
  lemma ServerErrorReadsBack(status: real, message: string)
    ensures ParseApiError(ServerError(status, message)) == ErrorInfo(Some(status), Some(message))
  {
  }

  /** A failure with no server reply (a network error) gives neither. */
  lemma NetworkErrorGivesNothing(message: string)
    ensures ParseApiError(JObj(map["message" := JStr(message)])) == ErrorInfo(None, None)
  {
  }

  /** The text shown when deleting a project fails: the server's message,
      else a fixed one. */
  function DeleteFailureText(error: Json): (r: string)
    ensures ParseApiError(error).message.Some? ==> r == ParseApiError(error).message.value
    ensures ParseApiError(error).message.None? ==> r == "Не удалось удалить проект"
  {
    ParseApiError(error).message.GetOr("Не удалось удалить проект")
  }
}
