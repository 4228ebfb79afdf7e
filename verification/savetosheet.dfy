/**
 The storage route (`POST /api/saveToSheet`): check the spreadsheet script's
 URL, forward the request's object unchanged, and succeed only when the script
 answers ok and reports `result: 'success'`. Every failure is a 500.
 */
module SaveToSheet {

  import opened Optional
  import opened Http

  /** The web-app URL baked into the route. */
  const ScriptUrl: string :=
    "https://script.google.com/macros/s/AKfycbyC3Cuwis99wI5T-XcHn33VR6O4YoQ1Pr-Q8Ae9bkrB2Z1SanSah_jUfNqo6vjxZLpv/exec"

  /** The value the URL held before anyone configured it. */
  const Placeholder: string := "YOUR_WEB_APP_URL_HERE"

  /** The configuration guard `!url || url === placeholder` passes: the URL is neither of the
      two unconfigured values. */
  function UrlConfigured(url: string): (ok: bool)
    ensures ok <==> url !in {"", Placeholder}
  {
    url != "" && url != Placeholder
  }

  /** The script's reply body as `response.json()` and `result.result` see it: reading it threw
      (not JSON, or JSON `null`), with the error's message; or it yielded a value whose
      `result` property is the given field (absent, or a string). */
  datatype ReplyBody = Unreadable(error: string) | Parsed(result: Field)

  /** How the call to the script settled: a reply, or a rejected `fetch` with its message. */
  datatype SheetReply = Replied(status: int, body: ReplyBody) | Fault(error: string)

  /** The script reported success: the reply is ok and its `result` is the string `success`. */
  predicate ScriptSucceeded(reply: SheetReply) {
    reply.Replied? && IsOk(reply.status) && reply.body == Parsed(Present("success"))
  }

  /** The forwarded request: where it went and the object it carried. */
  datatype Call = Call(url: string, payload: Payload)

  /** The route's JSON answer: `{ success: true, data }` or `{ error, details }`. */
  datatype Body = Saved(data: Field) | Failed(error: string, details: Option<string>)

  datatype Response = Response(status: int, body: Body)

  const MissingUrl: string := "Server configuration error: Google Apps Script URL is missing."
  const SubmitFailed: string := "Failed to submit to Google Sheet."
  const NotSaved: string := "Failed to save data to Google Sheet."
  const ScriptError: string := "Google Apps Script reported an error."

  /** What the route did: the call it made, if any, and the response it returned. */
  datatype Outcome = Outcome(call: Option<Call>, response: Response)

  /** The route's `POST`, with the URL as a parameter so that the guard can be stated. */
  function Handle(url: string, body: RequestBody, reply: SheetReply): (o: Outcome)
    // configuration guard: no call, a 500
    ensures !UrlConfigured(url) ==> o == Outcome(None, Response(500, Failed(MissingUrl, None)))
    // the request's object is forwarded unchanged, exactly when there is one to forward
    ensures o.call.Some? <==> UrlConfigured(url) && body.Json?
    ensures o.call.Some? ==> o.call.value == Call(url, body.payload)
    // success exactly when the script answered ok with result 'success'
    ensures o.response.body.Saved? <==> o.call.Some? && ScriptSucceeded(reply)
    ensures o.response.body.Saved? ==> o.response == Response(200, Saved(Present("success")))
    // every failure is a 500, never the script's own status
    ensures o.response.body.Failed? <==> o.response.status == 500
    ensures o.response.status == 200 || o.response.status == 500
    // after the guard, the details say which failure it was
    ensures UrlConfigured(url) && o.response.body.Failed? ==> o.response.body.error == SubmitFailed
    ensures o.call.Some? && reply.Replied? && !IsOk(reply.status) ==>
              o.response.body.details == Some(NotSaved)
    ensures o.call.Some? && reply.Replied? && IsOk(reply.status) && reply.body.Parsed?
            && reply.body.result != Present("success") ==>
              o.response.body.details == Some(ScriptError)
    ensures o.call.Some? && reply.Replied? && IsOk(reply.status) && reply.body.Unreadable? ==>
              o.response.body.details == Some(reply.body.error)
    ensures o.call.Some? && reply.Fault? ==> o.response.body.details == Some(reply.error)
    ensures UrlConfigured(url) && body.Malformed? ==> o.response.body.details == Some(body.error)
  {
    if !UrlConfigured(url) then Outcome(None, Response(500, Failed(MissingUrl, None)))
    else match body
      case Malformed(e) => Outcome(None, Response(500, Failed(SubmitFailed, Some(e))))
      case Json(p) =>
        var thrown: Option<string> :=
          match reply
          case Fault(e) => Some(e)
          case Replied(status, replyBody) =>
            if !IsOk(status) then Some(NotSaved)
            else match replyBody
              case Unreadable(e) => Some(e)
              case Parsed(result) => if result != Present("success") then Some(ScriptError) else None;
        var response :=
          match thrown
          case Some(message) => Response(500, Failed(SubmitFailed, Some(message)))
          case None => Response(200, Saved(Present("success")));
        Outcome(Some(Call(url, p)), response)
  }

  /** The URL the route ships with passes its own guard, so the guard never fires. */
  lemma ShippedUrlIsConfigured()
    ensures UrlConfigured(ScriptUrl)
  {
    assert |ScriptUrl| != |Placeholder|;
  }

}
