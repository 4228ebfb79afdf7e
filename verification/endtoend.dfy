/**
 One submission end to end: the page's submit handler sends the form to both
 routes, each route runs against its own upstream service, and the page reads
 the two responses' statuses. This is where the page's "both ok" test meets
 the routes' status mapping.
 */
module EndToEnd {

  import opened Optional
  import opened Http
  import opened Form
  import Notify
  import SaveToSheet

  /** What became of a page request: the route ran and its response reached the page
      (`Delivered`); the page's `fetch` rejected before the route ran (`Dropped`); or the
      route ran but the page's `fetch` rejected anyway, its response lost (`Lost`). */
  datatype Link = Delivered | Dropped | Lost

  /** Whether the route ran. */
  predicate Reached(link: Link) {
    link != Dropped
  }

  /** The page's state after the submission, the requests it issued, and what each route
      did with the one it received. */
  datatype Trace = Trace(
    state: FormState,
    requests: seq<Request>,
    notify: Option<Notify.Outcome>,
    sheet: Option<SaveToSheet.Outcome>)

  /** What the page's `fetch` settles with for a route's response. */
  function Seen(link: Link, status: int): (r: Reply)
    ensures ReplyOk(r) <==> link == Delivered && IsOk(status)
  {
    match link
    case Delivered => Responded(status)
    case Dropped => Rejected
    case Lost => Rejected
  }

  /** A submission: the page validates and checks consent; if it sends, both routes receive
      the same body and run independently of each other, and the page settles on their
      two statuses. */
  function Run(s: FormState, env: Notify.Env, timestamp: string,
               lineReply: Notify.LineReply, sheetReply: SaveToSheet.SheetReply,
               notifyLink: Link, sheetLink: Link): (t: Trace)
    ensures t.requests != [] <==> MaySend(s)
    ensures t.state.data == s.data
    ensures t.notify.Some? <==> MaySend(s) && Reached(notifyLink)
    ensures t.sheet.Some? <==> MaySend(s) && Reached(sheetLink)
    ensures MaySend(s) ==> !t.state.isLoading
  {
    var begun := BeginSubmit(s);
    if begun.requests == [] then Trace(begun.state, [], None, None)
    else
      var body := Json(Encode(s.data));
      var n := Notify.Handle(env, body, timestamp, lineReply);
      var k := SaveToSheet.Handle(SaveToSheet.ScriptUrl, body, sheetReply);
      var state := Settle(begun.state, Seen(notifyLink, n.response.status), Seen(sheetLink, k.response.status));
      Trace(state,
            begun.requests,
            if Reached(notifyLink) then Some(n) else None,
            if Reached(sheetLink) then Some(k) else None)
  }

  /** Everything that must go right for the page to show success. */
  predicate AllWentRight(s: FormState, env: Notify.Env,
                         lineReply: Notify.LineReply, sheetReply: SaveToSheet.SheetReply,
                         notifyLink: Link, sheetLink: Link) {
    && MaySend(s)
    && notifyLink == Delivered && sheetLink == Delivered
    && Notify.Configured(env)
    && lineReply.LineReplied? && IsOk(lineReply.status)
    && SaveToSheet.ScriptSucceeded(sheetReply)
  }

  /** From the editing form, the page reports success exactly when the form validates, consent
      is given, both requests arrive, the messaging settings are there, the messaging service
      answers ok, and the spreadsheet script answers ok with `result: 'success'`. */
  lemma SuccessIffAllWentRight(s: FormState, env: Notify.Env, timestamp: string,
                               lineReply: Notify.LineReply, sheetReply: SaveToSheet.SheetReply,
                               notifyLink: Link, sheetLink: Link)
    requires Editing(s)
    ensures Run(s, env, timestamp, lineReply, sheetReply, notifyLink, sheetLink).state.isSubmitted
            <==> AllWentRight(s, env, lineReply, sheetReply, notifyLink, sheetLink)
  {
    if MaySend(s) {
      SaveToSheet.ShippedUrlIsConfigured();
      var body := Json(Encode(s.data));
      var n := Notify.Handle(env, body, timestamp, lineReply);
      var k := SaveToSheet.Handle(SaveToSheet.ScriptUrl, body, sheetReply);
      assert IsOk(k.response.status) <==> SaveToSheet.ScriptSucceeded(sheetReply);
      assert IsOk(n.response.status) <==> Notify.Configured(env) && lineReply.LineReplied? && IsOk(lineReply.status);
    }
  }

  /** A failed submission keeps what the user typed and shows only the generic message, so
      the same form can be sent again. */
  lemma FailureKeepsForm(s: FormState, env: Notify.Env, timestamp: string,
                         lineReply: Notify.LineReply, sheetReply: SaveToSheet.SheetReply,
                         notifyLink: Link, sheetLink: Link)
    requires Editing(s) && MaySend(s)
    requires !AllWentRight(s, env, lineReply, sheetReply, notifyLink, sheetLink)
    ensures var t := Run(s, env, timestamp, lineReply, sheetReply, notifyLink, sheetLink);
      t.state == s.(error := GenericFailure)
  {
    SuccessIffAllWentRight(s, env, timestamp, lineReply, sheetReply, notifyLink, sheetLink);
  }

  /** The storage route forwards the form whatever the notification route does: there is no
      short circuit between the two. */
  lemma StorageRunsRegardless(s: FormState, env: Notify.Env, timestamp: string,
                              lineReply: Notify.LineReply, sheetReply: SaveToSheet.SheetReply,
                              notifyLink: Link)
    ensures MaySend(s) ==>
      var t := Run(s, env, timestamp, lineReply, sheetReply, notifyLink, Delivered);
      && t.sheet.Some?
      && t.sheet.value.call == Some(SaveToSheet.Call(SaveToSheet.ScriptUrl, Encode(s.data)))
  {
    SaveToSheet.ShippedUrlIsConfigured();
  }

  /** A submission can fail on the page while the row was stored: with the messaging settings
      missing, the script still saves, so sending the form again stores it twice. */
  lemma FailedSubmissionMayStillStore(s: FormState, env: Notify.Env, timestamp: string,
                                      lineReply: Notify.LineReply, sheetReply: SaveToSheet.SheetReply,
                                      notifyLink: Link)
    requires !Notify.Configured(env) && SaveToSheet.ScriptSucceeded(sheetReply)
    ensures Editing(s) && MaySend(s) ==>
      var t := Run(s, env, timestamp, lineReply, sheetReply, notifyLink, Delivered);
      && !t.state.isSubmitted
      && t.sheet.Some? && t.sheet.value.response.body.Saved?
  {
    if Editing(s) && MaySend(s) {
      SaveToSheet.ShippedUrlIsConfigured();
      SuccessIffAllWentRight(s, env, timestamp, lineReply, sheetReply, notifyLink, Delivered);
    }
  }

  /** The same happens when everything upstream succeeds but the storage route's response never
      reaches the page: the row is saved and the page reports failure. */
  lemma LostResponseMayStillStore(s: FormState, env: Notify.Env, timestamp: string,
                                  lineReply: Notify.LineReply, sheetReply: SaveToSheet.SheetReply,
                                  notifyLink: Link)
    requires SaveToSheet.ScriptSucceeded(sheetReply)
    ensures Editing(s) && MaySend(s) ==>
      var t := Run(s, env, timestamp, lineReply, sheetReply, notifyLink, Lost);
      && !t.state.isSubmitted && t.state.error == GenericFailure
      && t.sheet.Some? && t.sheet.value.response.body.Saved?
  {
    if Editing(s) && MaySend(s) {
      SaveToSheet.ShippedUrlIsConfigured();
      SuccessIffAllWentRight(s, env, timestamp, lineReply, sheetReply, notifyLink, Lost);
    }
  }

}
