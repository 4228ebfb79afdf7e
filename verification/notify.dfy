/**
 The notification route (`POST /api/notify`): check the three messaging
 settings, build one flex message summarising the appointment, send it to the
 configured group, and map the messaging service's reply to the route's
 response.
 */
module Notify {

  import opened Optional
  import opened Http

  /** The three settings the route reads from `process.env`. */
  datatype Env = Env(messagingApi: Field, accessToken: Field, groupId: Field)

  /** The guard `!A || !B || !C` passes: none of the three settings is absent or empty. */
  function Configured(env: Env): (ok: bool)
    ensures ok <==> Missing !in {env.messagingApi, env.accessToken, env.groupId}
                    && Present("") !in {env.messagingApi, env.accessToken, env.groupId}
  {
    TruthyIff(env.messagingApi);
    TruthyIff(env.accessToken);
    TruthyIff(env.groupId);
    Truthy(env.messagingApi) && Truthy(env.accessToken) && Truthy(env.groupId)
  }

  // ---------------------------------------------------------------------------
  // The flex message

  datatype Layout = Horizontal | Vertical

  /** A flex component, with the attributes that carry content (wrap, flex, align, margin,
      padding and weight are styling and left out). */
  datatype Component =
    | TextNode(text: string, size: string, color: string)
    | Box(layout: Layout, contents: seq<Component>)
    | Separator

  const LabelColor: string := "#8C8C8C"
  const ValueColor: string := "#444444"

  const NameLabel: string := "ชื่อ-นามสกุล:"
  const NationalIdLabel: string := "เลขบัตรประชาชน:"
  const PhoneLabel: string := "เบอร์โทร:"
  const ServiceLabel: string := "บริการ:"
  const DateLabel: string := "วันที่นัด:"
  const TimeLabel: string := "เวลา:"
  const NotesLabel: string := "หมายเหตุ:"

  /** `createReceiptRow(label, value)`: a horizontal box holding the grey caption and then the value. */
  function ReceiptRow(caption: string, value: string): (row: Component)
    ensures row.Box? && row.layout == Horizontal && |row.contents| == 2
    ensures row.contents[0].TextNode? && row.contents[0].text == caption
    ensures row.contents[1].TextNode? && row.contents[1].text == value
    ensures row.contents[0].color == LabelColor && row.contents[1].color == ValueColor
  {
    Box(Horizontal, [TextNode(caption, "sm", LabelColor), TextNode(value, "sm", ValueColor)])
  }

  /** `` `${firstName} ${lastName}` `` */
  function FullName(p: Payload): string {
    Str(p.firstName) + " " + Str(p.lastName)
  }

  /** The notes box: a vertical box with the notes label and the notes, or a dash. */
  function NotesBox(p: Payload): Component {
    Box(Vertical, [TextNode(NotesLabel, "sm", LabelColor), TextNode(OrDash(p.notes), "sm", ValueColor)])
  }

  /** `bodyContents`: nine entries, separators at positions 3 and 7 only, and every other
      entry a box of a label text and a value text. */
  function BodyRows(p: Payload): (rows: seq<Component>)
    ensures |rows| == 9
    ensures forall i :: 0 <= i < |rows| ==> (rows[i].Separator? <==> i == 3 || i == 7)
    ensures forall i :: 0 <= i < |rows| && !rows[i].Separator? ==>
              && rows[i].Box? && |rows[i].contents| == 2
              && rows[i].contents[0].TextNode? && rows[i].contents[1].TextNode?
  {
    [ ReceiptRow(NameLabel, FullName(p)),
      ReceiptRow(NationalIdLabel, OrDash(p.nationalId)),
      ReceiptRow(PhoneLabel, Str(p.phone)),
      Separator,
      ReceiptRow(ServiceLabel, Str(p.service)),
      ReceiptRow(DateLabel, Str(p.appointmentDate)),
      ReceiptRow(TimeLabel, Str(p.appointmentTime)),
      Separator,
      NotesBox(p) ]
  }

  /** The label of a two-text row, and its value. */
  function RowLabel(c: Component): string {
    if c.Box? && |c.contents| == 2 && c.contents[0].TextNode? then c.contents[0].text else ""
  }

  function RowValue(c: Component): string {
    if c.Box? && |c.contents| == 2 && c.contents[1].TextNode? then c.contents[1].text else ""
  }

  /** The body lists, in this order: name, national ID, phone, a separator, service, date,
      time, a separator and the notes box; each row pairs its label with the matching
      property of the request. */
  lemma BodyRowsInOrder(p: Payload)
    ensures var rows := BodyRows(p);
      && |rows| == 9
      && rows[3] == Separator && rows[7] == Separator
      && RowLabel(rows[0]) == NameLabel && RowValue(rows[0]) == Str(p.firstName) + " " + Str(p.lastName)
      && RowLabel(rows[1]) == NationalIdLabel && RowValue(rows[1]) == OrDash(p.nationalId)
      && RowLabel(rows[2]) == PhoneLabel && RowValue(rows[2]) == Str(p.phone)
      && RowLabel(rows[4]) == ServiceLabel && RowValue(rows[4]) == Str(p.service)
      && RowLabel(rows[5]) == DateLabel && RowValue(rows[5]) == Str(p.appointmentDate)
      && RowLabel(rows[6]) == TimeLabel && RowValue(rows[6]) == Str(p.appointmentTime)
      && RowLabel(rows[8]) == NotesLabel && RowValue(rows[8]) == OrDash(p.notes)
      && rows[8].layout == Vertical
      && forall i :: 0 <= i < 9 && i != 3 && i != 7 && i != 8 ==> rows[i].layout == Horizontal
  {
  }

  /** An empty or absent national ID, or notes, shows as a dash; a present one shows as it is. */
  lemma DashForEmpty(p: Payload)
    ensures !Truthy(p.nationalId) ==> RowValue(BodyRows(p)[1]) == "-"
    ensures Truthy(p.nationalId) ==> RowValue(BodyRows(p)[1]) == p.nationalId.s
    ensures !Truthy(p.notes) ==> RowValue(BodyRows(p)[8]) == "-"
    ensures Truthy(p.notes) ==> RowValue(BodyRows(p)[8]) == p.notes.s
  {
  }

  /** The flex message: alternative text, header, body and footer. */
  datatype FlexMessage = FlexMessage(altText: string, header: Component, body: Component, footer: Component)

  const AltTextPrefix: string := "มีผู้ลงทะเบียนใหม่: "

  /** `flexMessage`; `timestamp` stands for the server clock's `toLocaleString('th-TH')`. */
  function BuildFlex(p: Payload, timestamp: string): (m: FlexMessage)
    ensures m.altText == AltTextPrefix + FullName(p)
    ensures m.body == Box(Vertical, BodyRows(p))
  {
    FlexMessage(
      AltTextPrefix + FullName(p),
      Box(Vertical, [ TextNode("\U{1F496} มีผู้ลงทะเบียนใหม่ค่ะ", "lg", "#FFFFFF"),
                      TextNode("งานส่งเสริมสุขภาพแม่และเด็ก", "sm", "#FFFFFFCC") ]),
      Box(Vertical, BodyRows(p)),
      Box(Vertical, [ Separator,
                      Box(Vertical, [TextNode("ข้อมูล ณ วันที่: " + timestamp, "xs", LabelColor)]) ]))
  }

  /** The name in the alternative text is the one in the body's first row. */
  lemma AltTextNamesTheBodyRow(p: Payload, timestamp: string)
    ensures var m := BuildFlex(p, timestamp);
      m.altText == AltTextPrefix + RowValue(m.body.contents[0])
  {
  }

  /** `message`: the push request's JSON. */
  datatype PushMessage = PushMessage(to: string, messages: seq<FlexMessage>)

  /** The outbound call: URL, `Authorization` header and JSON body. */
  datatype Outbound = Outbound(url: string, authorization: string, message: PushMessage)

  // ---------------------------------------------------------------------------
  // The handler

  /** How the call to the messaging service settled: a reply whose error body may or may not
      be JSON (it is only read when the status is not ok), or a rejected `fetch`. */
  datatype LineReply = LineReplied(status: int, bodyIsJson: bool) | LineFault

  /** `NextResponse.json({ success, message }, { status })` */
  datatype Response = Response(status: int, success: bool, message: string)

  const NotConfigured: string := "Line API credentials are not configured on the server."
  const SendFailed: string := "Failed to send Line message."
  const Sent: string := "Notification sent successfully."
  const InternalError: string := "Internal Server Error"

  /** What the route did: the call it made, if any, and the response it returned. */
  datatype Outcome = Outcome(call: Option<Outbound>, response: Response)

  /** The route's `POST`. */
  function Handle(env: Env, body: RequestBody, timestamp: string, reply: LineReply): (o: Outcome)
    // configuration guard: no call, a 500
    ensures !Configured(env) ==> o == Outcome(None, Response(500, false, NotConfigured))
    // a call is made exactly when the settings are there and the body parsed
    ensures o.call.Some? <==> Configured(env) && body.Json?
    ensures o.call.Some? ==>
              && o.call.value.url == env.messagingApi.s
              && o.call.value.authorization == "Bearer " + env.accessToken.s
              && o.call.value.message.to == env.groupId.s
              && o.call.value.message.messages == [BuildFlex(body.payload, timestamp)]
    // success exactly when the messaging service answered ok
    ensures o.response.success <==> o.call.Some? && reply.LineReplied? && IsOk(reply.status)
    ensures o.response.success ==> o.response == Response(200, true, Sent)
    // a refusal passes the service's status on, when its error body can be read
    ensures o.call.Some? && reply.LineReplied? && !IsOk(reply.status) ==>
              o.response == (if reply.bodyIsJson then Response(reply.status, false, SendFailed)
                             else Response(500, false, InternalError))
    // an unparsable request or a rejected call is an internal error
    ensures Configured(env) && (body.Malformed? || reply.LineFault?) ==>
              o.response == Response(500, false, InternalError)
    // the response's status and its success flag never disagree
    ensures o.response.success <==> IsOk(o.response.status)
  {
    if !Configured(env) then Outcome(None, Response(500, false, NotConfigured))
    else match body
      case Malformed(_) => Outcome(None, Response(500, false, InternalError))
      case Json(p) =>
        var call := Outbound(env.messagingApi.s, "Bearer " + env.accessToken.s,
                             PushMessage(env.groupId.s, [BuildFlex(p, timestamp)]));
        var response :=
          match reply
          case LineFault => Response(500, false, InternalError)
          case LineReplied(status, bodyIsJson) =>
            if IsOk(status) then Response(200, true, Sent)
            else if bodyIsJson then Response(status, false, SendFailed)
            else Response(500, false, InternalError);
        Outcome(Some(call), response)
  }

}
