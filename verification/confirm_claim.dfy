/** The `confirm-claim` API route: a request is mapped to a response status and
    body, and a complete POST is forwarded once to the operators' webhook as a
    single embed. The webhook's answer, and the clock that stamps the embed,
    are parameters. */
module ConfirmClaim {
  import opened Wrappers
  import opened JsText
  import opened ClaimRecords

  const EmbedTitle := "New MM2Land Claim"
  const EmbedColor := 5814783
  const RequiredFieldsMessage := "orderNumber, username, email & items are required."
  const WebhookFailedMessage := "Discord webhook failed"
  const InternalErrorMessage := "Internal server error"

  /** The parts of an incoming request the route looks at: the HTTP method
      (`req.method`, here `verb`) and the four body fields. Each may
      be missing (`undefined`). */
  datatype Request = Request(
    verb: Option<string>,
    orderNumber: Option<string>,
    username: Option<string>,
    email: Option<string>,
    items: Option<string>)

  /** `{ success: true }` or `{ message }`. */
  datatype Body = Succeeded | Message(text: string)

  /** Status, the `Allow` header when one is set, and the JSON body. */
  datatype Response = Response(status: int, allow: Option<seq<string>>, body: Body)

  datatype EmbedField = EmbedField(name: string, value: string, inline: bool)

  datatype Embed = Embed(title: string, color: int, fields: seq<EmbedField>, timestamp: string)

  /** The JSON document posted to the webhook: `{ embeds: [...] }`. */
  datatype Payload = Payload(embeds: seq<Embed>)

  /** How the single webhook delivery attempt ends: an ok response, a non-ok
      response (whose text may or may not be readable), or a thrown error. */
  datatype WebhookOutcome = Delivered | Refused(textReadable: bool) | Threw

  /** The response together with the webhook posts the route made, in order. */
  datatype Handled = Handled(response: Response, posts: seq<Payload>)

  /** A POST whose four body fields are all truthy: the only requests that reach the webhook. */
  predicate Admissible(req: Request) {
    req.verb == Some("POST")
    && Present(req.orderNumber) && Present(req.username)
    && Present(req.email) && Present(req.items)
  }

  /** The claim an admissible request carries. */
  function ClaimOf(req: Request): (c: ClaimRecord)
    requires Admissible(req)
    ensures Complete(c)
    ensures Some(c.orderNumber) == req.orderNumber && Some(c.username) == req.username
    ensures Some(c.email) == req.email && Some(c.items) == req.items
  {
    ClaimRecord(req.orderNumber.value, req.username.value, req.email.value, req.items.value)
  }

  /** The one embed describing claim `c`, stamped with the time `now`. */
  function ClaimEmbed(c: ClaimRecord, now: string): (e: Embed) {
    Embed(EmbedTitle, EmbedColor,
      [ EmbedField("Order #", "#" + c.orderNumber, true),
        EmbedField("Roblox Username", c.username, true),
        EmbedField("Email", c.email, true),
        EmbedField("Items", c.items, false) ],
      now)
  }

  /** Reads a claim back out of an embed laid out as `ClaimEmbed` lays it out. */
  function ReadEmbed(e: Embed): (r: Option<ClaimRecord>) {
    if && |e.fields| == 4
       && e.fields[0].name == "Order #" && e.fields[1].name == "Roblox Username"
       && e.fields[2].name == "Email" && e.fields[3].name == "Items"
       && |e.fields[0].value| >= 1 && e.fields[0].value[0] == '#'
    then Some(ClaimRecord(e.fields[0].value[1..], e.fields[1].value, e.fields[2].value, e.fields[3].value))
    else None
  }

  /** The route itself. Guards run in the route's order: method, then fields; only
      then is the payload built and posted. */
  function Handler(req: Request, now: string, outcome: WebhookOutcome): (h: Handled)
    // status codes
    ensures h.response.status in {200, 400, 405, 500}
    // method guard first, with the Allow header section 15.5.6 of RFC 9110 requires on a 405
    ensures h.response.status == 405 <==> req.verb != Some("POST")
    ensures h.response.allow.Some? <==> h.response.status == 405
    ensures h.response.status == 405 ==>
      && h.response.allow == Some(["POST"])
      && h.response.body == Message("Method " + Interpolate(req.verb) + " Not Allowed")
    // field guard second
    ensures h.response.status == 400 <==> req.verb == Some("POST") && !Admissible(req)
    ensures h.response.status == 400 ==> h.response.body == Message(RequiredFieldsMessage)
    // exactly one webhook post for an admissible request, none otherwise
    ensures |h.posts| == (if Admissible(req) then 1 else 0)
    ensures Admissible(req) ==> h.posts[0] == Payload([ClaimEmbed(ClaimOf(req), now)])
    // outcome mapping
    ensures h.response.status == 200 <==> Admissible(req) && outcome == Delivered
    ensures h.response.body == Succeeded <==> h.response.status == 200
    ensures h.response.status == 500 <==> Admissible(req) && outcome != Delivered
    ensures h.response.status == 500 ==>
      h.response.body == Message(if outcome == Refused(true) then WebhookFailedMessage else InternalErrorMessage)
  {
    if req.verb != Some("POST") then
      Handled(Response(405, Some(["POST"]), Message("Method " + Interpolate(req.verb) + " Not Allowed")), [])
    else if !Present(req.orderNumber) || !Present(req.username) || !Present(req.email) || !Present(req.items) then
      Handled(Response(400, None, Message(RequiredFieldsMessage)), [])
    else
      var payload := Payload([ClaimEmbed(ClaimOf(req), now)]);
      var response :=
        match outcome
        case Delivered => Response(200, None, Succeeded)
        // the non-ok branch awaits the response text; if that throws, the catch answers
        case Refused(textReadable) =>
          Response(500, None, Message(if textReadable then WebhookFailedMessage else InternalErrorMessage))
        case Threw => Response(500, None, Message(InternalErrorMessage));
      Handled(response, [payload])
  }

  /** The embed's layout: title, colour, four fields in order with their
      inline flags, the order number behind a '#', the rest verbatim. */
  lemma ClaimEmbedLayout(c: ClaimRecord, now: string)
    ensures var e := ClaimEmbed(c, now);
      && e.title == "New MM2Land Claim" && e.color == 5814783 && e.timestamp == now
      && |e.fields| == 4
      && e.fields[0].name == "Order #" && e.fields[1].name == "Roblox Username"
      && e.fields[2].name == "Email" && e.fields[3].name == "Items"
      && e.fields[0].inline && e.fields[1].inline && e.fields[2].inline && !e.fields[3].inline
      && |e.fields[0].value| == |c.orderNumber| + 1 && e.fields[0].value[0] == '#'
      && e.fields[0].value[1..] == c.orderNumber
      && e.fields[1].value == c.username && e.fields[2].value == c.email && e.fields[3].value == c.items
  {
  }

  /** The embed loses nothing: the claim can be read back from it. */
  lemma ReadClaimEmbed(c: ClaimRecord, now: string)
    ensures ReadEmbed(ClaimEmbed(c, now)) == Some(c)
  {
  }

  /** Hence distinct claims never produce the same embed. */
  lemma ClaimEmbedInjective(c: ClaimRecord, d: ClaimRecord, now: string, later: string)
    requires ClaimEmbed(c, now) == ClaimEmbed(d, later)
    ensures c == d && now == later
  {
    ReadClaimEmbed(c, now);
    ReadClaimEmbed(d, later);
  }

  /** The webhook outcome matters only when the route reaches the webhook: a
      rejected request gets the same answer whatever the outcome would have been. */
  lemma RejectionIgnoresWebhook(req: Request, now: string, later: string, o1: WebhookOutcome, o2: WebhookOutcome)
    requires !Admissible(req)
    ensures Handler(req, now, o1) == Handler(req, later, o2)
    ensures Handler(req, now, o1).posts == []
  {
  }
}
