/** The claim page's state and its three transitions. Each transition is a
    pure function from the page state and the outcomes of the external calls
    it makes to the next state and the list of calls it made, in order. */
module ClaimPage {
  import opened Wrappers
  import opened JsText
  import opened ClaimRecords

  const MissingFieldsMessage := "Please fill out all fields."
  const OrderCheckFailedMessage := "Order check failed."
  const UserNotFoundMessage := "Roblox user not found."
  const ConfirmFailedMessage := "Failed to confirm claim."
  const BundleLabel := "Claim Bundle"

  /** The page's step, typed `1|2|3`: 1 enter details, 2 confirm the user, 3 final step. */
  type StepNo = n: int | 1 <= n <= 3 witness 1

  /** The page's state hooks (the hydration flag `mounted` aside). */
  datatype PageState = PageState(
    orderNumber: string,
    email: string,
    username: string,
    avatarUrl: string,
    step: StepNo,
    loading: bool,
    error: string)

  /** The state the page mounts with: every field empty, step 1. */
  const Initial := PageState("", "", "", "", 1, false, "")

  /** The order check's answer: the response's `ok`, the body's `valid` and
      its optional `message`. */
  datatype OrderResult = OrderResult(ok: bool, valid: bool, message: Option<string>)

  /** The profile lookup's answer: the response's `ok` and the body's optional `avatarUrl`. */
  datatype ProfileResult = ProfileResult(ok: bool, avatarUrl: Option<string>)

  /** How the claim submission ends: an ok response, a non-ok response, or a
      thrown error carrying its message. */
  datatype SendResult = Delivered | NotOk | Threw(message: string)

  /** The external requests the page makes, each with the answer it got. */
  datatype Call =
    | ValidateOrder(orderNumber: string, email: string, verdict: OrderResult)
    | LookupUser(username: string, found: ProfileResult)
    | SendClaim(record: ClaimRecord, sent: SendResult)

  datatype Transition = Transition(state: PageState, calls: seq<Call>)

  /** Some input field is empty. Nothing is trimmed: a field of spaces is filled. */
  predicate FieldsMissing(s: PageState) {
    s.email == "" || s.orderNumber == "" || s.username == ""
  }

  /** The order check lets the claim proceed. */
  predicate OrderAccepted(order: OrderResult) {
    order.ok && order.valid
  }

  /** The lookup found a profile with an avatar. */
  predicate ProfileFound(profile: ProfileResult) {
    profile.ok && Present(profile.avatarUrl)
  }

  /** The identity fields are the same in both states. */
  predicate SameFields(s: PageState, t: PageState) {
    s.orderNumber == t.orderNumber && s.email == t.email && s.username == t.username
  }

  /** The claim the page submits from state `s`. */
  function RecordOf(s: PageState): (r: ClaimRecord)
    ensures r.orderNumber == s.orderNumber && r.username == s.username && r.email == s.email
    ensures r.items == "Claim Bundle"
    ensures Complete(r) <==> !FieldsMissing(s)
  {
    ClaimRecord(s.orderNumber, s.username, s.email, BundleLabel)
  }

  /** What "Next Step" does synchronously once the fields are filled: it
      marks the page busy and clears the error before its first request. */
  function BeginNext(s: PageState): (b: PageState)
  {
    s.(loading := true, error := "")
  }

  /** The rest of "Next Step", after its requests were made with the fields of
      `asked` (the values the click captured): the answers are applied to the
      page as it is by then, `now`. */
  function SettleNext(now: PageState, asked: PageState, order: OrderResult, profile: ProfileResult): (t: Transition)
    ensures SameFields(now, t.state) && !t.state.loading
    ensures |t.calls| == (if OrderAccepted(order) then 2 else 1)
    ensures t.calls == [ValidateOrder(asked.orderNumber, asked.email, order), LookupUser(asked.username, profile)][..|t.calls|]
    ensures t.state.step == 2 <==> now.step == 2 || (OrderAccepted(order) && ProfileFound(profile))
    ensures t.state.step == 2 && now.step != 2 ==> |t.calls| == 2
    // a failed order check: its message or the fallback, no lookup, the avatar kept
    ensures !OrderAccepted(order) ==>
      && |t.calls| == 1 && t.state.step == now.step && t.state.avatarUrl == now.avatarUrl
      && t.state.error == (if Present(order.message) then order.message.value else "Order check failed.")
    // a failed lookup: the fixed message, the avatar kept
    ensures OrderAccepted(order) && !ProfileFound(profile) ==>
      && |t.calls| == 2 && t.state.step == now.step && t.state.avatarUrl == now.avatarUrl
      && t.state.error == "Roblox user not found."
    // both accepted: step 2 showing the looked-up avatar, the error as it is by then
    ensures OrderAccepted(order) && ProfileFound(profile) ==>
      && t.state.step == 2 && Some(t.state.avatarUrl) == profile.avatarUrl && t.state.error == now.error
  {
    var validate := ValidateOrder(asked.orderNumber, asked.email, order);
    if !order.ok || !order.valid then
      Transition(now.(error := Or(order.message, OrderCheckFailedMessage), loading := false), [validate])
    else
      var lookup := LookupUser(asked.username, profile);
      if !profile.ok || !Present(profile.avatarUrl) then
        Transition(now.(error := UserNotFoundMessage, loading := false), [validate, lookup])
      else
        var shown := now.(avatarUrl := profile.avatarUrl.value);
        Transition(shown.(step := 2, loading := false), [validate, lookup])
  }

  /** "Next Step": check the fields, then the order, then the profile; each
      failure stops the sequence where it is. Nothing happens between the
      click and the answers here; see `ClaimRaces` for what can. */
  function NextStep(s: PageState, order: OrderResult, profile: ProfileResult): (t: Transition)
    // the identity fields are never changed, and the calls are a prefix of validate-then-lookup
    ensures SameFields(s, t.state)
    ensures |t.calls| <= 2
    ensures t.calls == [ValidateOrder(s.orderNumber, s.email, order), LookupUser(s.username, profile)][..|t.calls|]
    // an empty field: the message is shown and nothing else happens
    ensures FieldsMissing(s) ==>
      && t.calls == []
      && t.state.error == "Please fill out all fields."
      && t.state.step == s.step && t.state.loading == s.loading && t.state.avatarUrl == s.avatarUrl
    // a failed order check: its message or the fallback, and no lookup
    ensures !FieldsMissing(s) && !OrderAccepted(order) ==>
      && |t.calls| == 1
      && t.state.error == (if Present(order.message) then order.message.value else "Order check failed.")
      && t.state.step == s.step && !t.state.loading && t.state.avatarUrl == s.avatarUrl
    // a failed lookup: the avatar is kept
    ensures !FieldsMissing(s) && OrderAccepted(order) && !ProfileFound(profile) ==>
      && |t.calls| == 2
      && t.state.error == "Roblox user not found."
      && t.state.step == s.step && !t.state.loading && t.state.avatarUrl == s.avatarUrl
    // both checks pass: step 2 showing the looked-up avatar
    ensures !FieldsMissing(s) && OrderAccepted(order) && ProfileFound(profile) ==>
      && |t.calls| == 2
      && Some(t.state.avatarUrl) == profile.avatarUrl
      && t.state.step == 2 && t.state.error == "" && !t.state.loading
  {
    if s.email == "" || s.orderNumber == "" || s.username == "" then
      Transition(s.(error := MissingFieldsMessage), [])
    else
      SettleNext(BeginNext(s), s, order, profile)
  }

  /** "Go Back": step 1 again; the avatar and everything else is kept. */
  function GoBack(s: PageState): (t: Transition)
    ensures t.state.step == 1 && t.calls == []
    ensures SameFields(s, t.state)
    ensures t.state.avatarUrl == s.avatarUrl && t.state.error == s.error && t.state.loading == s.loading
  {
    Transition(s.(step := 1), [])
  }

  /** What "That's Me" does synchronously: busy, error cleared, then the request. */
  function BeginConfirm(s: PageState): (b: PageState)
  {
    s.(loading := true, error := "")
  }

  /** The rest of "That's Me": the claim built from `asked` (the fields the
      click captured) was sent, and its outcome is applied to the page as it is
      by then, `now`. */
  function SettleConfirm(now: PageState, asked: PageState, sent: SendResult): (t: Transition)
    ensures t.calls == [SendClaim(RecordOf(asked), sent)]
    ensures SameFields(now, t.state) && t.state.avatarUrl == now.avatarUrl && !t.state.loading
    ensures t.state.step == (if sent == Delivered then 3 else now.step)
    ensures sent == Delivered ==> t.state.error == now.error
    ensures sent == NotOk ==> t.state.error == "Failed to confirm claim."
    ensures sent.Threw? ==> t.state.error == sent.message
  {
    var submit := SendClaim(RecordOf(asked), sent);
    // a non-ok response is turned into a thrown error with the fixed message
    var settled :=
      match sent
      case Delivered => now.(step := 3)
      case NotOk => now.(error := ConfirmFailedMessage)
      case Threw(message) => now.(error := message);
    // `finally`
    Transition(settled.(loading := false), [submit])
  }

  /** "That's Me": one submission of the claim built from the current fields;
      success moves to step 3, failure keeps the step so it can be retried. */
  function ConfirmIdentity(s: PageState, sent: SendResult): (t: Transition)
    ensures t.calls == [SendClaim(ClaimRecord(s.orderNumber, s.username, s.email, "Claim Bundle"), sent)]
    ensures SameFields(s, t.state) && t.state.avatarUrl == s.avatarUrl
    ensures !t.state.loading
    ensures t.state.step == (if sent == Delivered then 3 else s.step)
    ensures sent == Delivered ==> t.state.error == ""
    ensures sent == NotOk ==> t.state.error == "Failed to confirm claim."
    ensures sent.Threw? ==> t.state.error == sent.message
  {
    SettleConfirm(BeginConfirm(s), s, sent)
  }

  /** "Next Step" succeeds exactly when the fields are filled, the order is
      accepted and the profile is found; otherwise the step does not move. */
  lemma NextStepAdvancesIff(s: PageState, order: OrderResult, profile: ProfileResult)
    requires s.step == 1
    ensures NextStep(s, order, profile).state.step == 2
        <==> !FieldsMissing(s) && OrderAccepted(order) && ProfileFound(profile)
    ensures NextStep(s, order, profile).state.step != 2 ==> NextStep(s, order, profile).state.step == 1
  {
  }

  /** The lookup is made exactly when the fields are filled and the order is accepted. */
  lemma LookupIff(s: PageState, order: OrderResult, profile: ProfileResult)
    ensures LookupUser(s.username, profile) in NextStep(s, order, profile).calls
        <==> !FieldsMissing(s) && OrderAccepted(order)
  {
  }

  /** Going back after a successful "Next Step" and pressing it again with the
      same answers lands on the very same step-2 state. */
  lemma GoBackThenNextStep(s: PageState, order: OrderResult, profile: ProfileResult)
    requires !FieldsMissing(s) && OrderAccepted(order) && ProfileFound(profile)
    ensures var ahead := NextStep(s, order, profile).state;
      NextStep(GoBack(ahead).state, order, profile).state == ahead
  {
  }

  /** A failed submission followed by a successful retry sends the same claim
      twice and ends on step 3. */
  lemma ConfirmRetry(s: PageState, failure: SendResult)
    requires s.step == 2 && failure != Delivered
    ensures var first := ConfirmIdentity(s, failure);
      var second := ConfirmIdentity(first.state, Delivered);
      && first.state.step == 2
      && second.state.step == 3 && second.state.error == ""
      && second.calls[0].record == first.calls[0].record
  {
  }
}
