/** What happens when the user keeps using the page while "Next Step" or
    "That's Me" waits for its answers. The page's inputs and its "Go Back"
    button stay live while loading; the requests go out with the values the
    click captured; the answers are applied to the page as it is when they
    arrive. */
module ClaimRaces {
  import opened Wrappers
  import opened ClaimRecords
  import opened ClaimPage
  import opened ClaimSession
  import ConfirmClaim

  /** The view's gating as the page has it: only "Next Step" and "That's Me"
      carry `disabled={loading}`; the three inputs and "Go Back" do not. */
  predicate OfferedAsWritten(s: PageState, a: Action) {
    match a
    case TypeEmail(_) => s.step == 1
    case TypeOrderNumber(_) => s.step == 1
    case TypeUsername(_) => s.step == 1
    case PressNext(_, _) => s.step == 1 && !s.loading
    case PressGoBack => s.step == 2
    case PressConfirm(_) => s.step == 2 && !s.loading
  }

  /** While a request is in flight the page still offers every input on
      step 1 and "Go Back" on step 2; only the two submitting buttons are off. */
  lemma LiveWhileLoading(s: PageState, a: Action)
    requires s.loading
    ensures OfferedAsWritten(s, a) <==>
      || (s.step == 1 && (a.TypeEmail? || a.TypeOrderNumber? || a.TypeUsername?))
      || (s.step == 2 && a.PressGoBack?)
    ensures !Offered(s, a)
  {
  }

  /** With nothing in flight the page's gating and the model's agree, so every
      run of whole actions (whose states are settled) is the same under both. */
  lemma GatingsAgreeWhenIdle(s: PageState, a: Action)
    requires Settled(s)
    ensures OfferedAsWritten(s, a) <==> Offered(s, a)
  {
  }

  /** The actions the user takes while a request is in flight, under the
      page's gating (`asWritten`) or the model's. */
  function Meanwhile(s: PageState, actions: seq<Action>, asWritten: bool): (t: Transition)
    decreases |actions|
  {
    if actions == [] then Transition(s, [])
    else
      var offered := if asWritten then OfferedAsWritten(s, actions[0]) else Offered(s, actions[0]);
      var first := if offered then Perform(s, actions[0]) else Transition(s, []);
      var rest := Meanwhile(first.state, actions[1..], asWritten);
      Transition(rest.state, first.calls + rest.calls)
  }

  /** Under either gating, what the user does while a request is in flight
      makes no call of its own and leaves the page loading. */
  lemma {:induction false} LoadingHolds(s: PageState, actions: seq<Action>, asWritten: bool)
    requires s.loading
    ensures Meanwhile(s, actions, asWritten).calls == []
    ensures Meanwhile(s, actions, asWritten).state.loading
    decreases |actions|
  {
    if actions != [] {
      var a := actions[0];
      var offered := if asWritten then OfferedAsWritten(s, a) else Offered(s, a);
      var first := if offered then Perform(s, a) else Transition(s, []);
      assert first.calls == [] && first.state.loading by {
        if offered {
          LiveWhileLoading(s, a);
        }
      }
      LoadingHolds(first.state, actions[1..], asWritten);
    }
  }

  /** "Next Step" on filled fields, with `meanwhile` taken before the answers
      arrive. The requests go out with the values the click captured, so the
      calls are those of the atomic `NextStep` whatever happens meanwhile; and
      once both answers are good the page moves to step 2 whatever it holds. */
  function NextAmid(s: PageState, meanwhile: seq<Action>, order: OrderResult, profile: ProfileResult, asWritten: bool): (t: Transition)
    requires !FieldsMissing(s)
    ensures t.calls == NextStep(s, order, profile).calls
    ensures !t.state.loading
    ensures OrderAccepted(order) && ProfileFound(profile) ==>
      t.state.step == 2 && Some(t.state.avatarUrl) == profile.avatarUrl
  {
    LoadingHolds(BeginNext(s), meanwhile, asWritten);
    var during := Meanwhile(BeginNext(s), meanwhile, asWritten);
    var settle := SettleNext(during.state, s, order, profile);
    Transition(settle.state, during.calls + settle.calls)
  }

  /** "That's Me", with `meanwhile` taken before the outcome arrives. The
      claim sent is the one the click captured, and a delivery moves the page
      to step 3 whatever step it is on by then. */
  function ConfirmAmid(s: PageState, meanwhile: seq<Action>, sent: SendResult, asWritten: bool): (t: Transition)
    ensures t.calls == [SendClaim(RecordOf(s), sent)]
    ensures !t.state.loading
    ensures sent == Delivered ==> t.state.step == 3
  {
    LoadingHolds(BeginConfirm(s), meanwhile, asWritten);
    var during := Meanwhile(BeginConfirm(s), meanwhile, asWritten);
    var settle := SettleConfirm(during.state, s, sent);
    Transition(settle.state, during.calls + settle.calls)
  }

  /** Under the model's gating nothing the user does while loading has an effect. */
  lemma {:induction false} QuietWhileLoading(s: PageState, actions: seq<Action>)
    requires s.loading
    ensures Meanwhile(s, actions, false) == Transition(s, [])
    decreases |actions|
  {
    if actions != [] {
      QuietWhileLoading(s, actions[1..]);
    }
  }

  /** Corrected "Next Step": with the inputs inert while loading, whatever the
      user tries meanwhile, the outcome is the atomic `NextStep`, so the page
      reaches step 2 holding exactly the fields the two services accepted. */
  lemma NextAmidCorrected(s: PageState, meanwhile: seq<Action>, order: OrderResult, profile: ProfileResult)
    requires !FieldsMissing(s)
    ensures NextAmid(s, meanwhile, order, profile, false) == NextStep(s, order, profile)
    ensures var t := NextAmid(s, meanwhile, order, profile, false);
      t.state.step == 2 && s.step == 1 ==>
        && t.calls[0] == ValidateOrder(t.state.orderNumber, t.state.email, order) && OrderAccepted(order)
        && t.calls[1] == LookupUser(t.state.username, profile) && ProfileFound(profile)
  {
    QuietWhileLoading(BeginNext(s), meanwhile);
    assert [] + SettleNext(BeginNext(s), s, order, profile).calls == SettleNext(BeginNext(s), s, order, profile).calls;
  }

  /** Corrected "That's Me": with "Go Back" and the inputs inert while
      loading, the outcome is the atomic `ConfirmIdentity`. */
  lemma ConfirmAmidCorrected(s: PageState, meanwhile: seq<Action>, sent: SendResult)
    ensures ConfirmAmid(s, meanwhile, sent, false) == ConfirmIdentity(s, sent)
  {
    QuietWhileLoading(BeginConfirm(s), meanwhile);
    assert [] + SettleConfirm(BeginConfirm(s), s, sent).calls == SettleConfirm(BeginConfirm(s), s, sent).calls;
  }

  /** As written: editing the order number while the order check is pending.
      Both services accept the captured `o1`, the page reaches step 2 holding
      `o2`, and "That's Me" then submits `o2`, which no order check saw. */
  lemma EditDuringOrderCheck(o1: string, o2: string, email: string, user: string, avatar: string)
    requires o1 != "" && o2 != "" && o1 != o2 && email != "" && user != "" && avatar != ""
    ensures var s := PageState(o1, email, user, "", 1, false, "");
      var order := OrderResult(true, true, None);
      var profile := ProfileResult(true, Some(avatar));
      var t := NextAmid(s, [TypeOrderNumber(o2)], order, profile, true);
      var submit := ConfirmIdentity(t.state, Delivered);
      && t.state.step == 2 && t.state.orderNumber == o2
      && t.calls == [ValidateOrder(o1, email, order), LookupUser(user, profile)]
      && submit.calls == [SendClaim(ClaimRecord(o2, user, email, "Claim Bundle"), Delivered)]
      && !Checked(t.calls + submit.calls, |t.calls|, o2, email, user)
  {
    var s := PageState(o1, email, user, "", 1, false, "");
    assert [TypeOrderNumber(o2)][1..] == [];
    var edited := BeginNext(s).(orderNumber := o2);
    assert Perform(BeginNext(s), TypeOrderNumber(o2)) == Transition(edited, []);
    assert Meanwhile(BeginNext(s), [TypeOrderNumber(o2)], true) == Transition(edited, []);
  }

  /** As written: going back while a submission is pending. The page is on
      step 1, the user changes the order number, the delivery lands, and the
      page jumps from step 1 to step 3 holding an order number other than the
      one it submitted. */
  lemma GoBackDuringSubmit(s: PageState, o2: string)
    requires Settled(s) && s.step == 2 && o2 != s.orderNumber
    ensures var mid := Meanwhile(BeginConfirm(s), [PressGoBack, TypeOrderNumber(o2)], true);
      var t := ConfirmAmid(s, [PressGoBack, TypeOrderNumber(o2)], Delivered, true);
      && mid.state.step == 1
      && t.state.step == 3
      && t.calls == [SendClaim(RecordOf(s), Delivered)]
      && t.state.orderNumber == o2 != t.calls[0].record.orderNumber
  {
    var acts := [PressGoBack, TypeOrderNumber(o2)];
    var b := BeginConfirm(s);
    assert acts[1..] == [TypeOrderNumber(o2)] && acts[1..][1..] == [];
    assert Meanwhile(b.(step := 1), acts[1..], true) == Transition(b.(step := 1, orderNumber := o2), []);
  }

  /** As written: clearing the order number while the order check is pending.
      Both answers are good, so the page reaches step 2 with an empty field,
      a state no run of whole actions reaches; "That's Me" then posts a claim
      the API route turns away with 400, and the page can only report that
      the claim failed. */
  lemma ClearDuringOrderCheck(o1: string, email: string, user: string, avatar: string, now: string, outcome: ConfirmClaim.WebhookOutcome)
    requires o1 != "" && email != "" && user != "" && avatar != ""
    ensures var s := PageState(o1, email, user, "", 1, false, "");
      var t := NextAmid(s, [TypeOrderNumber("")], OrderResult(true, true, None), ProfileResult(true, Some(avatar)), true);
      var record := RecordOf(t.state);
      && t.state.step == 2 && t.state.orderNumber == "" && !Settled(t.state)
      && record == ClaimRecord("", user, email, "Claim Bundle")
      && ConfirmClaim.Handler(PostOf(record), now, outcome).response.status == 400
      && ConfirmIdentity(t.state, NotOk).state.step == 2
      && ConfirmIdentity(t.state, NotOk).state.error == "Failed to confirm claim."
  {
  }
}
