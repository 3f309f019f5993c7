/** A session on the claim page: the user's actions, as far as the rendered
    view offers them, applied one after another from the mounted state. The
    properties here hold of whole runs: the step only moves along
    1 -> 2 -> 3 (or back from 2 to 1), step 3 is final, and every claim the
    page submits is complete, was checked first, and is forwarded by the
    API route. */
module ClaimSession {
  import opened Wrappers
  import opened ClaimRecords
  import opened ClaimPage
  import ConfirmClaim

  /** What the user can do: type into one of the three inputs, or press a button.
      Each button press carries the outcomes of the external calls it may make. */
  datatype Action =
    | TypeEmail(value: string)
    | TypeOrderNumber(value: string)
    | TypeUsername(value: string)
    | PressNext(order: OrderResult, profile: ProfileResult)
    | PressGoBack
    | PressConfirm(sent: SendResult)

  /** Whether the view for `s` offers the control `a` uses: the inputs and
      "Next Step" exist on step 1, "Go Back" and "That's Me" on step 2, nothing
      on step 3, and no control acts while a request is in flight. The page
      itself disables only the two submitting buttons while loading; the
      inputs and "Go Back" stay live (see `ClaimRaces.OfferedAsWritten`). Both
      gatings agree on every state a session reaches between actions. */
  predicate Offered(s: PageState, a: Action) {
    match a
    case TypeEmail(_) => s.step == 1 && !s.loading
    case TypeOrderNumber(_) => s.step == 1 && !s.loading
    case TypeUsername(_) => s.step == 1 && !s.loading
    case PressNext(_, _) => s.step == 1 && !s.loading
    case PressGoBack => s.step == 2 && !s.loading
    case PressConfirm(_) => s.step == 2 && !s.loading
  }

  /** The handler a control runs: an input's `onChange` or a button's `onClick`. */
  function Perform(s: PageState, a: Action): (t: Transition)
    // typing sets the typed field to the value and changes nothing else
    ensures a.TypeEmail? ==> t.state.email == a.value && t.state.(email := s.email) == s
    ensures a.TypeOrderNumber? ==> t.state.orderNumber == a.value && t.state.(orderNumber := s.orderNumber) == s
    ensures a.TypeUsername? ==> t.state.username == a.value && t.state.(username := s.username) == s
    ensures a.TypeEmail? || a.TypeOrderNumber? || a.TypeUsername? ==> t.calls == [] && t.state.step == s.step
  {
    match a
    case TypeEmail(v) => Transition(s.(email := v), [])
    case TypeOrderNumber(v) => Transition(s.(orderNumber := v), [])
    case TypeUsername(v) => Transition(s.(username := v), [])
    case PressNext(order, profile) => NextStep(s, order, profile)
    case PressGoBack => GoBack(s)
    case PressConfirm(sent) => ConfirmIdentity(s, sent)
  }

  /** One user action, if the view offers it. The step moves only 1 -> 2,
      2 -> 1 and 2 -> 3; step 3 is inert; past step 1 the identity fields are
      frozen; only the two submitting buttons make calls. */
  function Apply(s: PageState, a: Action): (t: Transition)
    ensures || t.state.step == s.step
            || (s.step == 1 && t.state.step == 2)
            || (s.step == 2 && (t.state.step == 1 || t.state.step == 3))
    ensures s.step == 3 ==> t == Transition(s, [])
    ensures s.step != 1 ==> SameFields(s, t.state)
    ensures t.calls != [] ==> a.PressNext? || a.PressConfirm?
  {
    if Offered(s, a) then Perform(s, a) else Transition(s, [])
  }

  /** The actions applied in order: the final state and every call made, in order. */
  function Run(s: PageState, actions: seq<Action>): (t: Transition)
    decreases |actions|
  {
    if actions == [] then Transition(s, [])
    else
      var first := Apply(s, actions[0]);
      var rest := Run(first.state, actions[1..]);
      Transition(rest.state, first.calls + rest.calls)
  }

  /** What holds of every state a session reaches: nothing is in flight between
      actions, and past step 1 the fields are filled and an avatar is shown. */
  predicate Settled(s: PageState) {
    && !s.loading
    && (s.step != 1 ==> !FieldsMissing(s) && s.avatarUrl != "")
  }

  /** Somewhere before position `n` of `log`, the order check accepted this
      order number and email and, right after, the lookup found this username. */
  ghost predicate Checked(log: seq<Call>, n: int, orderNumber: string, email: string, username: string) {
    exists j :: 0 <= j && j + 1 < n <= |log|
      && log[j].ValidateOrder? && log[j].orderNumber == orderNumber && log[j].email == email
      && OrderAccepted(log[j].verdict)
      && log[j + 1].LookupUser? && log[j + 1].username == username && ProfileFound(log[j + 1].found)
  }

  /** The POST the page makes to the API route for claim `r`. */
  function PostOf(r: ClaimRecord): (req: ConfirmClaim.Request)
    ensures ConfirmClaim.Admissible(req) <==> Complete(r)
  {
    ConfirmClaim.Request(Some("POST"), Some(r.orderNumber), Some(r.username), Some(r.email), Some(r.items))
  }

  /** A single action keeps a state settled. */
  lemma ApplyKeepsSettled(s: PageState, act: Action)
    requires Settled(s)
    ensures Settled(Apply(s, act).state)
  {
  }

  /** Every state reached from a settled state is settled. */
  lemma {:induction false} RunKeepsSettled(s: PageState, actions: seq<Action>)
    requires Settled(s)
    ensures Settled(Run(s, actions).state)
    decreases |actions|
  {
    if actions != [] {
      ApplyKeepsSettled(s, actions[0]);
      RunKeepsSettled(Apply(s, actions[0]).state, actions[1..]);
    }
  }

  /** Step 3 is final: no action changes anything or calls anything. */
  lemma {:induction false} FinalStepIsTerminal(s: PageState, actions: seq<Action>)
    requires s.step == 3
    ensures Run(s, actions) == Transition(s, [])
    decreases |actions|
  {
    if actions != [] {
      FinalStepIsTerminal(s, actions[1..]);
    }
  }

  /** Every claim submitted in `calls` is complete and carries the bundle label. */
  predicate SubmitsComplete(calls: seq<Call>) {
    forall c | c in calls && c.SendClaim? :: Complete(c.record) && c.record.items == "Claim Bundle"
  }

  /** Every claim a session from a settled state submits is complete and
      carries the bundle label. */
  lemma {:induction false} SubmissionsAreComplete(s: PageState, actions: seq<Action>)
    requires Settled(s)
    ensures SubmitsComplete(Run(s, actions).calls)
    decreases |actions|
  {
    if actions != [] {
      var first := Apply(s, actions[0]);
      ApplyKeepsSettled(s, actions[0]);
      SubmissionsAreComplete(first.state, actions[1..]);
      // only "That's Me" submits, and it is offered on step 2 alone
      assert first.calls != [] && first.calls[0].SendClaim? ==> first.calls == [SendClaim(RecordOf(s), actions[0].sent)] && s.step == 2;
    }
  }

  /** Every claim submitted in `calls`, which follow the calls in `log`, was
      checked before it was submitted. */
  ghost predicate SubmitsChecked(log: seq<Call>, calls: seq<Call>) {
    forall i | 0 <= i < |calls| && calls[i].SendClaim? ::
      Checked(log + calls, |log| + i, calls[i].record.orderNumber, calls[i].record.email, calls[i].record.username)
  }

  /** A check found before position `n` is still found before any later
      position of any extension of the log. */
  lemma CheckedGrows(log: seq<Call>, n: int, longer: seq<Call>, m: int, o: string, e: string, u: string)
    requires Checked(log, n, o, e, u)
    requires log <= longer && n <= m <= |longer|
    ensures Checked(longer, m, o, e, u)
  {
  }

  /** One action keeps "past step 1, the current fields were checked". */
  lemma ApplyKeepsChecked(log: seq<Call>, s: PageState, act: Action)
    requires s.step != 1 ==> Checked(log, |log|, s.orderNumber, s.email, s.username)
    ensures var t := Apply(s, act);
      t.state.step != 1 ==> Checked(log + t.calls, |log + t.calls|, t.state.orderNumber, t.state.email, t.state.username)
  {
    var t := Apply(s, act);
    if t.state.step != 1 {
      if s.step == 1 {
        // only a successful "Next Step" leaves step 1, and it checked exactly these fields
        assert act.PressNext? && Offered(s, act);
        assert OrderAccepted(act.order) && ProfileFound(act.profile);
        var full := log + t.calls;
        assert full[|log|] == ValidateOrder(s.orderNumber, s.email, act.order);
        assert full[|log| + 1] == LookupUser(s.username, act.profile);
      } else {
        CheckedGrows(log, |log|, log + t.calls, |log + t.calls|, s.orderNumber, s.email, s.username);
      }
    }
  }

  /** Every claim submitted during a run was checked, field for field, before
      it was sent: the order number and email by the order check and, right
      after, the username by the lookup. `log` holds the calls made before the run. */
  lemma {:induction false} SubmissionsWereChecked(log: seq<Call>, s: PageState, actions: seq<Action>)
    requires s.step != 1 ==> Checked(log, |log|, s.orderNumber, s.email, s.username)
    ensures SubmitsChecked(log, Run(s, actions).calls)
    decreases |actions|
  {
    if actions != [] {
      var first := Apply(s, actions[0]);
      var log' := log + first.calls;
      ApplyKeepsChecked(log, s, actions[0]);
      SubmissionsWereChecked(log', first.state, actions[1..]);
      var rest := Run(first.state, actions[1..]);
      var calls := first.calls + rest.calls;
      assert log + calls == log' + rest.calls;
      forall i | 0 <= i < |calls| && calls[i].SendClaim?
        ensures Checked(log + calls, |log| + i, calls[i].record.orderNumber, calls[i].record.email, calls[i].record.username)
      {
        if i < |first.calls| {
          // only "That's Me" submits, and it is offered on step 2 alone
          assert actions[0].PressConfirm? && s.step == 2;
          assert calls[i] == SendClaim(RecordOf(s), actions[0].sent);
          CheckedGrows(log, |log|, log + calls, |log| + i, s.orderNumber, s.email, s.username);
        } else {
          var k := i - |first.calls|;
          assert calls[i] == rest.calls[k];
          assert |log| + i == |log'| + k;
        }
      }
    }
  }

  /** A whole session from the mounted page submits only checked claims. */
  lemma SessionSubmitsOnlyCheckedClaims(actions: seq<Action>)
    ensures SubmitsChecked([], Run(Initial, actions).calls)
  {
    SubmissionsWereChecked([], Initial, actions);
  }

  /** A complete claim posted by the page passes both guards of the API route
      and is forwarded once, as an embed from which it reads back unchanged. */
  lemma CompleteClaimIsForwarded(r: ClaimRecord, now: string, outcome: ConfirmClaim.WebhookOutcome)
    requires Complete(r)
    ensures var h := ConfirmClaim.Handler(PostOf(r), now, outcome);
      && h.posts == [ConfirmClaim.Payload([ConfirmClaim.ClaimEmbed(r, now)])]
      && ConfirmClaim.ReadEmbed(h.posts[0].embeds[0]) == Some(r)
      && (h.response.status == 200 <==> outcome == ConfirmClaim.Delivered)
      && h.response.status in {200, 500}
  {
  }

  /** End to end: no claim a session submits is turned away by the API route. */
  lemma SessionClaimsAreForwarded(actions: seq<Action>, now: string, outcome: ConfirmClaim.WebhookOutcome)
    ensures var calls := Run(Initial, actions).calls;
      forall c | c in calls && c.SendClaim? ::
        ConfirmClaim.Handler(PostOf(c.record), now, outcome).response.status in {200, 500}
  {
    SubmissionsAreComplete(Initial, actions);
    forall c | c in Run(Initial, actions).calls && c.SendClaim?
      ensures ConfirmClaim.Handler(PostOf(c.record), now, outcome).response.status in {200, 500}
    {
      CompleteClaimIsForwarded(c.record, now, outcome);
    }
  }

  /** Pressing "That's Me" again after a successful submission sends nothing:
      the claim goes out exactly once. */
  lemma ConfirmTwiceSendsOnce(s: PageState, again: Action)
    requires Settled(s) && s.step == 2
    ensures var t := Run(s, [PressConfirm(Delivered), again]);
      t.state.step == 3 && t.calls == [SendClaim(RecordOf(s), Delivered)]
  {
    var first := Apply(s, PressConfirm(Delivered));
    FinalStepIsTerminal(first.state, [again]);
  }

  /** A failed submission followed by a successful retry: the claim goes out
      twice, the first attempt leaves step 2 with its error, the second ends on step 3. */
  lemma RetryAfterFailure(s: PageState, failure: SendResult)
    requires Settled(s) && s.step == 2 && failure != Delivered
    ensures var t := Run(s, [PressConfirm(failure), PressConfirm(Delivered)]);
      && Run(s, [PressConfirm(failure)]).state.step == 2
      && t.state.step == 3 && t.state.error == ""
      && t.calls == [SendClaim(RecordOf(s), failure), SendClaim(RecordOf(s), Delivered)]
  {
    var first := Apply(s, PressConfirm(failure));
    assert [PressConfirm(failure), PressConfirm(Delivered)][1..] == [PressConfirm(Delivered)];
    assert Run(first.state, [PressConfirm(Delivered)]).calls == [SendClaim(RecordOf(s), Delivered)];
  }

  /** "Go Back" from a reached step-2 state lands on step 1 still holding the
      avatar: the page does not clear the looked-up profile when going back. */
  lemma GoBackKeepsAvatar(s: PageState)
    requires Settled(s) && s.step == 2
    ensures var t := Run(s, [PressGoBack]);
      t.state.step == 1 && t.state.avatarUrl == s.avatarUrl != "" && t.calls == []
  {
  }

  /** A whole successful session from the mounted page: fill in the three
      fields, pass both checks, confirm. The calls are exactly: the order
      check, the lookup, one submission of the typed claim. */
  lemma HappyPath(order: string, email: string, user: string, avatar: string)
    requires order != "" && email != "" && user != "" && avatar != ""
    ensures var t := Run(Initial, [TypeEmail(email), TypeOrderNumber(order), TypeUsername(user),
        PressNext(OrderResult(true, true, None), ProfileResult(true, Some(avatar))), PressConfirm(Delivered)]);
      && t.state.step == 3 && t.state.avatarUrl == avatar && t.state.error == ""
      && t.calls == [ValidateOrder(order, email, OrderResult(true, true, None)), LookupUser(user, ProfileResult(true, Some(avatar))),
                     SendClaim(ClaimRecord(order, user, email, "Claim Bundle"), Delivered)]
  {
    var next := PressNext(OrderResult(true, true, None), ProfileResult(true, Some(avatar)));
    var acts := [TypeEmail(email), TypeOrderNumber(order), TypeUsername(user), next, PressConfirm(Delivered)];
    var s1 := Initial.(email := email);
    var s2 := s1.(orderNumber := order);
    var s3 := s2.(username := user);
    var s4 := NextStep(s3, next.order, next.profile).state;
    // unfold the run one action at a time
    assert acts[1..] == [TypeOrderNumber(order), TypeUsername(user), next, PressConfirm(Delivered)];
    assert acts[2..] == [TypeUsername(user), next, PressConfirm(Delivered)];
    assert acts[3..] == [next, PressConfirm(Delivered)];
    assert acts[4..] == [PressConfirm(Delivered)];
    assert Run(s4, acts[4..]) == Transition(ConfirmIdentity(s4, Delivered).state, [SendClaim(RecordOf(s4), Delivered)]);
    assert Run(s2, acts[2..]) == Run(s3, acts[3..]);
    assert Run(s1, acts[1..]) == Run(s2, acts[2..]);
  }

  /** How many submissions in `calls` were delivered. */
  function Deliveries(calls: seq<Call>): (n: nat)
    ensures n <= |calls|
  {
    if calls == [] then 0
    else (if calls[0].SendClaim? && calls[0].sent == Delivered then 1 else 0) + Deliveries(calls[1..])
  }

  lemma {:induction false} DeliveriesAppend(a: seq<Call>, b: seq<Call>)
    ensures Deliveries(a + b) == Deliveries(a) + Deliveries(b)
    decreases |a|
  {
    if a != [] {
      assert (a + b)[1..] == a[1..] + b;
      DeliveriesAppend(a[1..], b);
    } else {
      assert a + b == b;
    }
  }

  /** A claim is delivered at most once per session: a run from a page not yet
      on step 3 delivers exactly one submission if it ends on step 3, and none
      otherwise. Failed submissions may be retried any number of times. */
  lemma {:induction false} DeliveredAtMostOnce(s: PageState, actions: seq<Action>)
    requires s.step != 3
    ensures Deliveries(Run(s, actions).calls) == (if Run(s, actions).state.step == 3 then 1 else 0)
    decreases |actions|
  {
    if actions != [] {
      var first := Apply(s, actions[0]);
      var rest := Run(first.state, actions[1..]);
      DeliveriesAppend(first.calls, rest.calls);
      // the action's own calls deliver exactly when it reaches step 3
      if actions[0].PressConfirm? && Offered(s, actions[0]) {
        assert first.calls == [SendClaim(RecordOf(s), actions[0].sent)];
        assert Deliveries(first.calls[1..]) == 0;
      } else if first.calls != [] {
        // "Next Step" only asks the two services
        assert actions[0].PressNext? && !first.calls[0].SendClaim?;
        if |first.calls| == 2 {
          assert !first.calls[1].SendClaim? && first.calls[1..][1..] == [];
        } else {
          assert first.calls[1..] == [];
        }
      }
      if first.state.step == 3 {
        FinalStepIsTerminal(first.state, actions[1..]);
      } else {
        DeliveredAtMostOnce(first.state, actions[1..]);
      }
    }
  }
}
