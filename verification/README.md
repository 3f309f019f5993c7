# Claim site: the claim workflow and the confirm-claim route, in Dafny

This project models the decision logic of a small claim site. A customer redeems a purchased
item bundle in three steps:

1. They enter an order number, an email and a Roblox username. The page checks the order and
   then looks up the username's avatar.
2. They confirm that the avatar is theirs. The page posts the claim to its own `confirm-claim`
   API route.
3. A final page with no further actions.

The API route checks the request and forwards the claim to the operators' Discord webhook as
one embed.

Every external call is a parameter. This covers the order check, the profile lookup, the claim
submission, the webhook delivery and the clock that stamps the embed. Each page transition is a
pure function from the page state and those outcomes to the next state plus the list of calls it
made, in order. That list is what makes "the lookup is never invoked" and "exactly one
submission" statable.

Modules:

- `Wrappers`: `Option`, which stands for a JavaScript value that may be `undefined`.
- `JsText`: the string semantics the decisions rest on. This is falsy-or-empty truthiness with
  no trimming, the `or` of two strings, and the text a template literal gives for `undefined`.
- `ClaimRecords`: the four-field claim body `{orderNumber, username, email, items}` that the page
  posts and the route reads.
- `ClaimPage`: the page state (`claimsite/pages/index.tsx`) and its transitions "Next Step",
  "Go Back" and "That's Me".
- `ConfirmClaim`: the API route (`claimsite/pages/api/confirm-claim.ts`), with its method guard,
  field guard, embed construction and outcome-to-status mapping.
- `ClaimSession`: sequences of whole user actions as the view offers them, with properties of
  whole runs. It also connects the page's submission to the route.
- `ClaimRaces`: what happens when the user acts while "Next Step" or "That's Me" is waiting for
  its answers. This is the page's own gating set against the corrected one (see Findings).

In these points the code is weaker than its interface suggests. The model follows the code:

- Empty means falsy. An empty string or a missing value is empty. Nothing is trimmed, so a
  field of spaces counts as filled.
- "Go Back" only sets the step to 1. The avatar shown on step 2 is kept; it is not cleared.
- The profile is only an avatar URL. There is no display name.
- "That's Me" has no step guard of its own and no "invalid state" error. Only the rendered view
  gates it, because its button exists on step 2 alone. The page transitions are therefore
  modelled for every state, and the view's gating is a separate predicate. A run only applies
  actions the view offers.
- Every request is logged with the answer it got. A check therefore means that the service
  accepted, not merely that it was asked.
- On the empty-field path "Next Step" sets the error message and leaves `loading` alone. It does
  not first clear the error and set `loading`, as the other paths do.
- The step has the source's type `1|2|3`, modelled as the subset type `ClaimPage.StepNo`. The
  step is never any other value, by typing.

## Model

| member | source | states |
|---|---|---|
| ClaimPage.NextStep | claimsite/pages/index.tsx:19-54 | The identity fields never change, and the calls made are a prefix of [validate(order, email), lookup(username)], each logged with its answer. An empty field gives 'Please fill out all fields.', no call, and an unchanged step, loading flag and avatar. A failed order check gives the service's message or 'Order check failed.', exactly one call (no lookup), an unchanged step and avatar, and loading false. A failed lookup gives 'Roblox user not found.' with the step and avatar unchanged. Success gives step 2, the looked-up avatar, an empty error and loading false, with validate then lookup as the calls. |
| ClaimPage.GoBack | claimsite/pages/index.tsx:159-164 | The step becomes 1 and there are no calls. The fields, avatar, error and loading flag are kept. |
| ClaimPage.SettleNext | claimsite/pages/index.tsx:27-53 | The part of "Next Step" after the click sends its requests with the captured fields. The answers are applied to the page as it is by then, whose fields are kept, and loading ends false. The page gets to step 2 if and only if it was already there or the order was accepted and the profile found. A failed order check makes one call and shows the service's message or 'Order check failed.'. A failed lookup makes two calls and shows 'Roblox user not found.'. Both failures keep the step and the avatar. Success makes two calls and shows the looked-up avatar on step 2. |
| ClaimPage.SettleConfirm | claimsite/pages/index.tsx:60-79 | The part of "That's Me" after the click submits the claim built from the captured fields and logs its outcome. The page as it is by then keeps its fields and avatar, and loading ends false. It moves to step 3 if and only if the claim was delivered; otherwise its step is kept. The error is 'Failed to confirm claim.' after a non-ok response and the thrown message after an exception. |
| ClaimPage.ConfirmIdentity | claimsite/pages/index.tsx:56-80 | Exactly one submission, of {orderNumber, username, email, 'Claim Bundle'} taken from the current fields and logged with its outcome. Loading ends false. The step becomes 3 on success and is otherwise unchanged. The error is '' on success, 'Failed to confirm claim.' on a non-ok response, and the thrown message on an exception. |
| ClaimPage.RecordOf | claimsite/pages/index.tsx:65-70 | The submitted claim copies the three fields and has items 'Claim Bundle'. It is complete exactly when no page field is empty. |
| ClaimPage.NextStepAdvancesIff | claimsite/pages/index.tsx:20-53 | From step 1, "Next Step" reaches step 2 if and only if the fields are filled, the order is accepted and the profile is found. Otherwise it stays on step 1. |
| ClaimPage.LookupIff | claimsite/pages/index.tsx:34-45 | The profile lookup is made if and only if the fields are filled and the order check succeeded. |
| ClaimPage.GoBackThenNextStep | claimsite/pages/index.tsx:19-54 | After a successful "Next Step", going back and pressing it again with the same answers gives the same step-2 state. |
| ClaimPage.ConfirmRetry | claimsite/pages/index.tsx:72-79 | A failed submission keeps step 2. A retry that succeeds then reaches step 3 with no error and sends the identical claim again. |
| ConfirmClaim.Handler | claimsite/pages/api/confirm-claim.ts:8-64 | The status is one of 200, 400, 405 or 500. It is 405 if and only if the method is not POST, and only then is Allow set, to ['POST'], with 'Method <m> Not Allowed' (m is 'undefined' when absent). It is 400 if and only if a POST lacks a truthy field, with the fixed message. There is exactly one webhook post, of the claim's embed, if and only if the request is admissible, and none otherwise. It is 200 with {success: true} if and only if admissible and delivered. It is 500 otherwise, with 'Discord webhook failed' for a readable non-ok answer and 'Internal server error' for a thrown error. |
| ConfirmClaim.ClaimOf | claimsite/pages/api/confirm-claim.ts:17-28 | An admissible request carries a complete claim whose fields are the body's fields. |
| ConfirmClaim.ClaimEmbedLayout | claimsite/pages/api/confirm-claim.ts:31-45 | The embed has the title 'New MM2Land Claim', the color 5814783 and the given timestamp. It has exactly four fields in the order Order #, Roblox Username, Email, Items, with inline flags true, true, true, false. The Order # value is '#' followed by the order number, and the other three values are verbatim. |
| ConfirmClaim.ReadClaimEmbed | claimsite/pages/api/confirm-claim.ts:36-41 | The claim can be read back unchanged from its embed, so the embed loses nothing. |
| ConfirmClaim.ClaimEmbedInjective | claimsite/pages/api/confirm-claim.ts:36-42 | Two claims with the same embed are the same claim with the same timestamp. |
| ConfirmClaim.RejectionIgnoresWebhook | claimsite/pages/api/confirm-claim.ts:12-28 | A request turned away by either guard makes no webhook post. Its answer does not depend on the webhook outcome or the clock. |
| ClaimSession.Perform | claimsite/pages/index.tsx:116-136 | Typing into an input sets that field to the typed value and changes nothing else on the page. It makes no call. |
| ClaimSession.Apply | claimsite/pages/index.tsx:104-200 | One action applied under the view's gating, `ClaimSession.Offered`. The gating is the controls each step renders (index.tsx:105, 149, 177) plus a loading lock on every control. The page itself disables only the two submitting buttons while loading (index.tsx:139, 167). This row is therefore the corrected gating; `ClaimRaces.LiveWhileLoading` states the page's own. The step moves only from 1 to 2, from 2 to 1 or from 2 to 3, and step 3 is inert. Past step 1 the order number, email and username cannot change. Only "Next Step" and "That's Me" make calls. |
| ClaimSession.PostOf | claimsite/pages/index.tsx:62-71 | The page's POST of a claim passes the route's field guard if and only if the claim is complete. |
| ClaimSession.ApplyKeepsSettled | claimsite/pages/index.tsx:19-80 | One action keeps a settled state settled: not loading, and past step 1 the fields are filled and an avatar is set. |
| ClaimSession.RunKeepsSettled | claimsite/pages/index.tsx:19-80 | Every state a run reaches from a settled state is settled. |
| ClaimSession.FinalStepIsTerminal | claimsite/pages/index.tsx:176-200 | From step 3 every run leaves the state unchanged and makes no call. |
| ClaimSession.SubmissionsAreComplete | claimsite/pages/index.tsx:56-71 | Every claim a run from a settled state submits is complete and carries 'Claim Bundle'. |
| ClaimSession.ApplyKeepsChecked | claimsite/pages/index.tsx:19-54 | One action preserves this: past step 1, the call log shows an ok and valid order check of the current order number and email, directly followed by a lookup of the current username that found an avatar. |
| ClaimSession.SubmissionsWereChecked | claimsite/pages/index.tsx:19-80 | In every run, each submitted claim was accepted before it was sent. The order check accepted its order number and email, and right after, the lookup found its username. |
| ClaimSession.SessionSubmitsOnlyCheckedClaims | claimsite/pages/index.tsx:6-80 | The same holds for a whole session from the freshly mounted page. |
| ClaimSession.DeliveredAtMostOnce | claimsite/pages/index.tsx:56-80 | A run from a page not yet on step 3 delivers exactly one submission if it ends on step 3, and none otherwise. Failed submissions can be retried, but a claim is never delivered twice. |
| ClaimSession.CompleteClaimIsForwarded | claimsite/pages/api/confirm-claim.ts:24-59 | The page's POST of a complete claim makes exactly one webhook post, of that claim's embed, and the claim reads back from it. The answer is 200 if and only if the webhook delivered, and 500 otherwise. |
| ClaimSession.SessionClaimsAreForwarded | claimsite/pages/api/confirm-claim.ts:24-28 | End to end: the route never answers 400 or 405 to a claim the page submits. |
| ClaimSession.ConfirmTwiceSendsOnce | claimsite/pages/index.tsx:165-200 | After a successful "That's Me", a further action sends nothing. The claim goes out exactly once and the page stays on step 3. |
| ClaimSession.RetryAfterFailure | claimsite/pages/index.tsx:72-79 | Failure followed by a retry that succeeds: step 2 after the first attempt, step 3 with no error after the second, and the same claim sent twice. |
| ClaimSession.GoBackKeepsAvatar | claimsite/pages/index.tsx:159-164 | Going back from a reached step-2 state lands on step 1 with the looked-up avatar still set. The profile is not cleared, and no call is made. |
| ClaimSession.HappyPath | claimsite/pages/index.tsx:19-80 | From the mounted page, the user types the three fields, both checks pass and they confirm. The run ends on step 3 with the looked-up avatar and no error. Its calls are exactly the order check, the lookup and one submission of the typed claim with 'Claim Bundle'. |
| ClaimRaces.LiveWhileLoading | claimsite/pages/index.tsx:116-171 | The page's own gating while a request is in flight: the three inputs stay live on step 1 and "Go Back" on step 2, and only the two submitting buttons are off. The model's gating offers nothing while loading. |
| ClaimRaces.LoadingHolds | claimsite/pages/index.tsx:116-171 | Under either gating, what the user does while a request is in flight makes no call and leaves the page loading. |
| ClaimRaces.NextAmid | claimsite/pages/index.tsx:19-54 | "Next Step" with any user actions taken before its answers arrive makes exactly the calls of the atomic "Next Step", with the fields captured at the click, and ends not loading. When both answers are good, the page moves to step 2 with the looked-up avatar, whatever its fields hold by then. |
| ClaimRaces.ConfirmAmid | claimsite/pages/index.tsx:56-80 | "That's Me" with any user actions taken before its outcome arrives sends exactly the claim captured at the click and ends not loading. A delivery moves the page to step 3 whatever step it is on by then. |
| ClaimRaces.GatingsAgreeWhenIdle | claimsite/pages/index.tsx:116-171 | In a settled state, the page's own gating offers exactly what the model's gating offers. This state has nothing in flight. |
| ClaimRaces.QuietWhileLoading | claimsite/pages/index.tsx:139-167 | Under the model's gating, nothing the user does while loading changes the page or makes a call. |
| ClaimRaces.NextAmidCorrected | claimsite/pages/index.tsx:19-54 | With the inputs locked while loading, "Next Step" interleaved with any user actions is the atomic "Next Step". Reaching step 2 from step 1 means the order check accepted exactly the page's order number and email, and the lookup found exactly its username. |
| ClaimRaces.ConfirmAmidCorrected | claimsite/pages/index.tsx:56-80 | With "Go Back" and the inputs locked while loading, "That's Me" interleaved with any user actions is the atomic "That's Me". |
| ClaimRaces.EditDuringOrderCheck | claimsite/pages/index.tsx:116-136 | On the page as written, the order number can be changed from o1 to o2 while the order check is pending. With both answers ok, the page reaches step 2 holding o2, though only o1 was checked. "That's Me" then submits o2, and no accepted check of o2 precedes it. |
| ClaimRaces.ClearDuringOrderCheck | claimsite/pages/index.tsx:123-129 | On the page as written, the order number can be cleared while the order check is pending. With both answers ok, the page reaches step 2 with an empty order number, which is not a settled state. "That's Me" then posts a claim with an empty order number. The route answers 400, so the page shows 'Failed to confirm claim.' and stays on step 2. |
| ClaimRaces.GoBackDuringSubmit | claimsite/pages/index.tsx:159-164 | On the page as written, "Go Back" can be pressed while a submission is pending, and the order number can then be changed. When the delivery lands, the page jumps from step 1 to step 3 holding an order number other than the one submitted. |

## Left out

- The rendered view is out: JSX, Tailwind classes, fonts, the static Roblox links and the
  `mounted`/`useEffect` hydration guard. Which controls each step renders is kept. It
  appears as `ClaimRaces.OfferedAsWritten`, the page's own gating, and as
  `ClaimSession.Offered`, the same gating with every control inert while loading.
- `fetch`, JSON serialisation and parsing, and HTTP transport are out. The order check, profile
  lookup, claim submission and webhook delivery are outcome values. The claim body is taken to
  survive `JSON.stringify` and the route's body parser unchanged.
- The `/api/validate-order` and `/api/roblox-user` routes are not part of this model. Their
  answers are opaque outcomes. The username is passed to the lookup as is; its URL encoding is
  transport.
- Exceptions that `handleNextStep` does not catch are out: `fetch` rejecting, or `.json()`
  throwing, leaves the page mid-transition with `loading` true. The model covers only the
  handled outcomes.
- Interleavings are modelled only in `ClaimRaces`, and only for user actions taken while one
  request is pending. Overlapping "Next Step" requests are not modelled: they cannot overlap,
  because the button is disabled while loading.
- ClaimSession.Apply: its step-movement clause holds for whole actions under the model's gating.
  On the page as written, "Go Back" is live while a submission is pending. So step 1 can be
  followed directly by step 3 (`ClaimRaces.GoBackDuringSubmit`).
- ClaimSession.SubmissionsWereChecked: holds for runs of whole actions under the model's
  gating, which locks the inputs while loading. On the page as written it fails for this input:
  change Order # from o1 to o2 while the order check of o1 is pending, receive ok answers, then
  press "That's Me". The claim submitted carries o2, which no check saw
  (`ClaimRaces.EditDuringOrderCheck`).
- ClaimSession.SessionSubmitsOnlyCheckedClaims: the same atomicity assumption and the same
  counterexample as the previous line.
- ClaimSession.RunKeepsSettled: holds for runs of whole actions under the model's gating. On
  the page as written it fails for this input: fields 1001, a@b.com, Steve; press "Next Step";
  clear Order # before the answers arrive; both answers are ok. The page reaches step 2 with an
  empty order number (`ClaimRaces.ClearDuringOrderCheck`).
- ClaimSession.SubmissionsAreComplete: the same whole-action assumption. With the input of the
  previous line, "That's Me" then submits a claim whose order number is empty.
- ClaimSession.SessionClaimsAreForwarded: the same whole-action assumption. With the same input,
  the route answers 400 to the submitted claim, and every retry fails the same way.
- The webhook URL from the `DISCORD_WEBHOOK` environment variable and `console.error` logging
  are left out as configuration and I/O. The timestamp from `new Date().toISOString()` is a
  parameter, `now`.
- In the route, a body that is not an object, or fields that are not strings, are left out.
  Each field is a present string or `undefined`.
- No step precondition is put on "That's Me", matching the code, which has no guard of its own.
  Its gating to step 2 is modelled in the session layer.

## Findings

| source | as written | input that shows it | evidently intended | confidence | as-written member | corrected member |
|---|---|---|---|---|---|---|
| claimsite/pages/index.tsx:116-136 | The three inputs have no `disabled={loading}`. "Next Step" sends the values captured at the click, then applies its answers, including step 2, to the fields as they are when the answers arrive. | Fields 1001, a@b.com, Steve. Press "Next Step" and change Order # to 2002 before the answers arrive. Both answers are ok, then press "That's Me". | The claim that reaches step 2 and is submitted is the one the order check accepted. That needs the inputs locked while loading, like the buttons. | medium, not executed | ClaimRaces.EditDuringOrderCheck | ClaimRaces.NextAmidCorrected |
| claimsite/pages/index.tsx:159-164 | "Go Back" has no `disabled={loading}`. It can be pressed while "That's Me" is pending, and a later delivery still sets step 3. | On step 2, press "That's Me", then "Go Back", then type a new Order #. The delivery succeeds. | The page stays on the submitting step until the outcome arrives, with "Go Back" locked while loading. | low, not executed | ClaimRaces.GoBackDuringSubmit | ClaimRaces.ConfirmAmidCorrected |
| claimsite/pages/index.tsx:123-129 | The Order # input has no `disabled={loading}`, so it can be emptied while the order check is pending. The answers still move the page to step 2. | Fields 1001, a@b.com, Steve. Press "Next Step" and clear Order # before the answers arrive. Both answers are ok, then press "That's Me". The route answers 400 and the page shows 'Failed to confirm claim.' on every retry. | Step 2 is reached only with filled fields, so every claim submitted passes the route's field guard. That needs the inputs locked while loading. | medium, not executed | ClaimRaces.ClearDuringOrderCheck | ClaimRaces.NextAmidCorrected |
