# planlive cloud functions — a verified model

The planlive backend is a set of Firebase Cloud Functions that react to
changes in a Firestore document store behind a social-planning app:

- `sendPlanNotification` / `onPlanUnsubscribed`: a document is created or
  deleted under `planes/{planId}/inscritos/{userId}`; the plan's owner gets one
  push notification.
- `onPlanUpdated`: `planes/{planId}` changes; when its date-time, location or
  title changed, every subscriber gets a push listing what changed.
- `onPlanDeleted`: `planes/{planId}` is deleted; every subscriber gets a push.
- `onNewChatMessage`: a chat message is created under the plan; one multicast
  push goes to every subscriber except the sender.
- `cleanExpiredPlans`: every hour, each plan whose `fechaHora` has passed is
  deleted with its subscriptions (`planes/{p}/inscritos/{u}`) and their
  reverse-index entries (`users/{u}/planes/{p}`), in one write batch per plan.

The model replaces Firestore with values (`Documents.Store`: plans,
subscriptions per plan in query order, user profiles, and the reverse index as
a set of (user, plan) pairs) and replaces Firebase Cloud Messaging with the
intents each handler hands to the sender. The sweep is a method on a store
class (`Cleanup.PlanStore`) that deletes documents in place.

Files:

- `wrappers.dfy`: `Option`.
- `documents.dfy`: the documents, JavaScript truthiness of optional string
  fields (`x || y`), `extractPlanDetails`, and the consistency invariant
  between subscriptions and the reverse index.
- `messaging.dfy`: `buildNotificationPayload`, the guarded
  `sendNotificationToDevice`, and sending a fan-out one guarded call at a time.
- `triggers.dfy`: the two owner handlers, the subscriber fan-out, the change
  list of `onPlanUpdated`, and `onPlanDeleted`.
- `chat.dfy`: `onNewChatMessage`, as a method with the source's loop.
- `cleanup.dfy`: the write batch, the commit, the specification of the
  sweep's effect, and the `PlanStore` class with `CleanExpiredPlans`.

Modelling choices:

- `fechaHora` is an integer, compared with `<=` for the sweep's query and by
  value in `onPlanUpdated` (see Findings for what the `!==` on line 123 does
  with real Timestamps).
- A string field is truthy when present and not empty; `ownerId || uid`,
  `titulo || 'tu plan'`, `nombre || 'Un usuario'`, `senderName || 'Alguien'` and
  `message || ''` are written out that way.
- A commit that throws is a plan id in the `failing` input of the sweep.
- A gateway error is a position in the `failed` input of `DispatchAll`; it is
  logged and swallowed, so it is an outcome of that one send and nothing else.
- The fan-out of `onPlanUpdated` and `onPlanDeleted` runs its callbacks
  concurrently (`Promise.all`); the model produces their intents in
  subscriber order.

Where the intended behaviour and the code differ:

- The chat handler skips the sender's own lookup; it does not filter tokens,
  so the sender's token still goes out when another subscriber's profile holds
  the same token. The model follows the code (`Chat.SenderTokenExcluded` states
  the exact condition).
- Collected chat tokens keep subscriber order and may repeat; they are not a
  set. The model follows the code (`Chat.ChatTokensInOrder`).
- The change detection of `onPlanUpdated` is meant to compare the three fields
  by value; the code's comparison of `fechaHora` at line 123 is always true.
  The model follows the intent and models the code as written beside it
  (Findings).
- A gateway error is meant never to fail a handler, and `sendNotificationToDevice`
  swallows it; the chat handler instead returns `sendToDevice(...)` without
  `await` inside its `try` (line 246), so a rejected multicast escapes the
  `catch` and fails that invocation. The model follows neither side here: it
  does not model the multicast's outcome at all (Left out).

## Model

| member | source | states |
|---|---|---|
| `Documents.Or` | StudioProjects/planlive/functions/index.js:49 | `a || b` on optional strings is truthy iff either side is, and is the left side when that is truthy |
| `Documents.ExtractPlanDetails` | StudioProjects/planlive/functions/index.js:48-52 | the creator is `ownerId` when truthy, else `uid`; it is truthy iff one of them is; the title is `titulo` when truthy, else "tu plan", and never empty |
| `Messaging.BuildNotificationPayload` | StudioProjects/planlive/functions/index.js:7-27 | token, title, body and data come back unchanged; android priority "high", channel "default_channel", sound "default"; apns sound "default" with content-available set |
| `Messaging.PlatformHintsUniform` | StudioProjects/planlive/functions/index.js:12-26 | the android and apns blocks are the same for every input |
| `Messaging.BuildInjective` | StudioProjects/planlive/functions/index.js:7-27 | two payloads are equal only if they were built from the same token, title, body and data |
| `Messaging.SendNotificationToDevice` | StudioProjects/planlive/functions/index.js:31-45 | nothing is sent iff the token is absent or empty; otherwise the built payload is sent, and a gateway error yields a failed delivery rather than an error |
| `Messaging.DispatchAll` | StudioProjects/planlive/functions/index.js:136-150 | one delivery per intent; each carries its intent and fails exactly when its own gateway call throws |
| `Messaging.DispatchFailureIsolated` | StudioProjects/planlive/functions/index.js:136-150 | a gateway error on one send leaves every other send of the fan-out unchanged |
| `Triggers.OwnerBody` | StudioProjects/planlive/functions/index.js:76 | the owner message is the subscriber's name, a space, the verb, a space, then the plan title between double quotes |
| `Triggers.NotifyOwner` | StudioProjects/planlive/functions/index.js:61-78 | the shared decision of both owner handlers: at most one intent, exactly one iff the owner is reachable, to the owner's token with data {planId, userId} |
| `Triggers.SubscriberName` | StudioProjects/planlive/functions/index.js:76 | the subscriber's `nombre` when truthy, else "Un usuario"; never empty |
| `Triggers.SendPlanNotification` | StudioProjects/planlive/functions/index.js:55-82 | at most one intent; exactly one iff the plan exists, names a truthy creator and the creator's profile has a truthy token; it goes to that token, titled "🟢 Nuevo inscrito", naming subscriber and plan, with data {planId, userId} |
| `Triggers.OnPlanUnsubscribed` | StudioProjects/planlive/functions/index.js:85-112 | as for subscription, titled "🔴 Usuario se dio de baja" with the unsubscribe wording |
| `Triggers.WithToken` | StudioProjects/planlive/functions/index.js:137-140 | the reference selection of subscribers: only those whose profile has a truthy token |
| `Triggers.FanOut` | StudioProjects/planlive/functions/index.js:136-148 | no more intents than subscribers; each has a non-empty token and the handler's title, body and data |
| `Triggers.FanOutOnePerSubscriber` | StudioProjects/planlive/functions/index.js:136-148 | exactly one intent per subscriber with a token, in subscriber order, to that subscriber's token |
| `Triggers.WithTokenMembers` | StudioProjects/planlive/functions/index.js:137-140 | a subscriber is selected iff it is a subscriber and has a token |
| `Triggers.FanOutRecipients` | StudioProjects/planlive/functions/index.js:136-148 | every subscriber with a token gets the intent, and every intent goes to some subscriber's token |
| `Triggers.FanOutAppend` | StudioProjects/planlive/functions/index.js:136-148 | the fan-out of concatenated subscriber lists is the concatenation of their fan-outs |
| `Triggers.FanOutSkipsTokenless` | StudioProjects/planlive/functions/index.js:139-140 | a subscriber without a token contributes nothing and does not stop the others |
| `Triggers.Differs` | StudioProjects/planlive/functions/index.js:123-125 | the value comparison of one watched field; no field of a plan differs from itself |
| `Triggers.LabelInjective` | StudioProjects/planlive/functions/index.js:123-125 | the three pushed labels are pairwise distinct |
| `Triggers.ChangedIn` | StudioProjects/planlive/functions/index.js:122-125 | a field is kept iff it is in the list and differs between the snapshots |
| `Triggers.DetectChanges` | StudioProjects/planlive/functions/index.js:122-125 | the three guarded pushes build exactly `ChangeList(before, after)` |
| `Triggers.ChangedFieldsUnfold` | StudioProjects/planlive/functions/index.js:122-125 | the changed fields are date-time, location, title, each present iff it differs, in that order |
| `Triggers.ChangedInSorted` | StudioProjects/planlive/functions/index.js:122-125 | filtering a rank-sorted field list keeps it rank-sorted |
| `Triggers.ChangeListMembers` | StudioProjects/planlive/functions/index.js:122-127 | a label is in the change list iff its field differs; the list is empty iff no watched field differs |
| `Triggers.ChangeListOrdered` | StudioProjects/planlive/functions/index.js:122-125 | the changed fields appear in the fixed order date-time, location, title, and no label repeats |
| `Triggers.Join` | StudioProjects/planlive/functions/index.js:145 | `cambios.join(', ')`: its length is the labels' lengths plus one separator between each two, and it starts with the first label |
| `Triggers.UpdatedBody` | StudioProjects/planlive/functions/index.js:145 | the update text starts `El plan "`, then the plan title, and ends with the joined change list in parentheses |
| `Triggers.OnPlanUpdated` | StudioProjects/planlive/functions/index.js:115-154 | no intent when no watched field changed; otherwise one per subscriber with a token, the k-th to the k-th such subscriber's own token, titled "✏️ Plan actualizado", with the title from the after snapshot and the joined change list, data {planId} |
| `Triggers.UpdateNotifiesOnlyOnWatchedChange` | StudioProjects/planlive/functions/index.js:122-148 | the update notifies iff a watched field differs and some subscriber has a token |
| `Triggers.HikingMovedToLake` | StudioProjects/planlive/functions/index.js:122-145 | a plan "Hiking" at "Park" moved to "Lake", nothing else changed, lists only "ubicación" and every body reads `El plan "Hiking" fue modificado (ubicación)` |
| `Triggers.ChangeListAsWritten` | StudioProjects/planlive/functions/index.js:123-125 | with reference comparison of Timestamps the change list is never empty |
| `Triggers.UnrelatedEditNotifiesAsWritten` | StudioProjects/planlive/functions/index.js:122-127 | as written, an edit of no watched field yields ["fecha u hora"], where the value comparison yields [] |
| `Triggers.OnPlanDeleted` | StudioProjects/planlive/functions/index.js:157-187 | one intent per subscriber with a token, the k-th to the k-th such subscriber's own token, titled "🗑️ Plan eliminado", with the title from the deleted snapshot, data {planId} |
| `Triggers.DeletedBody` | StudioProjects/planlive/functions/index.js:178 | the delete text starts `El plan "` followed by the plan title |
| `Chat.ChatBody` | StudioProjects/planlive/functions/index.js:221 | the chat text is the sender's name (or "Alguien"), ": ", then the message (or nothing) |
| `Chat.ChatData` | StudioProjects/planlive/functions/index.js:224-228 | the chat data has exactly the keys planId, click_action and type, with the plan id and "chat_message" |
| `Chat.ChatTokens` | StudioProjects/planlive/functions/index.js:204-214 | the collected tokens are no more than the subscribers and all non-empty |
| `Chat.ChatRecipients` | StudioProjects/planlive/functions/index.js:207-213 | the selected subscribers are none of them the sender and all have a token |
| `Chat.ChatRecipientsSnoc` | StudioProjects/planlive/functions/index.js:207-213 | selecting over a list with one more subscriber appends that subscriber exactly when it is not the sender and has a token |
| `Chat.ChatTokensInOrder` | StudioProjects/planlive/functions/index.js:207-213 | the k-th collected token is the token of the k-th non-sender subscriber with a token, one token per such subscriber, in iteration order |
| `Chat.OnNewChatMessage` | StudioProjects/planlive/functions/index.js:190-251 | no push for an empty snapshot, no subscribers or no tokens; otherwise one multicast to the tokens the loop collects, titled "Nuevo mensaje en el plan", body sender name (or "Alguien") and message, data {planId, click_action, type} |
| `Chat.SenderProfileIgnored` | StudioProjects/planlive/functions/index.js:207-212 | the sender's profile is never looked up: changing it changes nothing in the tokens |
| `Chat.ChatTokensFromOthers` | StudioProjects/planlive/functions/index.js:207-213 | every collected token belongs to a subscriber who is not the sender |
| `Chat.ChatTokensReachOthers` | StudioProjects/planlive/functions/index.js:207-213 | every non-sender subscriber with a token has that token collected |
| `Chat.SenderTokenExcluded` | StudioProjects/planlive/functions/index.js:207-213 | the sender's token is not collected unless another subscriber's profile holds the same token |
| `Cleanup.SweptLeavesOnlyFailing` | StudioProjects/planlive/functions/index.js:260-298 | after a sweep, the only plans still due at the same time are the expired plans whose commit failed |
| `Cleanup.Kept` | StudioProjects/planlive/functions/index.js:286 | a subscription survives a batch iff the batch does not name it |
| `Cleanup.Committed` | StudioProjects/planlive/functions/index.js:291 | a commit leaves profiles alone and deletes exactly the plans the batch names |
| `Cleanup.CommittedEffect` | StudioProjects/planlive/functions/index.js:285-291 | a commit deletes exactly the subscriptions and reverse-index entries the batch names |
| `Cleanup.RemovePlansEffect` | StudioProjects/planlive/functions/index.js:282-289 | removing plans deletes exactly their documents, their subscriptions and their subscribers' reverse-index entries; profiles and other plans are untouched |
| `Cleanup.KeptAll` | StudioProjects/planlive/functions/index.js:286 | a batch that deletes every subscription of a plan leaves none |
| `Cleanup.KeptNone` | StudioProjects/planlive/functions/index.js:286 | a batch that deletes no subscription of a plan leaves them all |
| `Cleanup.CommitRemovesPlan` | StudioProjects/planlive/functions/index.js:280-291 | committing the batch built for a plan is removing that plan with its subscriptions and reverse-index entries |
| `Cleanup.RemoveNothing` | StudioProjects/planlive/functions/index.js:266-269 | removing no plan changes nothing |
| `Cleanup.RemoveOneMore` | StudioProjects/planlive/functions/index.js:271-296 | removing one more plan after a set of plans is removing the union |
| `Cleanup.SweepDeletesExpired` | StudioProjects/planlive/functions/index.js:260-291 | an expired plan whose commit succeeds is gone, with no subscription and none of its subscribers' reverse-index entries left |
| `Cleanup.SweepKeepsOthers` | StudioProjects/planlive/functions/index.js:260-296 | a plan not yet due, or whose commit fails, keeps its document, subscriptions and reverse-index entries; profiles never change |
| `Cleanup.SweepIdempotent` | StudioProjects/planlive/functions/index.js:260-298 | a second sweep at the same time deletes nothing more, as long as every plan that failed before fails again |
| `Cleanup.SweepPreservesConsistency` | StudioProjects/planlive/functions/index.js:280-291 | if every subscription has its reverse-index entry, the reverse index holds only subscriptions and subscribed plans exist, the sweep keeps it so |
| `Cleanup.SweepStep` | StudioProjects/planlive/functions/index.js:275-295 | one turn of the loop extends the removed plans by the current one exactly when its commit does not fail |
| `Cleanup.BuildBatch` | StudioProjects/planlive/functions/index.js:280-289 | the batch holds each subscriber's reverse-index and subscription deletes and the plan delete, and nothing else |
| `Cleanup.PlanStore.Commit` | StudioProjects/planlive/functions/index.js:291 | all of the batch's deletes happen, or none |
| `Cleanup.PlanStore.CleanExpiredPlans` | StudioProjects/planlive/functions/index.js:254-299 | the store afterwards is the old store with every expired plan whose commit succeeds removed together with its subscriptions and reverse-index entries |

## Left out

- Firebase plumbing: `admin.initializeApp`, trigger registration on document
  paths, the hourly schedule in the Europe/Madrid time zone, and the real
  `messaging().send` / `sendToDevice` calls; the handlers are the intents they
  would send.
- Concurrency: `Promise.all` in `onPlanUpdated` and `onPlanDeleted` and the
  async scheduling of every handler; the model is sequential. The race between
  a concurrent edit of `fechaHora` and a running sweep is not modelled.
- Console logging, including the log lines of the sweep and of every `catch`.
- Store errors (a failing read) caught by the handlers' `try`/`catch`; only
  gateway errors and commit errors are modelled.
- Firestore Timestamp semantics: `fechaHora` is an integer.
- The android and apns blocks of the inline chat payload (lines 229-243) and
  its `notification.sound`; the chat push keeps tokens, title, body and data.
- Per-token results of the multicast `sendToDevice`; the chat push is one value.
- The failure of the chat multicast (line 246): it is not awaited inside the
  `try`, so a gateway error is not swallowed there and fails the handler; the
  model has no error result for the chat handler.
- `StudioProjects/planlive/android/app/build.gradle.kts`: build configuration,
  no behaviour.
- Fields of the documents the functions never read (join time, chat
  timestamps, display names of profiles).

## Findings

| source | as written | input that shows it | evidently intended | confidence | as-written member | corrected member |
|---|---|---|---|---|---|---|
| StudioProjects/planlive/functions/index.js:123 | `before.fechaHora !== after.fechaHora` compares the two Timestamp objects decoded from the two snapshots by reference, so it is always true | any update that changes none of `fechaHora`, `ubicacion`, `titulo` (an unrelated field); the change list is ["fecha u hora"] and every subscriber is notified | compare the instants by value (`isEqual`), so only a real date-time change is listed | medium, not executed | `Triggers.UnrelatedEditNotifiesAsWritten` | `Triggers.ChangeListMembers` |
