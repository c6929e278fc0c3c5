# ReceiveRequestCard visibility rules

A Dafny model of the decision logic inside the mobile app's `ReceiveRequestCard`
component. The card shows a blood "receive request" to staff. Given a snapshot of
the request, it decides two things. First, which action buttons to offer: View
details, Approve, Reject, Select component, and Start distribution. Second, which
conditional rows to show: the unknown-component warning, the urgent marker, the
support-campaign row, the fulfilled row, the reason, and the rejection reason. The
card also keeps a small reject dialog. The dialog holds an "open" flag and the note
being typed. Confirming it forwards `(request id, note)` to the `handleReject`
callback.

Files:

- `receive_request_card.dfy` (module `ReceiveRequestCard`): the request snapshot,
  JavaScript truthiness of the fields the card tests, the buttons and rows in layout
  order (`ActionButtons`, `NoticeRows`), the sets they form (`Actions`, `Notices`),
  and the class `RejectDialog` for the `useState` cells behind the reject dialog.
- `card_properties.dfy` (module `CardProperties`): lemmas that relate several
  requests or whole action sets.
- `seqs.dfy` (module `Seqs`): distinct sequences and their element sets.

Modelling choices:

- `status` is a plain string. It is compared by exact equality with
  `"pending_approval"` and `"approved"`, as the code does.
- `componentId` is `NoComponent` (null or undefined), `IdString(s)` (a raw id), or
  `Populated(name)` (a populated object). Only `NoComponent` and `IdString("")` are
  falsy. The card's extra `=== ""` test therefore never changes the outcome.
- `reason` and `reasonRejected` are optional strings. They count as set only when
  present and non-empty, which is JavaScript truthiness.
- `ComponentTruthy` and `TextTruthy` are helpers that spell out JavaScript
  truthiness for the tests at `src/components/ReceiveRequestCard.js` lines 38, 181
  and 188. Their meaning is carried by the contracts of `IsUnknownComponent` and
  `Notices`, which have rows below.
- The `IdString(id)` and `Populated(name)` payloads are carried so that a truthy id
  and a populated object are distinct cases. The rules never read them. The card
  displays `componentId?.name`, so a bare id string, or an object with an empty
  name, shows the "component unknown" label even though the rules treat the
  component as known and offer Approve and Reject. That label is display only and
  is not modelled.
- The card raises no error for an unrecognised or missing status: such a request
  is offered only View details. The card does not check that the rejection note is
  non-empty; it forwards whatever was typed. Besides the unknown-component,
  urgent, support-campaign and fulfilled rows, the card also shows a reason row and
  a rejection-reason row.
- The four typical cases (pending without a component, pending with a component,
  approved and not fulfilled, approved and fulfilled) are instances of
  `CardProperties.ActionShapes`.

## Model

| member | source | states |
|---|---|---|
| `ReceiveRequestCard.IsUnknownComponent` | src/components/ReceiveRequestCard.js:38 | The component is unknown exactly when `componentId` is missing or the empty string, which is exactly when it is falsy; the `=== ""` disjunct is subsumed |
| `ReceiveRequestCard.ActionButtons` | src/components/ReceiveRequestCard.js:198-259 | The rendered button row always starts with View details and never shows a button twice |
| `ReceiveRequestCard.Actions` | src/components/ReceiveRequestCard.js:199-259 | View details is always offered; Approve and Reject are each offered exactly when the status is "pending_approval" and the component is known; Select component exactly when the status is "pending_approval" and the component is unknown; Start distribution exactly when the status is "approved" and the request is not fulfilled |
| `ReceiveRequestCard.NoticeRows` | src/components/ReceiveRequestCard.js:141-195 | The conditional rows, in layout order, never repeat a row |
| `ReceiveRequestCard.Notices` | src/components/ReceiveRequestCard.js:40-195 | Each notice is shown exactly when its own field is set: unknown component when `componentId` is missing or empty, Urgent iff `isUrgent`, support campaign iff `needsSupport`, Fulfilled iff `isFullfill`, reason and rejected reason iff the text is present and non-empty |
| `ReceiveRequestCard.RejectDialog.constructor` | src/components/ReceiveRequestCard.js:36-37 | The dialog starts closed with an empty note and nothing forwarded |
| `ReceiveRequestCard.RejectDialog.Open` | src/components/ReceiveRequestCard.js:221-223 | Pressing Reject, which is only rendered when Reject is offered, opens the dialog and changes nothing else |
| `ReceiveRequestCard.RejectDialog.Close` | src/components/ReceiveRequestCard.js:280 | Closing the dialog hides it and keeps the typed note; nothing is forwarded |
| `ReceiveRequestCard.RejectDialog.SetNote` | src/components/ReceiveRequestCard.js:282-283 | Typing replaces the note and changes nothing else |
| `ReceiveRequestCard.RejectDialog.OnReject` | src/components/ReceiveRequestCard.js:82-86 | Confirming closes the dialog, forwards exactly one call carrying the request id and the note as it was before the call (empty or not), and leaves the note empty |
| `CardProperties.ActionShapes` | src/components/ReceiveRequestCard.js:209-259 | The action set is exactly {View details, Approve, Reject} for a pending request with a known component, {View details, Select component} for a pending request with an unknown component, {View details, Start distribution} for an approved, unfulfilled request, and {View details} for a fulfilled approved request and for every other status |
| `CardProperties.ActionsExclusive` | src/components/ReceiveRequestCard.js:209-259 | Select component never appears with Approve or Reject, and Start distribution never appears with any of the three |
| `CardProperties.ActionCount` | src/components/ReceiveRequestCard.js:198-259 | The card renders exactly one button per offered action, and between one and three buttons |
| `CardProperties.NoticeCount` | src/components/ReceiveRequestCard.js:141-195 | The card renders exactly one row per shown notice, at most six |
| `CardProperties.FlagsNeverChangeActions` | src/components/ReceiveRequestCard.js:142-195 | Changing the id, `isUrgent`, `needsSupport`, `reason` or `reasonRejected` never changes the action set |
| `CardProperties.NoticesIgnoreStatus` | src/components/ReceiveRequestCard.js:40-195 | The notices, the unknown-component warning included, do not depend on the status |
| `CardProperties.UnknownWarningOnlyByComponent` | src/components/ReceiveRequestCard.js:38 | Two requests with the same `componentId` agree on the unknown-component warning, and the warning shows exactly when the component is unknown |

## Left out

- The HTTP wrapper in `src/apis/bloodCompatibility.js`. It passes requests to the HTTP client and has no rules of its own.
- All rendering, styling and layout. This includes the colours and icons chosen for an unknown component or an urgent request, and the style sheet.
- The navigation to the distribution screen behind Start distribution. The model records only that the action is offered.
- The approve and select-component modals, including the `showApproveModal` and `showComponentModal` cells that open and close them. Their source is not part of this model.
- The reject modal's own markup. The model keeps only the state the card passes to it and the callbacks it receives.
- The display names and colours of statuses (`getStatusReceiveBloodName`, `getStatusReceiveBloodColor`) and date formatting (`formatDateTime`). Their source is not part of this model.
- React's batching of state updates. `OnReject` applies its three steps in order. The forwarded note is the one the render captured, which is the note before the call, so the final state is the same.
- How React Native treats a falsy non-boolean left operand of `&&`, such as an empty `reason` string. The model says only that no reason row is shown.
- Non-boolean values in `isUrgent`, `needsSupport` and `isFullfill`. These fields are modelled as booleans.
- ReceiveRequestCard.RejectDialog.OnReject: assumes the parent's `handleReject` callback returns normally. The card calls it between its two state updates with no error handling, so a callback that throws (for example, a missing prop) would leave the dialog closed but the typed note uncleared, and the error would propagate. The contract `rejectNote == ""` holds only for a callback that returns.
