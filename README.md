# Dispute chat notifications, modelled in Dafny

This project models Bisq's dispute message alert handler (`DisputeMsgEvents`).
The handler watches the list of arbitration disputes. It attaches a listener to
each dispute's chat message list, both for the disputes present when it is built
and for every dispute added later. For every chat message added to a watched
dispute, it sends a mobile notification through the mobile notification service,
unless the local P2P node wrote the message. When a dispute is attached and its
chat history is not empty, only the message at index 0 is evaluated. A failing
send is caught and dropped.

Files and modules:

- `Notifications.dfy` (module `Notifications`) holds the outbound side.
  `MobileMessage` has symbolic `Text` for the title and the body, so localisation
  keys stay unresolved. `MobileNotificationService` records every send in `log`
  as an `Attempt` with a `delivered` flag, and that flag is chosen
  nondeterministically. `Sent(log)` is the list of messages handed over.
  `Delivered(log)` is the sublist that went through. `Extends(after, before, msgs)`
  says that a log grew by exactly one attempt for each of `msgs`, in order,
  whatever their delivery outcomes.
- `ListChanges.dfy` (module `ListChanges`) models an observable-list change event
  as its first sub-change followed by any others. `AddedOfFirst` is what a
  listener gets when it steps once with `next()` and then checks `wasAdded()`.
- `DisputeMsgEvents.dfy` (module `DisputeMsgEvents`) holds the pure decision
  functions and the `Dispatcher` class. The functions are `Accept` (the sender
  filter), `MakeNotification`, `GetTestMsg`, `ChatMessageAttempts`,
  `BatchAttempts` and `AttachAttempts`/`AttachAll`. Each `Dispatcher` method
  states the growth of the service log as one of these functions.
- `Scenarios.dfy` (module `DisputeMsgScenarios`) holds client methods. They use
  only the dispatcher's contracts to derive end-to-end outcomes.

Modelling choices:

- The handler's state is `watched: multiset<DisputeId>`. It counts the chat
  listeners attached per dispute. Exactly one listener per dispute holds only
  while no dispute is added twice: `setDisputeListener` has no guard and adds a
  new listener on every call. Each listener re-evaluates every added message,
  so `OnChatMessagesChanged` hands over
  `Repeat(BatchAttempts(added), watched[id])`. `AddDistinctKeepsOnceEach` and
  `DistinctDisputesWatchedOnce` prove one listener per dispute when ids are
  never re-added. `ReAddedDisputeNotifiesTwice` shows what happens otherwise.
- The local address lives in a `P2PService` object. The dispatcher reads it
  every time it evaluates a message, as the source does. The address is
  `None` until the node's address is published; an address never equals
  null, so until then every message passes the filter.
  `AddressPublishedLater` shows the node's own messages being filtered once
  the address is known.
- The random UUID of `getTestMsg` is the `token` parameter. `GetTestMsg`
  requires at least 8 characters because `substring(0, 8)` throws on a shorter
  string. A UUID's string form always has 36 characters.

## Model

| member | source | states |
|---|---|---|
| `DisputeMsgEvents.Accept` | core/src/main/java/bisq/core/notifications/alerts/DisputeMsgEvents.java:89 | a message passes the sender filter exactly when its sender differs from the local address; while the local address is unknown (null), every message passes |
| `DisputeMsgEvents.MakeNotification` | core/src/main/java/bisq/core/notifications/alerts/DisputeMsgEvents.java:90-94 | the notification has the fixed dispute title key, the body key with the message's short id as its one argument, that short id as its id, and the dispute category |
| `DisputeMsgEvents.NotificationDeterminesShortId` | core/src/main/java/bisq/core/notifications/alerts/DisputeMsgEvents.java:90-94 | two notifications are equal exactly when their short ids are equal |
| `DisputeMsgEvents.ChatMessageAttempts` | core/src/main/java/bisq/core/notifications/alerts/DisputeMsgEvents.java:88-101 | evaluating one message attempts at most one send; it attempts one exactly when the sender is not the local address, and that send carries the message's short id and the dispute category |
| `DisputeMsgEvents.GetTestMsg` | core/src/main/java/bisq/core/notifications/alerts/DisputeMsgEvents.java:104-110 | the test message's short id is the first 8 characters of the token; it has the dispute category and the same title and body keys as a chat notification, whatever the dispute state |
| `DisputeMsgEvents.TestMsgsDifferOnlyInShortId` | core/src/main/java/bisq/core/notifications/alerts/DisputeMsgEvents.java:104-110 | two test messages are equal exactly when the 8-character token prefixes are; apart from the short id they are identical |
| `DisputeMsgEvents.BatchAttempts` | core/src/main/java/bisq/core/notifications/alerts/DisputeMsgEvents.java:71-74 | a batch attempts no more sends in total than it has messages, and every send is the notification for some message of the batch from another sender; the exact one-send-per-accepted-message count and order are in `BatchAttemptsAreAcceptedAlerts` |
| `DisputeMsgEvents.BatchAttemptsAppend` | core/src/main/java/bisq/core/notifications/alerts/DisputeMsgEvents.java:73 | the sends of a concatenated batch are the first part's sends followed by the second part's: each message's sends depend on that message alone (that a delivery failure does not affect later messages is the contract of `Dispatcher.SetChatMessages`) |
| `DisputeMsgEvents.BatchAttemptsAreAcceptedAlerts` | core/src/main/java/bisq/core/notifications/alerts/DisputeMsgEvents.java:71-74 | the sends of a batch are exactly one notification per message that passes the sender filter, in the batch's order (checked against an independent filter-then-map definition) |
| `DisputeMsgEvents.SelfSentCausesNoSend` | core/src/main/java/bisq/core/notifications/alerts/DisputeMsgEvents.java:88-89 | a message from the local address causes no send wherever it sits in a batch: removing it leaves the sends unchanged |
| `DisputeMsgEvents.OtherSentCausesOneSend` | core/src/main/java/bisq/core/notifications/alerts/DisputeMsgEvents.java:88-96 | a message from another sender causes exactly one send, its own notification, between the sends for the messages before it and after it |
| `DisputeMsgEvents.OnlySelfSentNoSends` | core/src/main/java/bisq/core/notifications/alerts/DisputeMsgEvents.java:88-89 | a batch written entirely by the local node causes no send |
| `DisputeMsgEvents.AttachAttempts` | core/src/main/java/bisq/core/notifications/alerts/DisputeMsgEvents.java:77-79 | attaching a dispute with an empty history attempts nothing; with a non-empty history it attempts at most one send, only for message 0, and exactly one if message 0 passes the filter |
| `DisputeMsgEvents.AttachIgnoresLaterHistory` | core/src/main/java/bisq/core/notifications/alerts/DisputeMsgEvents.java:78-79 | messages at indices 1..N-1 are never evaluated at attach time: replacing them by anything leaves the sends unchanged |
| `DisputeMsgEvents.AttachAll` | core/src/main/java/bisq/core/notifications/alerts/DisputeMsgEvents.java:56 | attaching a batch of disputes sends no more notifications than there are disputes, each one for message 0 of a dispute whose message 0 comes from another sender; the exact characterisation is `AttachAllIsFirstMessagesBatch` |
| `DisputeMsgEvents.AttachAllIsFirstMessagesBatch` | core/src/main/java/bisq/core/notifications/alerts/DisputeMsgEvents.java:56-59 | attaching a list of disputes sends exactly the chat-batch sends of their messages 0: one notification per dispute whose message 0 passes the filter, none for the others, in list order |
| `DisputeMsgEvents.AttachAllAppend` | core/src/main/java/bisq/core/notifications/alerts/DisputeMsgEvents.java:56 | attaching two lists one after the other sends the first list's attach-time notifications followed by the second's |
| `DisputeMsgEvents.EmptyHistoriesNoSends` | core/src/main/java/bisq/core/notifications/alerts/DisputeMsgEvents.java:55-57 | adding disputes whose histories are empty sends nothing |
| `DisputeMsgEvents.AddDistinctKeepsOnceEach` | core/src/main/java/bisq/core/notifications/alerts/DisputeMsgEvents.java:66-69 | if every watched dispute has one listener and the added ids are new and pairwise distinct, every watched dispute still has exactly one listener |
| `DisputeMsgEvents.Dispatcher.constructor` | core/src/main/java/bisq/core/notifications/alerts/DisputeMsgEvents.java:46-60 | after construction every dispute of the initial list is watched, one listener per occurrence, and the log grew by exactly the attach-time sends of those disputes, in list order, filtered against the P2P service's current address |
| `DisputeMsgEvents.Dispatcher.OnDisputesChanged` | core/src/main/java/bisq/core/notifications/alerts/DisputeMsgEvents.java:53-58 | only the added sublist of the first sub-change is attached; a change that is not an addition attaches and sends nothing; the only sends are the attach-time checks of the added disputes |
| `DisputeMsgEvents.Dispatcher.OnChatMessagesChanged` | core/src/main/java/bisq/core/notifications/alerts/DisputeMsgEvents.java:69-75 | each listener on the dispute evaluates every added message of the first sub-change in order; an unwatched dispute sends nothing; the watched set is not touched |
| `DisputeMsgEvents.Dispatcher.AttachEach` | core/src/main/java/bisq/core/notifications/alerts/DisputeMsgEvents.java:56 | attaching disputes one by one adds each id to the watched multiset and grows the log by their attach-time sends in order |
| `DisputeMsgEvents.Dispatcher.SetDisputeListener` | core/src/main/java/bisq/core/notifications/alerts/DisputeMsgEvents.java:66-80 | attaching adds one listener for the dispute and evaluates only message 0 of a non-empty history |
| `DisputeMsgEvents.Dispatcher.SetChatMessages` | core/src/main/java/bisq/core/notifications/alerts/DisputeMsgEvents.java:73 | evaluating a batch grows the log by exactly its batch sends, in order, whatever each send's outcome |
| `DisputeMsgEvents.Dispatcher.SetChatMessage` | core/src/main/java/bisq/core/notifications/alerts/DisputeMsgEvents.java:82-102 | a message from another sender adds one attempt carrying its notification, delivered or not; a failure is swallowed and changes nothing else; a self-sent message adds nothing |
| `Notifications.MobileNotificationService.SendMessage` | core/src/main/java/bisq/core/notifications/alerts/DisputeMsgEvents.java:95-100 | each send appends exactly one attempt for the message; whether it was delivered is outside the caller's control |
| `Notifications.DeliveredAppend` | core/src/main/java/bisq/core/notifications/alerts/DisputeMsgEvents.java:95-100 | delivery over a concatenated log is the concatenation of deliveries, so a failed send drops only its own message |
| `Notifications.DeliveredWereSent` | core/src/main/java/bisq/core/notifications/alerts/DisputeMsgEvents.java:95-100 | every delivered message was handed over, with no duplication (multiset inclusion) |
| `Notifications.NoFailureDeliversAll` | core/src/main/java/bisq/core/notifications/alerts/DisputeMsgEvents.java:95-100 | when no send fails, exactly the handed-over messages are delivered |
| `ListChanges.AddedOfFirst` | core/src/main/java/bisq/core/notifications/alerts/DisputeMsgEvents.java:54-56 | the listener handles the added elements of the first sub-change only, and nothing for a permutation or an update |
| `ListChanges.LaterSubChangesIgnored` | core/src/main/java/bisq/core/notifications/alerts/DisputeMsgEvents.java:71-73 | because `next()` is called once, sub-changes after the first never affect what is handled |
| `DisputeMsgScenarios.RemoteThenLocalMessage` | core/src/main/java/bisq/core/notifications/alerts/DisputeMsgEvents.java:53-101 | with no disputes at start, adding an empty dispute and then a remote and a local message hands over exactly one notification, for the remote message's short id |
| `DisputeMsgScenarios.WatcherSurvivesFailedSend` | core/src/main/java/bisq/core/notifications/alerts/DisputeMsgEvents.java:95-100 | after a send that may have failed, the next eligible message is still handed over |
| `DisputeMsgScenarios.OnlyFirstOfExistingHistory` | core/src/main/java/bisq/core/notifications/alerts/DisputeMsgEvents.java:59 | a dispute present at start with two remote messages causes one notification, for message 0 only |
| `DisputeMsgScenarios.ReAddedDisputeNotifiesTwice` | core/src/main/java/bisq/core/notifications/alerts/DisputeMsgEvents.java:66-75 | a dispute attached twice has two listeners, and one remote message is handed over twice |
| `DisputeMsgScenarios.AddressPublishedLater` | core/src/main/java/bisq/core/notifications/alerts/DisputeMsgEvents.java:89 | the local address is read per message: the node's own message is handed over while its address is unknown and filtered out once the address is published |
| `DisputeMsgScenarios.DistinctDisputesWatchedOnce` | core/src/main/java/bisq/core/notifications/alerts/DisputeMsgEvents.java:53-59 | a dispatcher built from disputes with pairwise distinct ids, then given more such disputes, has exactly one listener on each of them |

## Left out

- The JavaFX listener machinery is not modelled. Change events are explicit
  method calls. The handler registers its dispute-list listener before it
  enumerates the existing disputes (lines 53-59). Callbacks are serial in the
  model, so that ordering has no observable effect here.
- Listener removal and weak references are left out: the code never detaches a
  listener.
- The logging calls (lines 68, 70, 98-99) and `printStackTrace` are left out.
  They have no effect on state.
- `onAllServicesInitialized` (lines 62-64) is left out because it is empty.
- Dependency-injection wiring (`@Singleton`, `@Inject`) is left out.
- Localised text resolution is not modelled. Title and body are kept as
  localisation keys with their arguments.
- The notification transport is not modelled: encryption, network and the
  service's own failure causes. A send is either delivered or not, chosen
  nondeterministically.
- UUID generation is not modelled. The token is a parameter.
- `NodeAddress` and `ChatMessage` come from other classes that are not part of
  this model. An address is a host and a port compared structurally. A chat
  message is reduced to its trade id, its sender and its short id.
- A null sender address, which would make the real filter throw, is not
  modelled.
- A dispute's identity is its id. Two distinct dispute objects with the same id
  are not distinguished.
- A chat change event received for a dispute id is processed once for each
  listener attached to that id. The model does not track which dispute object
  carries which listener.
- `P2PService` is reduced to the node's own address. How and when the address
  becomes known is not modelled; `PublishAddress` stands for that event.
