# njc-cash-api real-time layer and REST business rules, modelled in Dafny

njc-cash-api is the back end of a micro-lending service. This project models two parts of it.

The first is its **real-time event layer**:
- the chat consumer: one WebSocket connection to a conversation;
- the notification consumer: a user's unread notifications;
- the loan-updates consumer: a user's loan events;
- the dispatch utility that REST code calls to push events to those groups, including `trigger_loan_status_change`.

The second is the **business rules inside the REST views and serializers**:
- loan payment settlement and repayment progress;
- repayment on-time/late classification, listings and statistics;
- the single default payment method and its masked label;
- session logout and the device label;
- notification read state, the signed amount label and the time-ago label;
- the chat message and conversation actions;
- the blacklist check, removal and statistics;
- credit checks, KYC documents and biometric verification;
- the e-wallet disbursement transitions.

How the model is built:
- Each database table is a `map` from primary key to a record `datatype`.
- A table or a connection that the source updates in place is a `class` whose methods reassign those fields. Each method's `ensures` ties the new state to a pure function of the old state.
- The channel layer is a class holding the group membership map and a log of every `group_send`, with the members at the time of the call.
- Each consumer writes its outbound frames to a `sent` sequence.
- Exact decimals are integers of cents. Timestamps and calendar days are integers.
- Request parameters are `Option<string>`, where `None` means absent. Python's truthiness is `Given`.
- An id parameter reaches the ORM as text and is read as `int()` reads it (`ParseInt`): surrounding whitespace, a sign and `_` digit grouping are accepted. A negative id names no row.
- The error responses are `Result` values: 400, 404, and the 500 that an uncaught exception becomes.

Files:
- `common.dfy`, `text.dfy`, `channels.dfy`: shared definitions.
- `chat_data.dfy`, `chat_consumer.dfy`: the chat consumer.
- `notification_data.dfy`, `notification_consumer.dfy`: the notification consumer.
- `loan_updates_consumer.dfy`: the loan-updates consumer.
- `websocket_utils.dfy`: the dispatch utility.
- One file per REST view or serializer.

## Model

| member | source | states |
|---|---|---|
| Text.RequiredId | backend/api/views/Notification.py:17-23 | A missing or empty id parameter is a 400. Text `int()` rejects raises in the lookup (500). Otherwise the id is exactly what `int()` reads, possibly negative. |
| Text.RequiredIdValue | backend/api/views/Notification.py:52-58 | A missing or falsy id in a JSON body (`0` or `''`) is a 400. Text `int()` rejects raises in the lookup (500). Otherwise the id is the number itself, or what `int()` reads from the text. |
| Text.BodyIdsAgreeWithQueryIds | backend/api/views/UserSession.py:38-43 | Text in a body is read as the same text in a query string, and a non-zero JSON number is its own id. A JSON `0` is missing (400), but the text `"0"` names the id 0. |
| Text.ParseIntExtendsParseNat | backend/api/views/Notification.py:23 | A plain digit string is read as its decimal value. |
| Text.ParseIntPadded | backend/api/views/Notification.py:23 | A rendered id surrounded by any whitespace reads back as that id. |
| Text.ParseIntSigned | backend/api/views/Notification.py:23 | A rendered id after `+` reads back as the id, and after `-` as its negation. |
| Text.UnderscoreJoinsGroups | backend/api/views/Notification.py:23 | An underscore between two digit groups is ignored: `1_000` reads as 1000. |
| Text.BlankIsNotANumber | backend/api/views/Notification.py:23 | Whitespace-only text is not a number. |
| Text.NatToString | backend/api/utils/websocket_utils.py:17 | An id renders as at least one decimal digit, with no leading zero except for 0 itself. |
| Text.ParseNatToString | backend/api/utils/websocket_utils.py:17 | Parsing a rendered id gives the id back. |
| Text.NatToStringInjective | backend/api/utils/websocket_utils.py:34 | Distinct ids render differently, so names built from ids never collide. |
| Text.DecimalStringRoundTrip | backend/api/utils/websocket_utils.py:101 | `str(Decimal)` of a two-place amount reads back to exactly that amount. |
| Text.UngroupGrouped | backend/api/serializers/Notification.py:32 | Thousands grouping only inserts commas: removing them gives the digits back. |
| Text.LowerAscii | backend/api/views/Notification.py:31 | Lower-cases ASCII letters only, in place. That decides `is_read.lower() == 'true'` exactly, since only ASCII letters can lower to the letters of `true`. |
| Channels.PersonalGroupsAreDistinct | backend/api/utils/websocket_utils.py:34 | Two users never share a `notifications_` group or a `loan_updates_` group. |
| Channels.GroupKindsAreDisjoint | backend/api/utils/websocket_utils.py:17 | A `chat_` group never equals a `notifications_` or `loan_updates_` group, and those two never equal each other. |
| Channels.ReplayMembership | backend/api/consumers/chat_consumer.py:28-61 | After any sequence of `group_add`/`group_discard` calls, a connection is in a group exactly when the last call about that pair was an add. With no such call, membership is as it was before. |
| Channels.Join | backend/api/consumers/chat_consumer.py:29-32 | After a join the group has exactly one more possible member, the connection. Every other group keeps its members. |
| Channels.Leave | backend/api/consumers/chat_consumer.py:58-61 | After a leave the group has lost exactly the connection. Every other group keeps its members. |
| Channels.ChannelLayer.GroupAdd | backend/api/consumers/chat_consumer.py:29-32 | The membership becomes `Join` of the old one. The group's members gain the connection, and nothing is published. |
| Channels.ChannelLayer.GroupDiscard | backend/api/consumers/chat_consumer.py:58-61 | The membership becomes `Leave` of the old one. The group's members lose the connection, and nothing is published. |
| Channels.ChannelLayer.GroupSend | backend/api/utils/websocket_utils.py:16-22 | One publication is appended, addressed to the group's members at the time of the call. Membership is unchanged. |
| ChatData.WithReadReceipt | backend/api/consumers/chat_consumer.py:267-284 | After a read the reader has a receipt. A reader who already had one leaves the message unchanged. Otherwise exactly one receipt is appended and the status becomes `READ`. |
| ChatData.ExactlyOneReceiptPerReader | backend/api/consumers/chat_consumer.py:276-282 | However many times a user reads a message, exactly one receipt of theirs remains, carrying the first read's time. |
| ChatData.ReceiptKeepsOthers | backend/api/consumers/chat_consumer.py:276-282 | A read never removes or reorders earlier receipts, and never changes another user's receipt count. |
| ChatData.OnlySenderChangesMessage | backend/api/consumers/chat_consumer.py:286-306 | Edit and delete change nothing unless the requester is the sender. An edit sets exactly the text, `edited` and `edited_at`. A delete sets exactly `deleted` and keeps the text. |
| ChatData.EditAfterDeleteApplies | backend/api/consumers/chat_consumer.py:286-296 | The sender can still edit a deleted message: the text is rewritten and `deleted` stays set. |
| ChatData.MarkReadIn | backend/api/consumers/chat_consumer.py:267-284 | No row is added or removed, and other rows are unchanged. An existing message then has a receipt from the reader, and its text is kept. |
| ChatData.EditIn | backend/api/consumers/chat_consumer.py:286-296 | No row is added or removed, and other rows are unchanged. A non-sender changes nothing. The sender's edit sets the text, `edited` and `edited_at`, and keeps `deleted`. |
| ChatData.DeleteIn | backend/api/consumers/chat_consumer.py:298-306 | No row is added or removed, and other rows are unchanged. A non-sender changes nothing. The sender's delete sets `deleted` and keeps the text. |
| ChatConsumers.FindConversation | backend/api/consumers/chat_consumer.py:243 | The conversation is found exactly when `int()` reads the route id as a stored id, and then it is that id. |
| ChatConsumers.ReplyTarget | backend/api/consumers/chat_consumer.py:245-250 | A truthy reply id that `int()` rejects raises `ValueError`. Otherwise the reply target is set exactly when a truthy id names an existing message. A falsy id, or one naming no message (a negative one included), gives `None` and no error |
| ChatConsumers.ReadById | backend/api/consumers/chat_consumer.py:267-284 | The `get(id=...)` lookup of `mark_message_read`: it raises exactly when `int()` rejects the id. A negative id changes nothing. Otherwise the table becomes `MarkReadIn` for that id. |
| ChatConsumers.EditById | backend/api/consumers/chat_consumer.py:286-296 | The same reading of the id for `edit_message`: it raises exactly when `int()` rejects it, and a negative id changes nothing. Otherwise the table becomes `EditIn`. |
| ChatConsumers.DeleteById | backend/api/consumers/chat_consumer.py:298-306 | The same reading of the id for `delete_message`: it raises exactly when `int()` rejects it, and a negative id changes nothing. Otherwise the table becomes `DeleteIn`. |
| ChatConsumers.ReceiveOutcome | backend/api/consumers/chat_consumer.py:63-77 | Unrecognised types change nothing and publish nothing. `receive` raises exactly in two cases: a `message` frame for an unknown conversation or with a reply id `int()` rejects, and a read, edit or delete frame whose truthy id `int()` rejects. A raise changes nothing and publishes nothing. Only a `message` frame can touch conversations or the id counter |
| ChatConsumers.MissingTypeIsMessage | backend/api/consumers/chat_consumer.py:66-67 | A frame without `type` is handled as `message`. |
| ChatConsumers.NewMessageBecomesLast | backend/api/consumers/chat_consumer.py:81-92 | A new message gets a fresh id. Its sender is the connection's user, whatever its text. It becomes the conversation's `last_message`, and other rows are unchanged. |
| ChatConsumers.IgnoredEditsAreStillPublished | backend/api/consumers/chat_consumer.py:144-175 | An edit or delete from a non-sender raises nothing and changes no row, yet `message_edited` or `message_deleted` is still published with the id as sent |
| ChatConsumers.MissingIdIsStillPublished | backend/api/consumers/chat_consumer.py:127-175 | A truthy id that names no row, a negative one included, changes nothing. The read receipt, edit or deletion is still published with the id as sent. |
| ChatConsumers.FalsyIdDoesNothing | backend/api/consumers/chat_consumer.py:127-175 | A read receipt, edit or delete whose id is absent, `0` or `''` changes nothing and publishes nothing |
| ChatConsumers.ChatDeliver | backend/api/consumers/chat_consumer.py:178-237 | Typing, joined and left events about the connection's own user are skipped. Every other chat event is sent with its outbound type. A chat message is sent unchanged to every member. Sent frames are never about the receiver's own presence. |
| ChatConsumers.InboxIsEchoFree | backend/api/consumers/chat_consumer.py:185-237 | Across any run, no connection is told about its own user's typing, joining or leaving. |
| ChatConsumers.ChatMessagesReachEveryMember | backend/api/consumers/chat_consumer.py:178-183 | Every chat message published while a connection is a member reaches it, the sender's connection included. |
| ChatConsumers.ChatConsumer.Connect | backend/api/consumers/chat_consumer.py:16-44 | An absent or anonymous user is closed: no join, no accept, no group name, nothing published. Otherwise the connection joins `chat_<id>`, accepts, and `user_joined` is published to the members, itself included. |
| ChatConsumers.ChatConsumer.Disconnect | backend/api/consumers/chat_consumer.py:46-61 | Only a joined connection publishes `user_left`, to the members before leaving, and then leaves. Otherwise nothing changes. |
| ChatConsumers.ChatConsumer.Receive | backend/api/consumers/chat_consumer.py:63-77 | The store, the publish log and `raised` change exactly as `ReceiveOutcome` says. The store's invariants are kept: row ids, and every `last_message` naming a stored row |
| ChatConsumers.ChatConsumer.HandleChatMessage | backend/api/consumers/chat_consumer.py:79-111 | The message is stored, then a `chat_message` event with the stored row is published. If the conversation lookup raises, nothing is stored or published. |
| ChatConsumers.ChatConsumer.HandleTypingIndicator | backend/api/consumers/chat_consumer.py:113-125 | Only a `typing_indicator` event is published. `is_typing` defaults to false. |
| ChatConsumers.ChatConsumer.HandleReadReceipt | backend/api/consumers/chat_consumer.py:127-142 | With a truthy id, the receipt is recorded and `read_receipt` is published, unless the id raises, in which case nothing is published. Otherwise nothing happens |
| ChatConsumers.ChatConsumer.HandleEditMessage | backend/api/consumers/chat_consumer.py:144-160 | With a truthy id that does not raise, the message is edited if the requester sent it, and `message_edited` is published either way |
| ChatConsumers.ChatConsumer.HandleDeleteMessage | backend/api/consumers/chat_consumer.py:162-175 | With a truthy id that does not raise, the message is soft-deleted if the requester sent it, and `message_deleted` is published either way |
| ChatConsumers.ChatConsumer.CreateMessage | backend/api/consumers/chat_consumer.py:240-265 | An unknown conversation, or a reply id that `int()` rejects, raises and stores nothing. Otherwise the new row has the next id, the requester as sender and the looked-up reply target, and it becomes the conversation's last message |
| ChatConsumers.ChatConsumer.MarkMessageRead | backend/api/consumers/chat_consumer.py:267-284 | Raises exactly when `ReadById` does. Otherwise the messages become what `ReadById` gives: an idempotent receipt on an existing message, and no change for a missing or negative id |
| ChatConsumers.ChatConsumer.EditMessage | backend/api/consumers/chat_consumer.py:286-296 | Raises exactly when `EditById` does. Otherwise the messages become what `EditById` gives: the sender-guarded edit, and no change for a missing id |
| ChatConsumers.ChatConsumer.DeleteMessage | backend/api/consumers/chat_consumer.py:298-306 | Raises exactly when `DeleteById` does. Otherwise the messages become what `DeleteById` gives: the sender-guarded soft delete, and no change for a missing id |
| ChatConsumers.ChatConsumer.OnGroupEvent | backend/api/consumers/chat_consumer.py:178-237 | A group event is handled exactly when the class has a handler for it, and the socket receives exactly the frames `ChatDeliver` gives. |
| NotificationData.MarkAllReadClearsOnlyThatUser | backend/api/consumers/notification_consumer.py:90-96 | After mark-all-read the user has no unread row. No row is added or removed. Already-read rows and other users' rows are unchanged, including their `read_at`. |
| NotificationData.MarkOneReadEffect | backend/api/consumers/notification_consumer.py:79-88 | Marking a row read removes it from its owner's unread set and sets `read_at` to now. A second mark refreshes `read_at`. No other row changes. |
| NotificationData.MarkOneRead | backend/api/views/Notification.py:41-44 | No row is added or removed, and other rows are unchanged. An existing row becomes read with `read_at` = now, and keeps its owner. |
| NotificationData.MarkOwnedRead | backend/api/consumers/notification_consumer.py:83-88 | No row is added or removed. A foreign or missing id changes nothing. The user's own row becomes read with `read_at` = now. |
| NotificationData.MarkAllRead | backend/api/views/Notification.py:59-62 | No row is added or removed. A row is read afterwards exactly when it was read before or belongs to the user. Owners are unchanged. |
| NotificationData.InsertUnreadCounts | backend/api/utils/websocket_utils.py:214-224 | A new unread row raises its owner's unread count by one and leaves everyone else's count as it was. |
| NotificationData.NotificationTable.Insert | backend/api/utils/websocket_utils.py:214-220 | The new row takes the next id and is unread with no `read_at`. All other rows are kept. |
| NotificationData.NotificationTable.MarkRead | backend/api/views/Notification.py:41-44 | The table becomes `MarkOneRead` of the old table. |
| NotificationData.NotificationTable.MarkReadFor | backend/api/consumers/notification_consumer.py:83-88 | The table becomes `MarkOwnedRead`: a foreign or missing id changes nothing. |
| NotificationData.NotificationTable.MarkAllReadFor | backend/api/consumers/notification_consumer.py:93-96 | The table becomes `MarkAllRead` of the old table for that user. |
| NotificationConsumers.AfterAction | backend/api/consumers/notification_consumer.py:46-56 | `mark_read` with a truthy id that `int()` rejects raises and changes nothing. An unknown action, or `mark_read` without a truthy id, changes nothing. No action adds or removes rows or touches another user's rows |
| NotificationConsumers.MarkOwnedById | backend/api/consumers/notification_consumer.py:79-88 | The `get(id=..., user=...)` lookup raises exactly when `int()` rejects the id. A negative id changes nothing. Otherwise the table becomes `MarkOwnedRead` for that id. |
| NotificationConsumers.NotificationDeliver | backend/api/consumers/notification_consumer.py:59-71 | Exactly the `notification` and `unread_count` events are forwarded, with their payload unchanged and the event's own type. |
| NotificationConsumers.NotificationConsumer.Connect | backend/api/consumers/notification_consumer.py:14-37 | An absent or anonymous user is closed without joining. Otherwise the connection joins `notifications_<id>`, accepts, and first receives its user's unread count. |
| NotificationConsumers.NotificationConsumer.Disconnect | backend/api/consumers/notification_consumer.py:39-44 | The connection leaves the group only if it joined one. Nothing is published. |
| NotificationConsumers.NotificationConsumer.Receive | backend/api/consumers/notification_consumer.py:46-56 | No frame is sent back. The table and `raised` are as `AfterAction` says |
| NotificationConsumers.NotificationConsumer.GetUnreadCount | backend/api/consumers/notification_consumer.py:74-77 | The result is the number of the user's unread rows. |
| NotificationConsumers.NotificationConsumer.MarkNotificationRead | backend/api/consumers/notification_consumer.py:79-88 | Raises exactly when `MarkOwnedById` does. Otherwise the table becomes what it gives: only a row owned by this user is marked read |
| NotificationConsumers.NotificationConsumer.MarkAllNotificationsRead | backend/api/consumers/notification_consumer.py:90-96 | All of the user's unread rows are marked read, and the user's unread count becomes 0. |
| NotificationConsumers.NotificationConsumer.OnGroupEvent | backend/api/consumers/notification_consumer.py:59-71 | The socket receives exactly the frame `NotificationDeliver` gives, if any. |
| LoanUpdatesConsumers.LoanDeliver | backend/api/consumers/loan_updates_consumer.py:37-82 | Exactly the five loan events are forwarded. Each frame has the event's type and its fields copied. A missing `message` becomes `''`, and so does a missing `account_number`. |
| LoanUpdatesConsumers.LoanUpdatesConsumer.Connect | backend/api/consumers/loan_updates_consumer.py:11-27 | An absent or anonymous user is closed without joining. Otherwise the connection joins `loan_updates_<id>` and accepts. |
| LoanUpdatesConsumers.LoanUpdatesConsumer.Disconnect | backend/api/consumers/loan_updates_consumer.py:29-34 | The connection leaves only when its group name was set. |
| LoanUpdatesConsumers.LoanUpdatesConsumer.OnGroupEvent | backend/api/consumers/loan_updates_consumer.py:37-82 | The socket receives exactly the frame `LoanDeliver` gives for a loan event, and nothing for any other event. |
| WebsocketUtils.ChatMessageEnvelope | backend/api/utils/websocket_utils.py:7-22 | The message goes to `chat_<conversation id>` as a `chat_message` event carrying it unchanged. |
| WebsocketUtils.NotificationEnvelope | backend/api/utils/websocket_utils.py:24-39 | The notification goes to `notifications_<user>`. |
| WebsocketUtils.UnreadCountEnvelope | backend/api/utils/websocket_utils.py:42-57 | The count goes to `notifications_<user>`. |
| WebsocketUtils.LoanStatusEnvelope | backend/api/utils/websocket_utils.py:60-82 | The status goes to `loan_updates_<user>`, and the `message` key is always present. |
| WebsocketUtils.LoanApprovalEnvelope | backend/api/utils/websocket_utils.py:85-104 | Sent to `loan_updates_<user>`. The amount text reads back to exactly the approved amount. |
| WebsocketUtils.LoanDisbursementEnvelope | backend/api/utils/websocket_utils.py:107-126 | Sent to `loan_updates_<user>`. The amount text reads back exactly, and the account number is carried. |
| WebsocketUtils.PaymentReceivedEnvelope | backend/api/utils/websocket_utils.py:129-150 | Sent to `loan_updates_<user>`. Both the amount and the remaining balance read back exactly. |
| WebsocketUtils.PaymentDueReminderEnvelope | backend/api/utils/websocket_utils.py:153-172 | The due date is its ISO form for a date and its `str` otherwise. The amount reads back exactly. |
| WebsocketUtils.LoanFramesCarryExactAmounts | backend/api/utils/websocket_utils.py:101 | The frames a loan-updates connection writes carry amount strings that read back to the exact amounts sent. |
| WebsocketUtils.PushesReachOnlyTheAddressee | backend/api/utils/websocket_utils.py:34 | A push addressed to one user never lands in another user's group. |
| WebsocketUtils.Publish | backend/api/utils/websocket_utils.py:18 | Each `send_*` appends one publication, to its group's current members, and changes no membership. |
| WebsocketUtils.NotificationTypeFor | backend/api/utils/websocket_utils.py:193-202 | A status falls back to `loan_update` exactly when it is not one of the seven known statuses. |
| WebsocketUtils.NotificationTitleFor | backend/api/utils/websocket_utils.py:203-212 | A status falls back to `Loan Status Update` exactly when it is not one of the seven known statuses. |
| WebsocketUtils.StatusMapsAreInjective | backend/api/utils/websocket_utils.py:193-212 | Distinct known statuses get distinct types and distinct titles. |
| WebsocketUtils.StoredMessage | backend/api/utils/websocket_utils.py:218-220 | A non-empty message is kept. An empty one becomes `Your loan status has been updated to <status>`, which is never empty. |
| WebsocketUtils.StatusNotification | backend/api/utils/websocket_utils.py:214-221 | The row belongs to the loan's addressee and refers to the loan. It is unread, with the status's type and title and a non-empty message. |
| WebsocketUtils.RelatedLoanKeywordIsUnknown | backend/api/utils/websocket_utils.py:214-221 | `related_loan_id` is not a keyword of the notification model, so the create as written is rejected. The same create passing `loan_id` is accepted. |
| WebsocketUtils.TriggerLoanStatusChangeAsWritten | backend/api/utils/websocket_utils.py:174-229 | As written: only the live status push goes out. No notification is stored and no unread count is pushed, and the call returns normally. |
| WebsocketUtils.TriggerLoanStatusChange | backend/api/utils/websocket_utils.py:174-229 | As intended, with the loan passed as `loan_id`: the live status push always happens first. Then an unread notification is stored, then the addressee's new unread count is pushed. A failure at either step stops there and returns normally. |
| WebsocketUtils.PushedCountIsOneMore | backend/api/utils/websocket_utils.py:222-226 | The pushed unread count is exactly one more than the addressee had before. |
| NotificationViews.IsTrueTextExactly | backend/api/views/Notification.py:31-32 | `is_read` selects read rows exactly for the 16 capitalisations of `true`. |
| NotificationViews.UserNotifications | backend/api/views/Notification.py:13-36 | As intended, with the type filter on `notification_type`: without `user_id` the answer is 400, and text `int()` rejects is a 500. Otherwise the rows returned are exactly that user's rows passing the optional type and read filters. |
| NotificationViews.UserNotificationsAsWritten | backend/api/views/Notification.py:13-36 | As written: a truthy `type` always fails, with a 400 when `user_id` is missing and a 500 otherwise. Without a type, the serializer's unknown `type` field (backend/api/serializers/Notification.py:13) makes every non-empty selection a 500. Only an empty intended listing is answered, as `[]`. |
| NotificationViews.ListingFailsOnAnyRow | backend/api/serializers/Notification.py:13 | As written, a user with any notification passing the read filter gets a 500. The intended listing contains that notification. |
| NotificationViews.TypeFilterAlwaysFails | backend/api/views/Notification.py:26-28 | Every type filter is a 500 as written, where the intended listing answers with the user's rows of that type. |
| NotificationViews.UnreadCountAction | backend/api/views/Notification.py:66-77 | Without `user_id` the answer is 400, and text `int()` rejects is a 500. Otherwise it is the number of unread rows of the user `int()` reads, which is 0 for a negative id. |
| NotificationViews.CountMatchesUnreadList | backend/api/views/Notification.py:66-77 | The unread count and the `is_read=false` listing succeed for the same `user_id`, and then the count is the listing's size. |
| NotificationViews.MarkReadAction | backend/api/views/Notification.py:38-47 | As intended, with the serializer rendering the type from `notification_type`: a missing id is a 404. Otherwise only that row becomes read, with `read_at` = now, and the read row is the answer. |
| NotificationViews.MarkReadAsWritten | backend/api/views/Notification.py:38-47 | As written: a missing id is a 404. Otherwise the row is marked read and saved as intended, and then the answer is a 500 from the serializer's unknown `type` field, so the read mark stays. |
| NotificationViews.MarkAllReadAction | backend/api/views/Notification.py:49-64 | Without a truthy body `user_id` (a JSON `0` included) the answer is 400, and text `int()` rejects is a 500; neither changes anything. Otherwise the unread rows of that user are marked read, and none of that user's rows stays unread. |
| NotificationSerializer.Money | backend/api/serializers/Notification.py:32 | Renders a grouped amount with two decimals. |
| NotificationSerializer.FormattedAmount | backend/api/serializers/Notification.py:29-33 | Gives nothing exactly for a missing or zero amount. A `+` leads exactly when the amount is positive, followed by `R ` and the grouped amount. |
| NotificationSerializer.MoneyReadsBack | backend/api/serializers/Notification.py:32 | Dropping the separators from the rendered amount gives `str(Decimal)`, which reads back to the exact amount. |
| NotificationSerializer.FormattedAmountReadsBack | backend/api/serializers/Notification.py:29-33 | The formatted label after its prefix reads back to the exact amount. |
| NotificationSerializer.AgeBucket | backend/api/serializers/Notification.py:35-51 | Under 60 s is "Just now". [60, 3600) s is whole minutes in 1..59. [3600, 86400) s is whole hours in 1..23. From one day on, the absolute date is shown. |
| NotificationSerializer.TimeAgo | backend/api/serializers/Notification.py:35-51 | Under a minute the label is `Just now`, and from a day on it is the creation date. In between, the number before `m ago` or `h ago` reads back as the whole minutes or hours elapsed. |
| NotificationSerializer.TimeAgoIsMonotone | backend/api/serializers/Notification.py:42-49 | An older notification never shows fewer minutes or hours within a bucket. The minutes label reads back to the bucket's value. |
| Loans.PersonName | backend/api/models/Customer.py:63-65 | The name is the first name, one space, then the last name. |
| Loans.FullName | backend/api/models/Customer.py:63-65 | The customer's first name, one space, then the last name. |
| Loans.PersonNameSplits | backend/api/serializers/Repayment.py:29-30 | When the first name has no space, the text before the first space is the first name and the text after it is the last name. |
| PaymentViews.TruncDiv | backend/api/views/Payment.py:52 | `int()` of a quotient truncates toward zero. |
| PaymentViews.TruncDivMonotone | backend/api/views/Payment.py:52 | Truncating division by a positive divisor is monotone. |
| PaymentViews.Settled | backend/api/views/Payment.py:45-53 | The balance drops by exactly the amount. At or below zero it is clamped to 0 and the loan is `CLOSED`. Otherwise the status is kept. Progress is recomputed only when the total is positive. No other field changes. |
| PaymentViews.ProgressBounds | backend/api/views/Payment.py:51-53 | For a balance within the total, progress is in 0..100, and it is 100 exactly when nothing remains. |
| PaymentViews.ProgressMonotone | backend/api/views/Payment.py:51-53 | A smaller remaining balance never shows less progress. |
| PaymentViews.SettledComposes | backend/api/views/Payment.py:45-53 | Two payments in a row settle a loan as one payment of their sum would. |
| PaymentViews.ClosingPaysInFull | backend/api/views/Payment.py:46-53 | A closing payment shows 100% progress, and the loan stays closed at 0 after any further payment. |
| PaymentViews.LoanLookup | backend/api/views/Payment.py:25 | The loan is found exactly when `int()` reads the id as a stored loan. Text `int()` rejects is a 400 through the view's generic handler. A missing id, or one naming no loan (a negative one included), is a 404. |
| PaymentViews.LoanPayments | backend/api/views/Payment.py:71-83 | As intended, with the serializer rendering `transaction_reference`: without `loan_id` the answer is 400, and text `int()` rejects is a 500. Otherwise the payments returned are exactly those of the loan `int()` reads. |
| PaymentViews.LoanPaymentsAsWritten | backend/api/views/Payment.py:71-83 | As written: the serializer's unknown `reference_number` field makes every non-empty listing a 500. Only a loan without payments is answered, as `[]`, and errors are the intended ones. |
| PaymentViews.PaymentListingFailsOnAnyRow | backend/api/serializers/Payment.py:25 | As written, a loan with any payment gets a 500. The intended listing contains that payment. |
| PaymentViews.ApplyPayment | backend/api/views/Payment.py:45-53 | The view's step-by-step loan update gives exactly the `Settled` loan. |
| PaymentViews.PaymentLedger.ProcessPayment | backend/api/views/Payment.py:16-69 | As intended, with the serializer rendering `transaction_reference`: a lookup error or a missing amount changes nothing. Otherwise one `COMPLETED` payment with `processed_at` and the `REGULAR` default type is stored, the loan becomes `Settled`, and the payment is the answer (201). |
| PaymentViews.PaymentLedger.ProcessPaymentAsWritten | backend/api/views/Payment.py:16-69 | As written, every answer is an error. Lookup errors and a missing amount are as intended and change nothing. A payment that goes through is answered 400, because rendering it raises on `reference_number` and the generic handler catches that. The completed payment and the settled loan stay saved. |
| RepaymentSerializer.StatusCode | backend/api/models/Repayment.py:7-12 | Only `Pending` is stored as `PENDING`. |
| RepaymentSerializer.StatusCodeInjective | backend/api/models/Repayment.py:7-12 | Distinct statuses are stored as distinct texts. |
| RepaymentSerializer.BorrowerName | backend/api/serializers/Repayment.py:29-30 | The serializer's borrower name is the borrowing customer's `full_name`. |
| RepaymentSerializer.IsOverdue | backend/api/serializers/Repayment.py:32-34 | Only a pending row is overdue, and no row is overdue on or before its due date. |
| RepaymentSerializer.RemainingBalance | backend/api/serializers/Repayment.py:36-37 | The remaining balance plus the amount paid is the amount due. It is 0 exactly when paid equals due, and negative exactly when overpaid. |
| RepaymentSerializer.OverdueOnlyWhilePending | backend/api/serializers/Repayment.py:32-34 | A non-pending row is never overdue. A pending overdue row stays overdue as days pass. |
| RepaymentViews.Listing | backend/api/views/Repayment.py:16-40 | A `loan_id` that `int()` rejects is a 500. Otherwise the rows listed are exactly those passing every filter given (status, the loan `int()` reads, `overdue=true`), so no filter lists every row. |
| RepaymentViews.Upcoming | backend/api/views/Repayment.py:42-56 | Exactly the listed `PENDING` rows due within 30 days of today, overdue ones included. |
| RepaymentViews.Overdue | backend/api/views/Repayment.py:58-69 | Exactly the listed `PENDING` rows due before today. |
| RepaymentViews.OverdueAgreesEverywhere | backend/api/views/Repayment.py:58-69 | Overdue rows are among the upcoming ones. Unfiltered, they are exactly the rows the serializer marks overdue, and `?overdue=true` lists them too. |
| RepaymentViews.TotalText | backend/api/views/Repayment.py:101-107 | A zero total renders as `0`. Any other total renders as a decimal that reads back exactly. |
| RepaymentViews.StatsOf | backend/api/views/Repayment.py:96-125 | `stats` answers exactly when the listing does, with the same errors. What its counts and totals add up to is proved by `StatusCountsPartition` and `TotalsSplitTheListing`. |
| RepaymentViews.StatusCountsPartition | backend/api/views/Repayment.py:109-116 | The on-time, late and missed counts plus the pending rows make up the listing, and the overdue count is at most the pending rows. |
| RepaymentViews.TotalsSplitTheListing | backend/api/views/Repayment.py:101-107 | The due total over pending rows plus the paid total over the rest is the sum over the whole listing. With no pending row, the due total is `0`. |
| RepaymentViews.Paid | backend/api/views/Repayment.py:77-89 | The status is `ON_TIME` exactly when paid on or before the due date, and `LATE` exactly when after. With the default amount nothing remains. Only the payment fields and the status change. |
| RepaymentViews.MarkPaidAsWritten | backend/api/views/Repayment.py:71-94 | As written: a missing row is a 404. A supplied date, a null amount or a non-decimal text amount is a 500 with the table unchanged. A fractional or text amount is saved and then a 500. Only the default or an integer amount succeeds. Only the target row can change. |
| RepaymentViews.TextAmountFailsAfterSave | backend/api/views/Repayment.py:78-91 | As written, `{"amount_paid": "150.00"}` answers 500 although the repayment is saved as paid with that amount. |
| RepaymentViews.SuppliedPaymentDateFails | backend/api/views/Repayment.py:77-89 | As written, any supplied `payment_date` gives a 500 and the repayment stays pending. |
| RepaymentViews.RepaymentTable.MarkPaid | backend/api/views/Repayment.py:71-94 | A missing row is a 404. Otherwise the row becomes `Paid` with the supplied date, or with today. Without a date and with the default or a whole amount, it agrees with the code as written. |
| RepaymentViews.PaidInFullIsSettled | backend/api/views/Repayment.py:78 | Paid with the default amount, nothing remains and the row is never overdue again. |
| PaymentMethods.LastFour | backend/api/serializers/PaymentMethod.py:32 | `s[-4:]` is the last four characters, or all of a shorter text. |
| PaymentMethods.DisplayName | backend/api/serializers/PaymentMethod.py:28-34 | A card shows `<type> •••• <last four>`. A bank account shows `<bank> •••• ` and the account's tail, and raises when there is no account number. Any other type shows `<provider> - <number>`. |
| PaymentMethods.BankLabelMasksAccount | backend/api/serializers/PaymentMethod.py:32 | A bank label shows at most four characters of the account number: its tail, or all of a short number. |
| PaymentMethods.CustomerMethods | backend/api/views/PaymentMethod.py:12-24 | As intended, with the serializer's type field on `payment_type`: without `customer_id` the answer is 400, and text `int()` rejects is a 500. Otherwise the methods returned are exactly the active ones of the customer `int()` reads. |
| PaymentMethods.CustomerMethodsAsWritten | backend/api/views/PaymentMethod.py:12-24 | As written: the serializer's unknown `type` field makes every non-empty listing a 500. Only a customer without active methods is answered, as `[]`, and errors are the intended ones. |
| PaymentMethods.MethodListingFailsOnAnyRow | backend/api/serializers/PaymentMethod.py:12 | As written, a customer with any active method gets a 500. The intended listing contains that method. |
| PaymentMethods.ClearDefaults | backend/api/views/PaymentMethod.py:32-35 | Exactly that customer's methods lose the default flag. Nothing else changes. |
| PaymentMethods.SetDefaultEffect | backend/api/views/PaymentMethod.py:26-42 | The chosen method is its customer's only default. Other customers' methods are untouched. No other field changes. At most one default per customer is preserved. |
| PaymentMethods.PaymentMethodTable.SetDefault | backend/api/views/PaymentMethod.py:26-42 | As intended: a missing method is a 404. Otherwise the table becomes `WithDefault` and the answer is the method, now the default. |
| PaymentMethods.PaymentMethodTable.SetDefaultAsWritten | backend/api/views/PaymentMethod.py:26-42 | As written: a missing method is a 404. Otherwise the defaults change and are saved as intended, and then the answer is a 500 from the serializer's unknown `type` field, so the new default stays. |
| UserSessions.DeviceDisplay | backend/api/serializers/UserSession.py:32-37 | A truthy device name is shown as is. Otherwise `<os>, <browser>` when both are truthy. Otherwise `Unknown Device`. |
| UserSessions.EmptyDeviceNameIsMissing | backend/api/serializers/UserSession.py:33 | An empty device name is treated like a missing one, and the label is never empty. |
| UserSessions.UserSessionsAction | backend/api/views/UserSession.py:12-24 | Without `user_id` the answer is 400, and text `int()` rejects is a 500. Otherwise the sessions returned are exactly the active ones of the user `int()` reads. |
| UserSessions.LogoutAllEffect | backend/api/views/UserSession.py:45 | Afterwards the user has no active session. Other users' sessions and active lists are unchanged, and no row is removed. |
| UserSessions.LogoutAll | backend/api/views/UserSession.py:45 | No row is added or removed and owners are kept. A session is active afterwards exactly when it was active and belongs to another user. |
| UserSessions.LogoutOneEffect | backend/api/views/UserSession.py:29-31 | Logging out one session removes exactly it from its owner's active list and changes no other row. |
| UserSessions.SessionTable.LogoutSession | backend/api/views/UserSession.py:26-33 | A missing session is a 404. Otherwise only that session becomes inactive. |
| UserSessions.SessionTable.LogoutAllSessions | backend/api/views/UserSession.py:35-47 | Without a truthy body `user_id` (a JSON `0` included) the answer is 400, and text `int()` rejects is a 500; neither changes anything. Otherwise the active sessions of that user are all logged out. |
| ChatViews.MessageListing | backend/chat/views/ChatMessage.py:19-34 | A conversation that `int()` rejects is a 500. Otherwise the messages listed are exactly those passing every filter given (the conversation `int()` reads, `unread_only=true`, type). |
| ChatViews.UnreadOnlyIsExact | backend/chat/views/ChatMessage.py:27-28 | `unread_only=True` filters nothing. Only the exact text `true` keeps just the unread messages. |
| ChatViews.UnreadCountAction | backend/chat/views/ChatMessage.py:56-69 | The count of unread messages not sent by the requester, within the conversation `int()` reads when one is given. A conversation that `int()` rejects is a 500. |
| ChatViews.PerformCreate | backend/chat/views/ChatMessage.py:36-41 | The saved message gets the next id and no other row changes. Then one `chat_message` publication goes to `chat_<conversation id>`, to the members joined at that moment. |
| ChatViews.UnreadCountScopes | backend/chat/views/ChatMessage.py:58-67 | A conversation's unread count never exceeds the overall one, and the requester's own messages are never counted. |
| ChatViews.MarkRead | backend/chat/views/ChatMessage.py:53 | Exactly the listed ids become read. No row is added or removed. |
| ChatViews.ReportedCountIsListLength | backend/chat/views/ChatMessage.py:53-54 | The reported number is the list length: `[k, k]` reports 2 but changes one row. |
| ChatViews.ConversationListing | backend/chat/views/Conversation.py:18-35 | `active` keeps active rows, `archived` keeps inactive rows, anything else keeps all rows. |
| ChatViews.StatusListingsPartition | backend/chat/views/Conversation.py:25-29 | The active and archived listings split the unfiltered listing. |
| ChatViews.StatisticsAddUp | backend/chat/views/Conversation.py:57-69 | The total is the active count plus the archived count. |
| ChatViews.ConversationReadEffect | backend/chat/views/Conversation.py:37-41 | Afterwards the conversation has no unread message. Messages of other conversations, and their unread state, are unchanged. |
| ChatViews.MarkMessageAsRead | backend/chat/views/ChatMessage.py:43-48 | A missing message is a 404. Otherwise only that message becomes read. |
| ChatViews.MarkMultipleAsRead | backend/chat/views/ChatMessage.py:50-54 | The messages become `MarkRead` of the listed ids, and the reported number is the list length. |
| ChatViews.DeleteAllMessages | backend/chat/views/ChatMessage.py:86-89 | The message table is empty afterwards. Every conversation's `last_message` becomes `NULL` (`on_delete=SET_NULL`, backend/chat/models/Conversation.py:12-18), so the store's foreign keys stay intact |
| ChatViews.LastMessagesCleared | backend/chat/models/Conversation.py:12-18 | The same conversations, each with `last_message` cleared and nothing else changed. |
| ChatViews.DeleteAllNeedsSetNull | backend/chat/models/Conversation.py:12-18 | Deleting every message while a conversation still names its last one breaks the foreign key. Clearing with `SET_NULL` restores it. |
| ChatViews.MarkConversationAsRead | backend/chat/views/Conversation.py:37-41 | A missing conversation is a 404. Otherwise its messages are all read. |
| ChatViews.SetArchiveFlag | backend/chat/views/Conversation.py:43-55 | A missing conversation is a 404. Otherwise only its `is_active` flag is set, to false for archive and true for unarchive. |
| ChatViews.ArchiveIsIdempotent | backend/chat/views/Conversation.py:43-55 | Archiving or unarchiving twice is the same as once. |
| BlacklistViews.ChoiceListsAreComplete | backend/api/models/Blacklist.py:10-24 | Every severity and reason is in its choice list, and the stored codes in each list are distinct. |
| BlacklistViews.ReplyFor | backend/api/views/Blacklist.py:44-50 | A found entry is reported as blacklisted, with `amount_owed` as a decimal string that reads back exactly. |
| BlacklistViews.CheckBlacklist | backend/api/views/Blacklist.py:25-54 | Without `sa_id_number` the answer is 400. Otherwise the reply says blacklisted exactly when an active entry with that SA ID exists. |
| BlacklistViews.RemovalClearsCheck | backend/api/views/Blacklist.py:64-73 | Removal keeps the row but deactivates it. The check then says not blacklisted for that SA ID, and other SA IDs are unaffected. |
| BlacklistViews.SeverityCountsAddUp | backend/api/views/Blacklist.py:85-94 | The four severity counts add up to the number of active entries. |
| BlacklistViews.ReasonCountsAddUp | backend/api/views/Blacklist.py:90-94 | The six reason counts add up to the number of active entries. |
| BlacklistViews.BlacklistTable.RemoveFromBlacklist | backend/api/views/Blacklist.py:56-78 | A missing entry is a 404. Otherwise the entry becomes `Removed`. The linked customer's flag is cleared only when a customer is linked. |
| BlacklistViews.BlacklistTable.Statistics | backend/api/views/Blacklist.py:80-100 | The total is the number of active entries. There are exactly the 4 severity keys and 6 reason keys, each counting active entries only. |
| BlacklistViews.BlacklistTable.SeverityCounts | backend/api/views/Blacklist.py:85-89 | One key per severity code, counting the active entries of that severity. |
| BlacklistViews.BlacklistTable.ReasonCounts | backend/api/views/Blacklist.py:90-94 | One key per reason code, counting the active entries with that reason. |
| BlacklistViews.StoredCustomer | backend/api/views/Blacklist.py:119-131 | An absent or empty `customer_id` is stored as no customer. Text `int()` rejects, or an id naming no customer, is a 500. Otherwise the stored customer is the id `int()` reads. |
| BlacklistViews.CreditCheckTable.PerformCheck | backend/api/views/Blacklist.py:113-144 | Without `sa_id_number` the answer is 400. A customer id `StoredCustomer` rejects is a 500. Neither records anything. Otherwise one check is recorded for that customer: TransUnion, `STANDARD`, `SUCCESS`, `GOOD`, score 650. |
| BlacklistViews.Reviewed | backend/api/views/Blacklist.py:164-185 | A review sets the status, the reviewer, the time and the notes, and keeps the document's identity. |
| BlacklistViews.DocumentTable.VerifyDocument | backend/api/views/Blacklist.py:157-173 | A missing document is a 404. Otherwise it is `VERIFIED`, with notes defaulting to empty. |
| BlacklistViews.DocumentTable.RejectDocument | backend/api/views/Blacklist.py:175-191 | A missing document is a 404. Otherwise it is `REJECTED`, with notes defaulting to `Document rejected`. |
| BlacklistViews.LastReviewWins | backend/api/views/Blacklist.py:164-185 | Neither review checks the current status: the later review decides. |
| BlacklistViews.Candidate | backend/api/views/Blacklist.py:256-260 | The record looked up is an active one of that customer and type, if any exists. |
| BlacklistViews.BiometricTable.VerifyBiometric | backend/api/views/Blacklist.py:242-279 | Unless customer, type and hash are all truthy the answer is 400. Text `0` is truthy and the number 0 is not. A customer text `int()` rejects is a 500. Without an active record of the customer `int()` reads, it is 404. Otherwise verified exactly when the hashes match, with `last_used` updated only then. |
| EwalletViews.TransactionRef | backend/api/views/EwalletPayment.py:61 | The reference starts with `EW-<payment id>-` and ends with the timestamp text. |
| EwalletViews.RefPrefixNamesOnePayment | backend/api/views/EwalletPayment.py:61 | The id after `EW-` reads back: one reference cannot name two payments. |
| EwalletViews.TransactionRefsAreDistinct | backend/api/views/EwalletPayment.py:61 | Different payments get different references, whatever the timestamps. |
| EwalletViews.InitiateAsWritten | backend/api/views/EwalletPayment.py:47-56 | As written: the created row's `transaction_id` is empty, and the create fails with a 500 exactly when a row with an empty `transaction_id` already exists. |
| EwalletViews.SecondInitiationFails | backend/api/views/EwalletPayment.py:47-56 | As written, once one payment is initiated, every later initiation fails and stores nothing. |
| EwalletViews.NoTransitionGuard | backend/api/views/EwalletPayment.py:76-102 | Complete and fail check no prior status: a failed payment can be completed and vice versa. The later action sets the status, and the earlier time stays. |
| EwalletViews.EwalletLedger.InitiatePayment | backend/api/views/EwalletPayment.py:22-67 | Without a truthy loan id (a JSON `0` is not), provider and phone the answer is 400. A loan id that `int()` rejects is a 500, and one naming no loan (a negative one included) is a 404. Neither creates anything. Otherwise one `PROCESSING` payment of the loan's amount is stored, with its reference. The recipient defaults to the customer's full name. The new transaction id clashes with no stored one. |
| EwalletViews.EwalletLedger.CompletePayment | backend/api/views/EwalletPayment.py:69-89 | A missing payment is a 404. Otherwise it is `COMPLETED` with `completed_at`, whatever its prior status, and its loan becomes `DISBURSED` with the disbursement date. The two clock readings are two time parameters. |
| EwalletViews.EwalletLedger.MarkFailed | backend/api/views/EwalletPayment.py:91-107 | A missing payment is a 404. Otherwise it is `FAILED` with `failed_at`, whatever its prior status. The reason defaults to `Payment failed`, and the loan is untouched. |

## Findings

| source | as written | input that shows it | evidently intended | confidence | as-written member | corrected member |
|---|---|---|---|---|---|---|
| backend/api/views/Repayment.py:77-89 | A client-supplied `payment_date` is request text. Comparing it with the `due_date` date raises `TypeError`, so the answer is a 500 and nothing is saved. Only the default `date.today()` works. | POST `mark_paid` with `{"payment_date": "2024-01-01"}` | Parse the date, then `ON_TIME` exactly when it is on or before the due date, else `LATE` | not executed | RepaymentViews.MarkPaidAsWritten | RepaymentViews.RepaymentTable.MarkPaid |
| backend/api/views/Repayment.py:78-91 | `amount_paid` is assigned as it arrives. Text or a fractional JSON number is saved, then the response serializer computes `amount_due - amount_paid` (backend/api/serializers/Repayment.py:37) on a `str` or `float`, which raises `TypeError`. The client gets a 500 for a repayment that is now recorded as paid. | POST `mark_paid` with `{"amount_paid": "150.00"}` | Read the amount as a decimal, save it, and answer with the updated row | not executed | RepaymentViews.TextAmountFailsAfterSave | RepaymentViews.RepaymentTable.MarkPaid |
| backend/api/utils/websocket_utils.py:214-221 | The create passes `related_loan_id`, but the notification model's loan field is `loan` (backend/api/models/Notification.py:23). `create` raises `TypeError` on every call, and the handler at line 227 swallows it. No status notification is ever stored and no unread count is pushed. | Any call of `trigger_loan_status_change` | Pass the loan as `loan_id`, so the row is stored and the addressee's new unread count is pushed | not executed | WebsocketUtils.TriggerLoanStatusChangeAsWritten | WebsocketUtils.TriggerLoanStatusChange |
| backend/api/views/Notification.py:26-28 | The type filter is `filter(type=...)`, but the model's field is `notification_type` (backend/api/models/Notification.py:17). Building the filter raises `FieldError`, so any request with a type is a 500. | GET `user_notifications?user_id=1&type=MESSAGE` | Filter on `notification_type` | not executed | NotificationViews.TypeFilterAlwaysFails | NotificationViews.UserNotifications |
| backend/api/views/EwalletPayment.py:47-56 | The create passes no `transaction_id`, a `unique=True` field (backend/api/models/EwalletPayment.py:36). Every row gets the empty default, so the unique index rejects every initiation after the first (an uncaught `IntegrityError`, a 500). | Two successive POSTs to `initiate_payment` with valid loan, provider and phone | Each payment gets its own transaction id, e.g. the `EW-<id>-<timestamp>` reference the view computes | not executed | EwalletViews.InitiateAsWritten | EwalletViews.EwalletLedger.InitiatePayment |
| backend/api/serializers/Notification.py:13 | The field list names `type`, but the model's field is `notification_type` (backend/api/models/Notification.py:17). `ModelSerializer` raises `ImproperlyConfigured` when it builds the fields of the first row, so `user_notifications` is a 500 for any non-empty selection. | GET `user_notifications?user_id=1` for a user with one notification | Render the type from `notification_type` | not executed | NotificationViews.ListingFailsOnAnyRow | NotificationViews.UserNotifications |
| backend/api/serializers/Notification.py:13 | The same unknown `type` field makes `mark_read` fail after its save (backend/api/views/Notification.py:44-47). The row is stored as read, and the answer is a 500. | POST `mark_read` on an existing notification | Render the type from `notification_type` and answer with the read row | not executed | NotificationViews.MarkReadAsWritten | NotificationViews.MarkReadAction |
| backend/api/serializers/Payment.py:25 | The field list names `reference_number`, but the model's field is `transaction_reference` (backend/api/models/Payment.py:28). Rendering a payment raises `ImproperlyConfigured`, so `loan_payments` is a 500 for any loan with a payment. | GET `loan_payments?loan_id=1` for a loan with one payment | Render `transaction_reference` as the reference | not executed | PaymentViews.PaymentListingFailsOnAnyRow | PaymentViews.LoanPayments |
| backend/api/serializers/Payment.py:25 | In `process_payment` the same error is raised after the payment and the loan are saved (backend/api/views/Payment.py:42-57). The generic handler at lines 65-69 answers it with a 400, so every payment that goes through is reported as failed while it stays recorded. | POST `process_payment` with an existing loan and `"amount": "100.00"` | Answer 201 with the completed payment | not executed | PaymentViews.PaymentLedger.ProcessPaymentAsWritten | PaymentViews.PaymentLedger.ProcessPayment |
| backend/api/serializers/PaymentMethod.py:12 | The field list names `type`, but the model's field is `payment_type` (backend/api/models/PaymentMethod.py:11). `customer_methods` is a 500 for any customer with an active method. `set_default` changes the defaults and then fails with a 500. | GET `customer_methods?customer_id=1` for a customer with one active method | Render and branch on `payment_type` | not executed | PaymentMethods.MethodListingFailsOnAnyRow | PaymentMethods.CustomerMethods |
| backend/api/serializers/PaymentMethod.py:12 | In `set_default` the unknown `type` field raises after the defaults are saved (backend/api/views/PaymentMethod.py:32-42). The new default stays, and the answer is a 500. | POST `set_default` on an existing method | Answer with the method, now the default | not executed | PaymentMethods.PaymentMethodTable.SetDefaultAsWritten | PaymentMethods.PaymentMethodTable.SetDefault |

## Left out

- Transport: the Channels transport, `accept`/`close`/`send`, and async execution. The channel layer is sequential: each `group_send` delivers to the members at the time of the call, with no concurrency and no socket failure.
- Persistence: the ORM is in-memory maps. `get_object` answers 404 for a missing key.
- JSON: encoding and decoding of frames are left out. Inbound frames arrive already decoded, with absent keys as `None`.
  - Message and notification ids in consumer frames are a JSON number or text (`IdValue`). An id given as a JSON float, boolean, list or object is not modelled.
  - An explicit JSON `null` is modelled as an absent key. For the consumer ids both are falsy, so they agree.
  - Elsewhere they differ. `{"type": null}` makes the chat `receive` ignore the frame, where the model reads the default `message`. A `null` text or flag is passed on as `None` where the model uses the default. In `mark_paid`, `{"payment_date": null}` compares `None` with the due date and is a 500, where the model uses today's date. In `mark_failed`, `{"failure_reason": null}` stores `None` in the NOT NULL `failure_reason` column and is a 500, where the model stores the default reason.
- Time: `timezone.now()`, `date.today()`, `isoformat` and `strftime` are integer or text parameters.
- Ordering: `order_by`, pagination, and the DRF filter backends are left out. Listings are sets of ids.
- Numbers: floating-point and sub-cent amounts are left out. Decimals are exact cents. `Decimal` quotients with 28-digit precision are exact at these magnitudes, so the progress truncation is modelled as exact.
- PaymentViews.PaymentLedger.ProcessPayment: the amount arrives already decoded (`None` when missing or not a decimal). The `payment_method_id` is stored without checking that it exists.
- Abstract loan fields: `Loan.customer`, `remaining_balance`, `total_amount`, `status`, `repayment_progress` and `disbursement_date` are used by the views but not declared by the loan model. They are abstract record fields.
- Other abstract fields: `Conversation.is_active`, `ChatMessage.is_read` and `ChatMessage.message_type`. The payment method's type is the model's `payment_type` (as `kind`); the serializer's `type` is a Finding.
- Chat models: the chat app's own `ChatMessage` model is not part of this model. Its views work on the chat records of `backend/api/models/ChatMessage.py`.
- Not modelled: `search_messages`, the conversation `delete_all`, `pending_review` and `user_activity` are outside the modelled actions.
- RepaymentViews.StatsOf: the sums are exact. How the database renders a non-zero aggregate is taken to be `str(Decimal)`. A null `amount_paid` is not modelled.
- BlacklistViews.BiometricTable.VerifyBiometric: `.first()` picks any matching active record. Which one the database returns is left open.
- EwalletViews.EwalletLedger.InitiatePayment: `provider_response` is opaque text, with `{}` standing for the empty dictionary. The timestamp text is a parameter.
- Live pushes: of the REST views, only the chat message create (`ChatViews.PerformCreate`) calls the dispatch utility. The other views' updates are not connected to live pushes.
- ChatViews.PerformCreate: the chat app's `ChatMessageSerializer` is not part of this model. Its validation, and the data it renders, are parameters.
- Text.RequiredId: `int()` also accepts non-ASCII digits and Unicode whitespace, which are not modelled. Query parameters are always text. Body ids tested for truthiness (`mark_all_read`, `logout_all_sessions`, `initiate_payment`) are JSON values read by `Text.RequiredIdValue`, where a JSON `0` is missing. The body `loan_id` of `process_payment` has no truthiness test, and a JSON number there is treated as its decimal text, which the lookup reads the same way.
- RepaymentViews.MarkPaidAsWritten: an error no longer implies an unchanged table, because a fractional or text amount is saved before the serializer fails. The float rounding of the decimal column, and the column's reading of decimal text, are parameters (`AmountFloat`, `AmountText`).
- BlacklistViews.CreditCheckTable.PerformCheck: the 13-character limit of `sa_id_number` is not enforced. Whether a longer value is rejected or stored depends on the database, which the source does not fix. Whether a missing customer is an `IntegrityError` immediately or at commit also depends on the database; either way the request is a 500 and nothing is kept.
- BlacklistViews.StoredCustomer: a `customer_id` given as a JSON float, boolean, list or object is not modelled.
- ChatViews.MarkMultipleAsRead: `message_ids` is modelled as a list of non-negative ids. In the source, a JSON number, `null` or a list element the lookup cannot read raises (a 500), text is iterated character by character, and a negative id matches nothing but is still counted. None of these is modelled.
