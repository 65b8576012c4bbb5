/** The chat records the chat consumer and the chat REST views work on: the
    message and conversation rows, the in-memory store that holds them, and the
    field updates the consumer applies to one message (read receipt, edit,
    soft delete), each as a function on the record. */
module ChatData {
  import opened Common

  datatype DeliveryStatus = Sent | Delivered | Read

  /** The stored value of a delivery status (`'SENT'`, `'DELIVERED'`, `'READ'`). */
  function StatusName(s: DeliveryStatus): string {
    match s
    case Sent => "SENT"
    case Delivered => "DELIVERED"
    case Read => "READ"
  }

  /** One entry of `read_receipts`: `{'user_id': ..., 'read_at': ...}`. */
  datatype Receipt = Receipt(userId: UserId, readAt: Timestamp)

  /** A chat message row. `isRead` is the flag the chat REST views filter and
      set; the other fields are the ones the consumer reads and writes. */
  datatype ChatMessage = ChatMessage(
    id: nat,
    conversation: nat,
    sender: UserId,
    kind: string,
    text: string,
    attachments: seq<string>,
    replyTo: Option<nat>,
    readReceipts: seq<Receipt>,
    edited: bool,
    editedAt: Option<Timestamp>,
    deleted: bool,
    deliveryStatus: DeliveryStatus,
    createdAt: Timestamp,
    isRead: bool)

  /** A conversation row: `last_message` points at the newest message;
      `isActive` is the archive flag of the conversation REST views. */
  datatype Conversation = Conversation(id: nat, title: string, lastMessage: Option<nat>, isActive: bool)

  /** `ChatMessage.objects.create(...)`: every field not passed takes its
      default (not edited, not deleted, no receipts, `SENT`). */
  function NewMessage(id: nat, conversation: nat, sender: UserId, text: string, kind: string,
                      attachments: seq<string>, replyTo: Option<nat>, now: Timestamp): ChatMessage
  {
    ChatMessage(id, conversation, sender, kind, text, attachments, replyTo, [], false, None, false, Sent, now, false)
  }

  predicate HasReceiptFrom(receipts: seq<Receipt>, user: UserId) {
    exists i :: 0 <= i < |receipts| && receipts[i].userId == user
  }

  /** How many receipts in the list belong to `user`. */
  function ReceiptCount(receipts: seq<Receipt>, user: UserId): (n: nat)
    ensures n == 0 <==> !HasReceiptFrom(receipts, user)
    decreases |receipts|
  {
    if receipts == [] then 0
    else
      var last := receipts[|receipts| - 1];
      var before := receipts[..|receipts| - 1];
      assert forall i :: 0 <= i < |before| ==> before[i] == receipts[i];
      ReceiptCount(before, user) + (if last.userId == user then 1 else 0)
  }

  lemma ReceiptCountAppend(receipts: seq<Receipt>, r: Receipt, user: UserId)
    ensures ReceiptCount(receipts + [r], user) == ReceiptCount(receipts, user) + (if r.userId == user then 1 else 0)
  {
    assert (receipts + [r])[..|receipts|] == receipts;
  }

  /** `mark_message_read` on a found message: append a receipt and set the
      status to `READ` only if this user has no receipt yet. */
  function WithReadReceipt(m: ChatMessage, user: UserId, now: Timestamp): (r: ChatMessage)
    ensures HasReceiptFrom(r.readReceipts, user)
    ensures HasReceiptFrom(m.readReceipts, user) ==> r == m
    ensures !HasReceiptFrom(m.readReceipts, user) ==>
              r == m.(readReceipts := m.readReceipts + [Receipt(user, now)], deliveryStatus := Read)
  {
    if HasReceiptFrom(m.readReceipts, user) then m
    else
      var rs := m.readReceipts + [Receipt(user, now)];
      assert rs[|rs| - 1].userId == user;
      m.(readReceipts := rs, deliveryStatus := Read)
  }

  /** `edit_message` on the row `get(id=..., sender=self.user)` finds: only
      the sender's request changes anything; a deleted message is still edited. */
  function EditedBy(m: ChatMessage, requester: UserId, text: string, now: Timestamp): ChatMessage {
    if m.sender == requester then m.(text := text, edited := true, editedAt := Some(now)) else m
  }

  /** `delete_message`: a soft delete by the sender that keeps the text. */
  function DeletedBy(m: ChatMessage, requester: UserId): ChatMessage {
    if m.sender == requester then m.(deleted := true) else m
  }

  /** `mark_message_read` on the table: a missing id changes nothing. */
  function MarkReadIn(messages: map<nat, ChatMessage>, id: nat, user: UserId, now: Timestamp): (r: map<nat, ChatMessage>)
    ensures r.Keys == messages.Keys
    ensures forall k :: k in messages && k != id ==> r[k] == messages[k]
    ensures id in messages ==> HasReceiptFrom(r[id].readReceipts, user) && r[id].text == messages[id].text
  {
    if id in messages then messages[id := WithReadReceipt(messages[id], user, now)] else messages
  }

  /** `edit_message` on the table: a missing id changes nothing. */
  function EditIn(messages: map<nat, ChatMessage>, id: nat, requester: UserId, text: string, now: Timestamp)
    : (r: map<nat, ChatMessage>)
    ensures r.Keys == messages.Keys
    ensures forall k :: k in messages && k != id ==> r[k] == messages[k]
    ensures id in messages && messages[id].sender != requester ==> r == messages
    ensures id in messages && messages[id].sender == requester ==>
              r[id].text == text && r[id].edited && r[id].editedAt == Some(now) && r[id].deleted == messages[id].deleted
  {
    if id in messages then messages[id := EditedBy(messages[id], requester, text, now)] else messages
  }

  /** `delete_message` on the table: a missing id changes nothing. */
  function DeleteIn(messages: map<nat, ChatMessage>, id: nat, requester: UserId): (r: map<nat, ChatMessage>)
    ensures r.Keys == messages.Keys
    ensures forall k :: k in messages && k != id ==> r[k] == messages[k]
    ensures id in messages && messages[id].sender != requester ==> r == messages
    ensures id in messages && messages[id].sender == requester ==> r[id].deleted && r[id].text == messages[id].text
  {
    if id in messages then messages[id := DeletedBy(messages[id], requester)] else messages
  }

  /** The receipt list after the same user reads the message at each of `times`. */
  function ReadRepeatedly(m: ChatMessage, user: UserId, times: seq<Timestamp>): ChatMessage
    decreases |times|
  {
    if times == [] then m else WithReadReceipt(ReadRepeatedly(m, user, times[..|times| - 1]), user, times[|times| - 1])
  }

  /** Read receipts are idempotent per user: however many times a user who had
      at most one receipt reads a message (at least once), exactly one receipt
      of theirs is in the list, and the first read's time is the one kept. */
  lemma {:induction false} ExactlyOneReceiptPerReader(m: ChatMessage, user: UserId, times: seq<Timestamp>)
    requires |times| >= 1 && ReceiptCount(m.readReceipts, user) <= 1
    ensures ReceiptCount(ReadRepeatedly(m, user, times).readReceipts, user) == 1
    ensures !HasReceiptFrom(m.readReceipts, user) ==>
              ReadRepeatedly(m, user, times).readReceipts == m.readReceipts + [Receipt(user, times[0])]
    decreases |times|
  {
    if |times| == 1 {
      assert times[..0] == [];
      if !HasReceiptFrom(m.readReceipts, user) {
        ReceiptCountAppend(m.readReceipts, Receipt(user, times[0]), user);
      }
    } else {
      var prefix := times[..|times| - 1];
      assert prefix[0] == times[0];
      ExactlyOneReceiptPerReader(m, user, prefix);
    }
  }

  /** A receipt never removes or reorders earlier receipts, and another
      user's receipt count is untouched. */
  lemma ReceiptKeepsOthers(m: ChatMessage, user: UserId, other: UserId, now: Timestamp)
    requires other != user
    ensures m.readReceipts <= WithReadReceipt(m, user, now).readReceipts
    ensures ReceiptCount(WithReadReceipt(m, user, now).readReceipts, other) == ReceiptCount(m.readReceipts, other)
  {
    if !HasReceiptFrom(m.readReceipts, user) {
      ReceiptCountAppend(m.readReceipts, Receipt(user, now), other);
    }
  }

  /** Edit and delete change a message only at the sender's request; then edit
      sets exactly text, `edited` and `edited_at`, and delete sets exactly
      `deleted` and keeps the text. */
  lemma OnlySenderChangesMessage(m: ChatMessage, requester: UserId, text: string, now: Timestamp)
    ensures requester != m.sender ==> EditedBy(m, requester, text, now) == m && DeletedBy(m, requester) == m
    ensures requester == m.sender ==>
              EditedBy(m, requester, text, now).text == text && EditedBy(m, requester, text, now).edited &&
              EditedBy(m, requester, text, now).editedAt == Some(now) &&
              EditedBy(m, requester, text, now).deleted == m.deleted &&
              EditedBy(m, requester, text, now).(text := m.text, edited := m.edited, editedAt := m.editedAt) == m
    ensures requester == m.sender ==>
              DeletedBy(m, requester).deleted && DeletedBy(m, requester).text == m.text &&
              DeletedBy(m, requester).(deleted := m.deleted) == m
  {
  }

  /** Delete then edit by the sender still rewrites the text: the edit path
      does not look at `deleted`, so a deleted message can be edited. */
  lemma EditAfterDeleteApplies(m: ChatMessage, text: string, now: Timestamp)
    ensures var d := DeletedBy(m, m.sender);
            var e := EditedBy(d, m.sender, text, now);
            e.deleted && e.text == text && e.edited
  {
  }

  /** The `last_message` foreign key: every conversation's last message is
      a stored row. */
  predicate LastMessagesStored(messages: map<nat, ChatMessage>, conversations: map<nat, Conversation>) {
    forall c :: c in conversations && conversations[c].lastMessage.Some? ==> conversations[c].lastMessage.value in messages
  }

  /** The message store: rows by id, conversations by id, and the next
      auto-increment id. */
  class ChatStore {
    var messages: map<nat, ChatMessage>
    var conversations: map<nat, Conversation>
    var nextId: nat

    ghost predicate Valid()
      reads this
    {
      (forall k :: k in messages ==> k < nextId && messages[k].id == k) &&
      LastMessagesStored(messages, conversations)
    }

    constructor (conversations: map<nat, Conversation>)
      requires forall c :: c in conversations ==> conversations[c].lastMessage.None?
      ensures Valid() && messages == map[] && this.conversations == conversations
    {
      messages := map[];
      this.conversations := conversations;
      nextId := 1;
    }
  }
}
