/** The channel layer the three consumers and the dispatch utility share:
    named groups of connections, and `group_send`, which hands one event to
    every connection that is a member of the group at the time of the call.
    Delivery is sequential; each recipient's consumer turns the event into an
    outbound frame (or drops it) with its own handler. */
module Channels {
  import opened Common
  import opened Text

  /** A connection's `channel_name`. */
  type ConnId = nat

  /** The `message` dictionary of a `chat_message` event. */
  datatype MessagePayload = MessagePayload(
    id: nat,
    text: string,
    senderId: UserId,
    senderName: string,
    messageType: string,
    attachments: seq<string>,
    replyTo: Option<nat>,
    createdAt: Timestamp,
    deliveryStatus: string)

  /** The events `group_send` carries, one constructor per `type` key. A field
      of type `Option` is one that a sender may leave out of the dictionary; a
      message id of type `IdValue` is the client's value, passed on as sent. */
  datatype Event =
    | ChatMessageEvent(message: MessagePayload)
    | TypingIndicatorEvent(userId: UserId, username: string, isTyping: bool)
    | ReadReceiptEvent(messageId: IdValue, readerId: UserId, readAt: Timestamp)
    | MessageEditedEvent(editedId: IdValue, text: string, editedAt: Timestamp)
    | MessageDeletedEvent(deletedId: IdValue)
    | UserJoinedEvent(joinedId: UserId, joinedName: string)
    | UserLeftEvent(leftId: UserId, leftName: string)
    | NotificationEvent(notification: string)
    | UnreadCountEvent(count: nat)
    | LoanStatusChangedEvent(loanId: nat, status: string, statusMessage: Option<string>, updatedAt: Timestamp)
    | LoanApprovedEvent(approvedLoanId: nat, amount: string, approvalMessage: Option<string>)
    | LoanDisbursedEvent(disbursedLoanId: nat, disbursedAmount: string, accountNumber: Option<string>)
    | PaymentReceivedEvent(paidLoanId: nat, paymentId: nat, paidAmount: string, remainingBalance: string)
    | PaymentDueReminderEvent(dueLoanId: nat, dueDate: string, dueAmount: string)

  /** The `type` key, which names the handler method the recipient runs. */
  function EventType(e: Event): string {
    match e
    case ChatMessageEvent(_) => "chat_message"
    case TypingIndicatorEvent(_, _, _) => "typing_indicator"
    case ReadReceiptEvent(_, _, _) => "read_receipt"
    case MessageEditedEvent(_, _, _) => "message_edited"
    case MessageDeletedEvent(_) => "message_deleted"
    case UserJoinedEvent(_, _) => "user_joined"
    case UserLeftEvent(_, _) => "user_left"
    case NotificationEvent(_) => "notification"
    case UnreadCountEvent(_) => "unread_count"
    case LoanStatusChangedEvent(_, _, _, _) => "loan_status_changed"
    case LoanApprovedEvent(_, _, _) => "loan_approved"
    case LoanDisbursedEvent(_, _, _) => "loan_disbursed"
    case PaymentReceivedEvent(_, _, _, _) => "payment_received"
    case PaymentDueReminderEvent(_, _, _) => "payment_due_reminder"
  }

  /** What a recipient's handler does with an event: write a frame to its
      socket, deliberately skip it, or find no handler for its type. */
  datatype Delivery<F> = Send(frame: F) | Skip | NoHandler

  /** One `group_send`: the group, the event, and the members at call time. */
  datatype Publication = Publication(group: string, event: Event, recipients: set<ConnId>)

  // ----- group names -----

  /** `f'chat_{conversation_id}'`; the chat route captures the id as text. */
  function ChatGroup(conversationId: string): string {
    "chat_" + conversationId
  }

  /** `f'notifications_{user.id}'` */
  function NotificationsGroup(userId: UserId): string {
    "notifications_" + NatToString(userId)
  }

  /** `f'loan_updates_{user.id}'` */
  function LoanUpdatesGroup(userId: UserId): string {
    "loan_updates_" + NatToString(userId)
  }

  /** Two users never share a personal group, so a push reaches only its addressee. */
  lemma PersonalGroupsAreDistinct(a: UserId, b: UserId)
    ensures NotificationsGroup(a) == NotificationsGroup(b) ==> a == b
    ensures LoanUpdatesGroup(a) == LoanUpdatesGroup(b) ==> a == b
  {
    var n, l := "notifications_", "loan_updates_";
    if NotificationsGroup(a) == NotificationsGroup(b) {
      assert NotificationsGroup(a)[|n|..] == NatToString(a);
      assert NotificationsGroup(b)[|n|..] == NatToString(b);
      NatToStringInjective(a, b);
    }
    if LoanUpdatesGroup(a) == LoanUpdatesGroup(b) {
      assert LoanUpdatesGroup(a)[|l|..] == NatToString(a);
      assert LoanUpdatesGroup(b)[|l|..] == NatToString(b);
      NatToStringInjective(a, b);
    }
  }

  /** The three kinds of group never collide, whatever the ids. */
  lemma GroupKindsAreDisjoint(conversationId: string, a: UserId, b: UserId)
    ensures ChatGroup(conversationId) != NotificationsGroup(a)
    ensures ChatGroup(conversationId) != LoanUpdatesGroup(b)
    ensures NotificationsGroup(a) != LoanUpdatesGroup(b)
  {
    assert ChatGroup(conversationId)[0] == 'c';
    assert NotificationsGroup(a)[0] == 'n';
    assert LoanUpdatesGroup(b)[0] == 'l';
  }

  // ----- membership -----

  function MembersOf(groups: map<string, set<ConnId>>, group: string): set<ConnId> {
    if group in groups then groups[group] else {}
  }

  /** `group_add` */
  function Join(groups: map<string, set<ConnId>>, group: string, conn: ConnId): (r: map<string, set<ConnId>>)
    ensures MembersOf(r, group) == MembersOf(groups, group) + {conn}
    ensures forall g :: g != group ==> MembersOf(r, g) == MembersOf(groups, g)
  {
    groups[group := MembersOf(groups, group) + {conn}]
  }

  /** `group_discard` */
  function Leave(groups: map<string, set<ConnId>>, group: string, conn: ConnId): (r: map<string, set<ConnId>>)
    ensures MembersOf(r, group) == MembersOf(groups, group) - {conn}
    ensures forall g :: g != group ==> MembersOf(r, g) == MembersOf(groups, g)
  {
    if group in groups then groups[group := groups[group] - {conn}] else groups
  }

  datatype MembershipOp = Add(group: string, conn: ConnId) | Discard(group: string, conn: ConnId)

  function Step(groups: map<string, set<ConnId>>, op: MembershipOp): map<string, set<ConnId>> {
    match op
    case Add(g, c) => Join(groups, g, c)
    case Discard(g, c) => Leave(groups, g, c)
  }

  /** The membership after a sequence of joins and leaves, applied in order. */
  function Replay(groups: map<string, set<ConnId>>, ops: seq<MembershipOp>): map<string, set<ConnId>>
    decreases |ops|
  {
    if ops == [] then groups else Step(Replay(groups, ops[..|ops| - 1]), ops[|ops| - 1])
  }

  /** Whether the last operation in `ops` about this (group, connection) pair,
      if there is one, was a join. */
  function LastSays(ops: seq<MembershipOp>, group: string, conn: ConnId): Option<bool>
    decreases |ops|
  {
    if ops == [] then None
    else
      var op := ops[|ops| - 1];
      if op.group == group && op.conn == conn then Some(op.Add?)
      else LastSays(ops[..|ops| - 1], group, conn)
  }

  /** After any sequence of joins and leaves, a connection is a member of a
      group exactly when its last operation on that group was a join, or when
      it had no operation there and was a member before: membership is a set,
      so repeated joins and leaves are idempotent. */
  lemma {:induction false} ReplayMembership(groups: map<string, set<ConnId>>, ops: seq<MembershipOp>, group: string, conn: ConnId)
    ensures conn in MembersOf(Replay(groups, ops), group) <==>
            (match LastSays(ops, group, conn)
             case Some(joined) => joined
             case None => conn in MembersOf(groups, group))
    decreases |ops|
  {
    if ops != [] {
      ReplayMembership(groups, ops[..|ops| - 1], group, conn);
    }
  }

  /** The in-process channel layer: the group map and the log of every
      `group_send`, in call order. */
  class ChannelLayer {
    var groups: map<string, set<ConnId>>
    var published: seq<Publication>

    function Members(group: string): set<ConnId>
      reads this
    {
      MembersOf(groups, group)
    }

    constructor ()
      ensures groups == map[] && published == []
    {
      groups := map[];
      published := [];
    }

    /** `group_add`: the connection joins the group; no other group changes. */
    method GroupAdd(group: string, conn: ConnId)
      modifies this
      ensures groups == Join(old(groups), group, conn)
      ensures Members(group) == old(Members(group)) + {conn}
      ensures published == old(published)
    {
      groups := Join(groups, group, conn);
    }

    /** `group_discard`: the connection leaves the group, if it was in it; no
        other group changes. */
    method GroupDiscard(group: string, conn: ConnId)
      modifies this
      ensures groups == Leave(old(groups), group, conn)
      ensures Members(group) == old(Members(group)) - {conn}
      ensures published == old(published)
    {
      groups := Leave(groups, group, conn);
    }

    /** Delivers to the members at call time (snapshot semantics); a group
        with no members gets a publication with no recipients, not an error. */
    method GroupSend(group: string, event: Event)
      modifies this
      ensures published == old(published) + [Publication(group, event, old(Members(group)))]
      ensures groups == old(groups)
    {
      published := published + [Publication(group, event, Members(group))];
    }
  }
}
