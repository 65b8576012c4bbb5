/** The chat WebSocket consumer: one object per connection to
    `ws/chat/<conversation_id>/`. It joins the group `chat_<conversation_id>`,
    turns inbound frames into store updates and group events, and turns the
    group's events into outbound frames, keeping a user's own typing, join and
    leave events from being echoed back to them. */
module ChatConsumers {
  import opened Common
  import opened Text
  import opened Channels
  import opened ChatData

  // ----- inbound frames -----

  /** A decoded inbound frame; each field is `None` when its key is absent.
      The two message ids are the JSON values as the client sent them. */
  datatype Inbound = Inbound(
    kind: Option<string>,
    text: Option<string>,
    attachments: Option<seq<string>>,
    replyToMessageId: Option<IdValue>,
    messageType: Option<string>,
    isTyping: Option<bool>,
    messageId: Option<IdValue>)

  /** `data.get('type', 'message')` */
  function InboundKind(data: Inbound): string {
    data.kind.GetOr("message")
  }

  /** The five inbound types `receive` dispatches on. */
  predicate Recognised(kind: string) {
    kind == "message" || kind == "typing" || kind == "read_receipt" || kind == "edit_message" || kind == "delete_message"
  }

  // ----- what one inbound frame does -----

  /** The effect of one inbound frame on the store and the group: the new
      tables, the event published to the room (if any), and whether an
      exception escaped `receive`. */
  datatype Outcome = Outcome(
    messages: map<nat, ChatMessage>,
    conversations: map<nat, Conversation>,
    nextId: nat,
    event: Option<Event>,
    raised: bool)

  /** `Conversation.objects.get(id=self.conversation_id)`: the route's id text
      must name an existing conversation, or `get` raises. */
  function FindConversation(conversations: map<nat, Conversation>, routeId: string): (c: Option<nat>)
    ensures c.Some? <==> ParseInt(routeId).Some? && ParseInt(routeId).value in conversations
    ensures c.Some? ==> ParseInt(routeId) == Some(c.value as int)
  {
    match ParseInt(routeId)
    case Some(id) => if id >= 0 && id in conversations then Some(id as nat) else None
    case None => None
  }

  /** What the reply lookup of `create_message` gives: the `ValueError` that
      `get` raises on text `int()` rejects, or the reply target to store. */
  datatype ReplyLookup = ReplyRaises | ReplyTo(target: Option<nat>)

  /** The reply target `create_message` stores: the message a truthy
      `reply_to_message_id` names, or nothing when that id is falsy or names no
      message (`DoesNotExist` is swallowed, a negative id included); text that
      `int()` rejects raises. */
  function ReplyTarget(messages: map<nat, ChatMessage>, replyToId: Option<IdValue>): (r: ReplyLookup)
    ensures r == ReplyRaises <==> GivenValue(replyToId) && IdOf(replyToId.value).None?
    ensures !GivenValue(replyToId) ==> r == ReplyTo(None)
    ensures r.ReplyTo? && r.target.Some? ==>
              GivenValue(replyToId) && r.target.value in messages && IdOf(replyToId.value) == Some(r.target.value as int)
    ensures GivenValue(replyToId) && IdOf(replyToId.value).Some? && IdOf(replyToId.value).value >= 0 &&
            IdOf(replyToId.value).value as nat in messages
            ==> r == ReplyTo(Some(IdOf(replyToId.value).value as nat))
  {
    if !GivenValue(replyToId) then ReplyTo(None)
    else match IdOf(replyToId.value)
      case None => ReplyRaises
      case Some(n) => if n >= 0 && n as nat in messages then ReplyTo(Some(n as nat)) else ReplyTo(None)
  }

  /** `mark_message_read(message_id)` on the table: `None` for the
      `ValueError` text `int()` rejects raises; an id naming no row, a
      negative one included, changes nothing. */
  function ReadById(messages: map<nat, ChatMessage>, v: IdValue, reader: UserId, now: Timestamp)
    : (r: Option<map<nat, ChatMessage>>)
    ensures r.None? <==> IdOf(v).None?
    ensures r.Some? && IdOf(v).value < 0 ==> r.value == messages
    ensures r.Some? && IdOf(v).value >= 0 ==> r.value == MarkReadIn(messages, IdOf(v).value as nat, reader, now)
  {
    match IdOf(v)
    case None => None
    case Some(n) => Some(if n >= 0 then MarkReadIn(messages, n as nat, reader, now) else messages)
  }

  /** `edit_message(message_id, new_text)` on the table, with the same
      reading of the id as `ReadById`. */
  function EditById(messages: map<nat, ChatMessage>, v: IdValue, sender: UserId, text: string, now: Timestamp)
    : (r: Option<map<nat, ChatMessage>>)
    ensures r.None? <==> IdOf(v).None?
    ensures r.Some? && IdOf(v).value < 0 ==> r.value == messages
    ensures r.Some? && IdOf(v).value >= 0 ==> r.value == EditIn(messages, IdOf(v).value as nat, sender, text, now)
  {
    match IdOf(v)
    case None => None
    case Some(n) => Some(if n >= 0 then EditIn(messages, n as nat, sender, text, now) else messages)
  }

  /** `delete_message(message_id)` on the table, with the same reading of the
      id as `ReadById`. */
  function DeleteById(messages: map<nat, ChatMessage>, v: IdValue, sender: UserId): (r: Option<map<nat, ChatMessage>>)
    ensures r.None? <==> IdOf(v).None?
    ensures r.Some? && IdOf(v).value < 0 ==> r.value == messages
    ensures r.Some? && IdOf(v).value >= 0 ==> r.value == DeleteIn(messages, IdOf(v).value as nat, sender)
  {
    match IdOf(v)
    case None => None
    case Some(n) => Some(if n >= 0 then DeleteIn(messages, n as nat, sender) else messages)
  }

  /** `f"{first_name} {last_name}"` */
  function SenderName(u: User): string {
    u.firstName + " " + u.lastName
  }

  /** The `message` dictionary of the `chat_message` event for a new row. */
  function Payload(m: ChatMessage, sender: User): MessagePayload {
    MessagePayload(m.id, m.text, sender.id, SenderName(sender), m.kind, m.attachments, m.replyTo,
                   m.createdAt, StatusName(m.deliveryStatus))
  }

  /** An exception escaped `receive`: nothing changes and nothing is published. */
  function Raises(messages: map<nat, ChatMessage>, conversations: map<nat, Conversation>, nextId: nat): Outcome {
    Outcome(messages, conversations, nextId, None, true)
  }

  /** Nothing changes and `event` is published. */
  function Publishes(messages: map<nat, ChatMessage>, conversations: map<nat, Conversation>, nextId: nat,
                     event: Option<Event>): Outcome
  {
    Outcome(messages, conversations, nextId, event, false)
  }

  /** `handle_chat_message`: store a new row and make it the conversation's
      last message, then publish it; an unknown conversation, or a reply id
      that `int()` rejects, raises before anything is stored or published. */
  function MessageOutcome(messages: map<nat, ChatMessage>, conversations: map<nat, Conversation>, nextId: nat,
                          routeId: string, me: User, data: Inbound, now: Timestamp): Outcome
  {
    match FindConversation(conversations, routeId)
    case None => Raises(messages, conversations, nextId)
    case Some(c) =>
      match ReplyTarget(messages, data.replyToMessageId)
      case ReplyRaises => Raises(messages, conversations, nextId)
      case ReplyTo(replyTo) =>
        var m := NewMessage(nextId, c, me.id, data.text.GetOr(""), data.messageType.GetOr("TEXT"),
                            data.attachments.GetOr([]), replyTo, now);
        Outcome(messages[nextId := m], conversations[c := conversations[c].(lastMessage := Some(nextId))], nextId + 1,
                Some(ChatMessageEvent(Payload(m, me))), false)
  }

  /** `handle_typing_indicator`: publish only; `is_typing` defaults to false. */
  function TypingOutcome(messages: map<nat, ChatMessage>, conversations: map<nat, Conversation>, nextId: nat,
                         me: User, data: Inbound): Outcome
  {
    Publishes(messages, conversations, nextId, Some(TypingIndicatorEvent(me.id, me.username, data.isTyping.GetOr(false))))
  }

  /** `handle_read_receipt`: with a truthy id, record the receipt and publish
      the id as sent; an id `int()` rejects raises before the publish. */
  function ReadReceiptOutcome(messages: map<nat, ChatMessage>, conversations: map<nat, Conversation>, nextId: nat,
                              me: User, data: Inbound, now: Timestamp): Outcome
  {
    if GivenValue(data.messageId) then
      var v := data.messageId.value;
      match ReadById(messages, v, me.id, now)
      case None => Raises(messages, conversations, nextId)
      case Some(ms) => Publishes(ms, conversations, nextId, Some(ReadReceiptEvent(v, me.id, now)))
    else Publishes(messages, conversations, nextId, None)
  }

  /** `handle_edit_message`: with a truthy id, edit (if the requester sent it)
      and publish the edit whether or not it applied. */
  function EditOutcome(messages: map<nat, ChatMessage>, conversations: map<nat, Conversation>, nextId: nat,
                       me: User, data: Inbound, now: Timestamp): Outcome
  {
    if GivenValue(data.messageId) then
      var v, text := data.messageId.value, data.text.GetOr("");
      match EditById(messages, v, me.id, text, now)
      case None => Raises(messages, conversations, nextId)
      case Some(ms) => Publishes(ms, conversations, nextId, Some(MessageEditedEvent(v, text, now)))
    else Publishes(messages, conversations, nextId, None)
  }

  /** `handle_delete_message`: with a truthy id, soft-delete (if the requester
      sent it) and publish the deletion whether or not it applied. */
  function DeleteOutcome(messages: map<nat, ChatMessage>, conversations: map<nat, Conversation>, nextId: nat,
                         me: User, data: Inbound): Outcome
  {
    if GivenValue(data.messageId) then
      var v := data.messageId.value;
      match DeleteById(messages, v, me.id)
      case None => Raises(messages, conversations, nextId)
      case Some(ms) => Publishes(ms, conversations, nextId, Some(MessageDeletedEvent(v)))
    else Publishes(messages, conversations, nextId, None)
  }

  /** `receive`: dispatch on the frame's type. */
  function ReceiveOutcome(messages: map<nat, ChatMessage>, conversations: map<nat, Conversation>, nextId: nat,
                          routeId: string, me: User, data: Inbound, now: Timestamp): (o: Outcome)
    ensures !Recognised(InboundKind(data)) ==> o == Publishes(messages, conversations, nextId, None)
    ensures o.raised ==> o == Raises(messages, conversations, nextId)
    ensures o.raised <==>
              (InboundKind(data) == "message" &&
               (FindConversation(conversations, routeId).None? ||
                (GivenValue(data.replyToMessageId) && IdOf(data.replyToMessageId.value).None?))) ||
              (InboundKind(data) in {"read_receipt", "edit_message", "delete_message"} &&
               GivenValue(data.messageId) && IdOf(data.messageId.value).None?)
    ensures o.conversations != conversations || o.nextId != nextId ==> InboundKind(data) == "message"
  {
    var kind := InboundKind(data);
    if kind == "message" then MessageOutcome(messages, conversations, nextId, routeId, me, data, now)
    else if kind == "typing" then TypingOutcome(messages, conversations, nextId, me, data)
    else if kind == "read_receipt" then ReadReceiptOutcome(messages, conversations, nextId, me, data, now)
    else if kind == "edit_message" then EditOutcome(messages, conversations, nextId, me, data, now)
    else if kind == "delete_message" then DeleteOutcome(messages, conversations, nextId, me, data)
    else Publishes(messages, conversations, nextId, None)
  }

  /** The store's id invariant: every row sits under its own id, below `nextId`. */
  predicate IdsBelow(messages: map<nat, ChatMessage>, nextId: nat) {
    forall k :: k in messages ==> k < nextId && messages[k].id == k
  }

  /** A frame without `type` is a chat message. */
  lemma MissingTypeIsMessage(messages: map<nat, ChatMessage>, conversations: map<nat, Conversation>, nextId: nat,
                             routeId: string, me: User, data: Inbound, now: Timestamp)
    requires data.kind.None?
    ensures ReceiveOutcome(messages, conversations, nextId, routeId, me, data, now)
         == ReceiveOutcome(messages, conversations, nextId, routeId, me, data.(kind := Some("message")), now)
  {
  }

  /** A stored message gets a fresh id, the connection's user as sender, and
      becomes its conversation's last message; nothing checks that the text or
      the attachments are non-empty, and every other row is kept. */
  lemma NewMessageBecomesLast(messages: map<nat, ChatMessage>, conversations: map<nat, Conversation>, nextId: nat,
                              routeId: string, me: User, data: Inbound, now: Timestamp)
    requires IdsBelow(messages, nextId)
    requires InboundKind(data) == "message"
    requires FindConversation(conversations, routeId).Some?
    requires ReplyTarget(messages, data.replyToMessageId).ReplyTo?
    ensures var o := ReceiveOutcome(messages, conversations, nextId, routeId, me, data, now);
            var c := FindConversation(conversations, routeId).value;
            nextId !in messages && !o.raised &&
            o.messages.Keys == messages.Keys + {nextId} &&
            (forall k :: k in messages ==> o.messages[k] == messages[k]) &&
            o.messages[nextId].sender == me.id && o.messages[nextId].conversation == c &&
            o.messages[nextId].text == data.text.GetOr("") &&
            o.messages[nextId].attachments == data.attachments.GetOr([]) &&
            o.conversations[c].lastMessage == Some(nextId) &&
            IdsBelow(o.messages, o.nextId) &&
            o.event == Some(ChatMessageEvent(Payload(o.messages[nextId], me)))
  {
    var o := ReceiveOutcome(messages, conversations, nextId, routeId, me, data, now);
    assert o == MessageOutcome(messages, conversations, nextId, routeId, me, data, now);
  }

  /** Edit and delete frames with a truthy id are published even when the
      requester did not send the message and the store is left as it was. */
  lemma IgnoredEditsAreStillPublished(messages: map<nat, ChatMessage>, conversations: map<nat, Conversation>, nextId: nat,
                                      routeId: string, me: User, data: Inbound, now: Timestamp, id: nat)
    requires GivenValue(data.messageId) && IdOf(data.messageId.value) == Some(id as int)
    requires id in messages && messages[id].sender != me.id
    ensures var o := ReceiveOutcome(messages, conversations, nextId, routeId, me, data.(kind := Some("edit_message")), now);
            !o.raised && o.messages == messages &&
            o.event == Some(MessageEditedEvent(data.messageId.value, data.text.GetOr(""), now))
    ensures var o := ReceiveOutcome(messages, conversations, nextId, routeId, me, data.(kind := Some("delete_message")), now);
            !o.raised && o.messages == messages && o.event == Some(MessageDeletedEvent(data.messageId.value))
  {
    assert messages[id := messages[id]] == messages;
  }

  /** A truthy id that names no row, a negative one included, changes nothing,
      yet the read receipt, edit or deletion is published with the id as sent. */
  lemma MissingIdIsStillPublished(messages: map<nat, ChatMessage>, conversations: map<nat, Conversation>, nextId: nat,
                                  routeId: string, me: User, data: Inbound, now: Timestamp)
    requires GivenValue(data.messageId) && IdOf(data.messageId.value).Some?
    requires var n := IdOf(data.messageId.value).value; n < 0 || n as nat !in messages
    requires InboundKind(data) in {"read_receipt", "edit_message", "delete_message"}
    ensures var o := ReceiveOutcome(messages, conversations, nextId, routeId, me, data, now);
            var v := data.messageId.value;
            !o.raised && o.messages == messages && o.conversations == conversations && o.nextId == nextId &&
            o.event == Some(if InboundKind(data) == "read_receipt" then ReadReceiptEvent(v, me.id, now)
                            else if InboundKind(data) == "edit_message" then MessageEditedEvent(v, data.text.GetOr(""), now)
                            else MessageDeletedEvent(v))
  {
  }

  /** Read receipts, edits and deletes with a falsy or absent id change
      nothing and publish nothing. */
  lemma FalsyIdDoesNothing(messages: map<nat, ChatMessage>, conversations: map<nat, Conversation>, nextId: nat,
                           routeId: string, me: User, data: Inbound, now: Timestamp)
    requires !GivenValue(data.messageId)
    requires InboundKind(data) in {"read_receipt", "edit_message", "delete_message"}
    ensures ReceiveOutcome(messages, conversations, nextId, routeId, me, data, now) == Publishes(messages, conversations, nextId, None)
  {
  }

  // ----- outbound frames -----

  /** The frames the consumer writes to its socket, one per outbound `type`. */
  datatype ChatFrame =
    | MessageFrame(message: MessagePayload)
    | TypingFrame(typistId: UserId, typistName: string, isTyping: bool)
    | ReadReceiptFrame(messageId: IdValue, readerId: UserId, readAt: Timestamp)
    | MessageEditedFrame(editedId: IdValue, text: string, editedAt: Timestamp)
    | MessageDeletedFrame(deletedId: IdValue)
    | UserJoinedFrame(joinedId: UserId, joinedName: string)
    | UserLeftFrame(leftId: UserId, leftName: string)

  /** The outbound `type` key. */
  function FrameType(f: ChatFrame): string {
    match f
    case MessageFrame(_) => "message"
    case TypingFrame(_, _, _) => "typing"
    case ReadReceiptFrame(_, _, _) => "read_receipt"
    case MessageEditedFrame(_, _, _) => "message_edited"
    case MessageDeletedFrame(_) => "message_deleted"
    case UserJoinedFrame(_, _) => "user_joined"
    case UserLeftFrame(_, _) => "user_left"
  }

  /** The events that are about one user's own presence or typing. */
  predicate IsPresenceEvent(e: Event) {
    e.TypingIndicatorEvent? || e.UserJoinedEvent? || e.UserLeftEvent?
  }

  /** The user a presence event is about. */
  function Originator(e: Event): UserId
    requires IsPresenceEvent(e)
  {
    match e
    case TypingIndicatorEvent(u, _, _) => u
    case UserJoinedEvent(u, _) => u
    case UserLeftEvent(u, _) => u
  }

  /** The events this consumer class has a handler for. */
  predicate IsChatEvent(e: Event) {
    e.ChatMessageEvent? || IsPresenceEvent(e) || e.ReadReceiptEvent? || e.MessageEditedEvent? || e.MessageDeletedEvent?
  }

  /** A frame that does not report `me`'s own typing, joining or leaving. */
  predicate EchoFree(f: ChatFrame, me: UserId) {
    match f
    case TypingFrame(u, _, _) => u != me
    case UserJoinedFrame(u, _) => u != me
    case UserLeftFrame(u, _) => u != me
    case _ => true
  }

  /** The outbound handlers, for a connection whose user is `me`. */
  function ChatDeliver(me: UserId, e: Event): (d: Delivery<ChatFrame>)
    ensures d.NoHandler? <==> !IsChatEvent(e)
    ensures d.Skip? <==> IsPresenceEvent(e) && Originator(e) == me
    ensures d.Send? ==> EchoFree(d.frame, me)
    ensures e.ChatMessageEvent? ==> d == Send(MessageFrame(e.message))
    ensures d.Send? ==> FrameType(d.frame) == (if e.ChatMessageEvent? then "message"
                                               else if e.TypingIndicatorEvent? then "typing"
                                               else EventType(e))
  {
    match e
    case ChatMessageEvent(m) => Send(MessageFrame(m))
    case TypingIndicatorEvent(u, n, t) => if u != me then Send(TypingFrame(u, n, t)) else Skip
    case ReadReceiptEvent(id, u, at) => Send(ReadReceiptFrame(id, u, at))
    case MessageEditedEvent(id, t, at) => Send(MessageEditedFrame(id, t, at))
    case MessageDeletedEvent(id) => Send(MessageDeletedFrame(id))
    case UserJoinedEvent(u, n) => if u != me then Send(UserJoinedFrame(u, n)) else Skip
    case UserLeftEvent(u, n) => if u != me then Send(UserLeftFrame(u, n)) else Skip
    case _ => NoHandler
  }

  function FramesOf(d: Delivery<ChatFrame>): seq<ChatFrame> {
    if d.Send? then [d.frame] else []
  }

  /** Everything connection `conn`, whose user is `me`, writes to its socket
      for a log of group sends, in order. */
  function ChatInbox(pubs: seq<Publication>, conn: ConnId, me: UserId): seq<ChatFrame>
    decreases |pubs|
  {
    if pubs == [] then []
    else
      var last := pubs[|pubs| - 1];
      ChatInbox(pubs[..|pubs| - 1], conn, me) + (if conn in last.recipients then FramesOf(ChatDeliver(me, last.event)) else [])
  }

  /** No connection is ever told about its own user's typing, joining or leaving. */
  lemma {:induction false} InboxIsEchoFree(pubs: seq<Publication>, conn: ConnId, me: UserId)
    ensures forall i :: 0 <= i < |ChatInbox(pubs, conn, me)| ==> EchoFree(ChatInbox(pubs, conn, me)[i], me)
    decreases |pubs|
  {
    if pubs != [] {
      InboxIsEchoFree(pubs[..|pubs| - 1], conn, me);
    }
  }

  /** Every chat message published while a connection is a member reaches it,
      including the sender's own connections. */
  lemma {:induction false} ChatMessagesReachEveryMember(pubs: seq<Publication>, i: nat, conn: ConnId, me: UserId)
    requires i < |pubs| && conn in pubs[i].recipients && pubs[i].event.ChatMessageEvent?
    ensures MessageFrame(pubs[i].event.message) in ChatInbox(pubs, conn, me)
    decreases |pubs|
  {
    var prefix := pubs[..|pubs| - 1];
    if i < |pubs| - 1 {
      assert prefix[i] == pubs[i];
      ChatMessagesReachEveryMember(prefix, i, conn, me);
    } else {
      assert FramesOf(ChatDeliver(me, pubs[i].event)) == [MessageFrame(pubs[i].event.message)];
    }
  }

  /** The output for `Some(e)`: one group send to `group`'s current members. */
  function Published(group: string, event: Option<Event>, members: set<ConnId>): seq<Publication> {
    if event.Some? then [Publication(group, event.value, members)] else []
  }

  /** One WebSocket connection to a conversation's chat. */
  class ChatConsumer {
    const channelName: ConnId
    const layer: ChannelLayer
    const store: ChatStore
    var conversationId: string
    var user: Option<User>
    var roomGroupName: Option<string>
    var accepted: bool
    var closed: bool
    var sent: seq<ChatFrame>

    /** Connected: an authenticated user in the conversation's group. */
    ghost predicate Joined()
      reads this
    {
      Authenticated(user) && roomGroupName == Some(ChatGroup(conversationId))
    }

    constructor (channelName: ConnId, layer: ChannelLayer, store: ChatStore)
      ensures this.channelName == channelName && this.layer == layer && this.store == store
      ensures user.None? && roomGroupName.None? && !accepted && !closed && sent == []
    {
      this.channelName := channelName;
      this.layer := layer;
      this.store := store;
      conversationId := "";
      user := None;
      roomGroupName := None;
      accepted := false;
      closed := false;
      sent := [];
    }

    /** `connect`: an absent or anonymous user is closed before any join or
        accept; otherwise join `chat_<id>`, accept, and announce the user to
        the group, this connection included. */
    method Connect(routeId: string, scopeUser: Option<User>)
      modifies this, layer
      ensures conversationId == routeId && user == scopeUser && sent == old(sent)
      ensures !Authenticated(scopeUser) ==>
                closed && accepted == old(accepted) && roomGroupName == old(roomGroupName) &&
                layer.groups == old(layer.groups) && layer.published == old(layer.published)
      ensures Authenticated(scopeUser) ==>
                var g := ChatGroup(routeId);
                Joined() && accepted && closed == old(closed) &&
                layer.groups == Join(old(layer.groups), g, channelName) &&
                layer.published == old(layer.published) +
                  [Publication(g, UserJoinedEvent(scopeUser.value.id, scopeUser.value.username), MembersOf(layer.groups, g))]
    {
      conversationId := routeId;
      user := scopeUser;
      if !Authenticated(user) {
        closed := true;
        return;
      }
      var g := ChatGroup(conversationId);
      roomGroupName := Some(g);
      layer.GroupAdd(g, channelName);
      accepted := true;
      layer.GroupSend(g, UserJoinedEvent(user.value.id, user.value.username));
    }

    /** `disconnect`: if the group was joined, announce the departure (to the
        members before leaving, this connection included) and leave. */
    method Disconnect()
      requires roomGroupName.Some? ==> user.Some?
      modifies layer
      ensures roomGroupName.None? ==> layer.groups == old(layer.groups) && layer.published == old(layer.published)
      ensures roomGroupName.Some? ==>
                var g := roomGroupName.value;
                layer.groups == Leave(old(layer.groups), g, channelName) &&
                layer.published == old(layer.published) +
                  [Publication(g, UserLeftEvent(user.value.id, user.value.username), old(layer.Members(g)))]
    {
      if roomGroupName.Some? {
        var g := roomGroupName.value;
        layer.GroupSend(g, UserLeftEvent(user.value.id, user.value.username));
        layer.GroupDiscard(g, channelName);
      }
    }

    /** `receive`: the stored tables and the room's log change as
        `ReceiveOutcome` says; `raised` reports an exception escaping it (an
        unknown conversation, or a message id `int()` rejects). */
    method Receive(data: Inbound, now: Timestamp) returns (raised: bool)
      requires Joined() && store.Valid()
      modifies layer, store
      ensures store.Valid()
      ensures var o := ReceiveOutcome(old(store.messages), old(store.conversations), old(store.nextId),
                                      conversationId, user.value, data, now);
              store.messages == o.messages && store.conversations == o.conversations &&
              store.nextId == o.nextId && raised == o.raised &&
              layer.groups == old(layer.groups) &&
              layer.published == old(layer.published) + Published(roomGroupName.value, o.event, old(layer.Members(roomGroupName.value)))
    {
      var kind := InboundKind(data);
      raised := false;
      if kind == "message" {
        raised := HandleChatMessage(data, now);
      } else if kind == "typing" {
        HandleTypingIndicator(data);
      } else if kind == "read_receipt" {
        raised := HandleReadReceipt(data, now);
      } else if kind == "edit_message" {
        raised := HandleEditMessage(data, now);
      } else if kind == "delete_message" {
        raised := HandleDeleteMessage(data);
      }
    }

    method HandleChatMessage(data: Inbound, now: Timestamp) returns (raised: bool)
      requires Joined() && store.Valid()
      modifies layer, store
      ensures store.Valid()
      ensures var o := MessageOutcome(old(store.messages), old(store.conversations), old(store.nextId),
                                      conversationId, user.value, data, now);
              store.messages == o.messages && store.conversations == o.conversations &&
              store.nextId == o.nextId && raised == o.raised &&
              layer.groups == old(layer.groups) &&
              layer.published == old(layer.published) + Published(roomGroupName.value, o.event, old(layer.Members(roomGroupName.value)))
    {
      var m := CreateMessage(data.text.GetOr(""), data.attachments.GetOr([]), data.replyToMessageId,
                             data.messageType.GetOr("TEXT"), now);
      if m.None? {
        return true;
      }
      layer.GroupSend(roomGroupName.value, ChatMessageEvent(Payload(m.value, user.value)));
      raised := false;
    }

    method HandleTypingIndicator(data: Inbound)
      requires Joined()
      modifies layer
      ensures layer.groups == old(layer.groups)
      ensures layer.published == old(layer.published) +
                [Publication(roomGroupName.value, TypingIndicatorEvent(user.value.id, user.value.username, data.isTyping.GetOr(false)),
                             old(layer.Members(roomGroupName.value)))]
    {
      layer.GroupSend(roomGroupName.value, TypingIndicatorEvent(user.value.id, user.value.username, data.isTyping.GetOr(false)));
    }

    method HandleReadReceipt(data: Inbound, now: Timestamp) returns (raised: bool)
      requires Joined() && store.Valid()
      modifies layer, store
      ensures store.Valid()
      ensures var o := ReadReceiptOutcome(old(store.messages), old(store.conversations), old(store.nextId), user.value, data, now);
              store.messages == o.messages && store.conversations == old(store.conversations) &&
              store.nextId == old(store.nextId) && raised == o.raised && layer.groups == old(layer.groups) &&
              layer.published == old(layer.published) + Published(roomGroupName.value, o.event, old(layer.Members(roomGroupName.value)))
    {
      raised := false;
      if GivenValue(data.messageId) {
        raised := MarkMessageRead(data.messageId.value, now);
        if raised {
          return;
        }
        layer.GroupSend(roomGroupName.value, ReadReceiptEvent(data.messageId.value, user.value.id, now));
      }
    }

    method HandleEditMessage(data: Inbound, now: Timestamp) returns (raised: bool)
      requires Joined() && store.Valid()
      modifies layer, store
      ensures store.Valid()
      ensures var o := EditOutcome(old(store.messages), old(store.conversations), old(store.nextId), user.value, data, now);
              store.messages == o.messages && store.conversations == old(store.conversations) &&
              store.nextId == old(store.nextId) && raised == o.raised && layer.groups == old(layer.groups) &&
              layer.published == old(layer.published) + Published(roomGroupName.value, o.event, old(layer.Members(roomGroupName.value)))
    {
      raised := false;
      if GivenValue(data.messageId) {
        var text := data.text.GetOr("");
        raised := EditMessage(data.messageId.value, text, now);
        if raised {
          return;
        }
        layer.GroupSend(roomGroupName.value, MessageEditedEvent(data.messageId.value, text, now));
      }
    }

    method HandleDeleteMessage(data: Inbound) returns (raised: bool)
      requires Joined() && store.Valid()
      modifies layer, store
      ensures store.Valid()
      ensures var o := DeleteOutcome(old(store.messages), old(store.conversations), old(store.nextId), user.value, data);
              store.messages == o.messages && store.conversations == old(store.conversations) &&
              store.nextId == old(store.nextId) && raised == o.raised && layer.groups == old(layer.groups) &&
              layer.published == old(layer.published) + Published(roomGroupName.value, o.event, old(layer.Members(roomGroupName.value)))
    {
      raised := false;
      if GivenValue(data.messageId) {
        raised := DeleteMessage(data.messageId.value);
        if raised {
          return;
        }
        layer.GroupSend(roomGroupName.value, MessageDeletedEvent(data.messageId.value));
      }
    }

    /** `create_message`: `None` stands for the exception an unknown
        conversation or a reply id `int()` rejects raises, in which case
        nothing is stored. */
    method CreateMessage(text: string, attachments: seq<string>, replyToId: Option<IdValue>, messageType: string,
                         now: Timestamp)
      returns (m: Option<ChatMessage>)
      requires Authenticated(user) && store.Valid()
      modifies store
      ensures store.Valid()
      ensures var c := FindConversation(old(store.conversations), conversationId);
              var reply := ReplyTarget(old(store.messages), replyToId);
              var id := old(store.nextId);
              if c.None? || reply.ReplyRaises? then
                m.None? && store.messages == old(store.messages) &&
                store.conversations == old(store.conversations) && store.nextId == id
              else
                m == Some(NewMessage(id, c.value, user.value.id, text, messageType, attachments, reply.target, now)) &&
                id !in old(store.messages) &&
                store.messages == old(store.messages)[id := m.value] &&
                store.conversations == old(store.conversations)[c.value := old(store.conversations)[c.value].(lastMessage := Some(id))] &&
                store.nextId == id + 1
    {
      var c := FindConversation(store.conversations, conversationId);
      if c.None? {
        return None;
      }
      var replyTo: Option<nat> := None;
      if GivenValue(replyToId) {
        var n := IdOf(replyToId.value);
        if n.None? {
          return None;
        }
        if n.value >= 0 && n.value as nat in store.messages {
          replyTo := Some(n.value as nat);
        }
      }
      var id := store.nextId;
      var row := NewMessage(id, c.value, user.value.id, text, messageType, attachments, replyTo, now);
      store.messages := store.messages[id := row];
      store.nextId := id + 1;
      store.conversations := store.conversations[c.value := store.conversations[c.value].(lastMessage := Some(id))];
      m := Some(row);
    }

    /** `mark_message_read`: `raised` is the `ValueError` of an id `int()`
        rejects; otherwise the table becomes what `ReadById` gives. */
    method MarkMessageRead(messageId: IdValue, now: Timestamp) returns (raised: bool)
      requires Authenticated(user) && store.Valid()
      modifies store
      ensures store.Valid()
      ensures var r := ReadById(old(store.messages), messageId, user.value.id, now);
              raised == r.None? && store.messages == (if r.Some? then r.value else old(store.messages))
      ensures store.conversations == old(store.conversations) && store.nextId == old(store.nextId)
    {
      var n := IdOf(messageId);
      if n.None? {
        return true;
      }
      raised := false;
      if n.value >= 0 && n.value as nat in store.messages {
        var id := n.value as nat;
        store.messages := store.messages[id := WithReadReceipt(store.messages[id], user.value.id, now)];
      }
    }

    /** `edit_message`, reading the id as `MarkMessageRead` does. */
    method EditMessage(messageId: IdValue, newText: string, now: Timestamp) returns (raised: bool)
      requires Authenticated(user) && store.Valid()
      modifies store
      ensures store.Valid()
      ensures var r := EditById(old(store.messages), messageId, user.value.id, newText, now);
              raised == r.None? && store.messages == (if r.Some? then r.value else old(store.messages))
      ensures store.conversations == old(store.conversations) && store.nextId == old(store.nextId)
    {
      var n := IdOf(messageId);
      if n.None? {
        return true;
      }
      raised := false;
      if n.value >= 0 && n.value as nat in store.messages && store.messages[n.value as nat].sender == user.value.id {
        var id := n.value as nat;
        store.messages := store.messages[id := store.messages[id].(text := newText, edited := true, editedAt := Some(now))];
      }
    }

    /** `delete_message`, reading the id as `MarkMessageRead` does. */
    method DeleteMessage(messageId: IdValue) returns (raised: bool)
      requires Authenticated(user) && store.Valid()
      modifies store
      ensures store.Valid()
      ensures var r := DeleteById(old(store.messages), messageId, user.value.id);
              raised == r.None? && store.messages == (if r.Some? then r.value else old(store.messages))
      ensures store.conversations == old(store.conversations) && store.nextId == old(store.nextId)
    {
      var n := IdOf(messageId);
      if n.None? {
        return true;
      }
      raised := false;
      if n.value >= 0 && n.value as nat in store.messages && store.messages[n.value as nat].sender == user.value.id {
        var id := n.value as nat;
        store.messages := store.messages[id := store.messages[id].(deleted := true)];
      }
    }

    /** A group event arriving at this connection: the matching handler writes
        its frame, or skips the user's own presence event; `handled` is false
        when this consumer has no handler for the event's type. */
    method OnGroupEvent(e: Event) returns (handled: bool)
      requires user.Some?
      modifies this`sent
      ensures handled == !ChatDeliver(user.value.id, e).NoHandler?
      ensures sent == old(sent) + FramesOf(ChatDeliver(user.value.id, e))
    {
      var d := ChatDeliver(user.value.id, e);
      handled := !d.NoHandler?;
      if d.Send? {
        sent := sent + [d.frame];
      }
    }
  }
}
