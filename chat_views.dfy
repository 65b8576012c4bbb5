/** The chat REST actions over the same message and conversation rows the
    chat consumer uses: the message listing and unread count, marking
    messages read, creating a message and pushing it to the conversation's
    group, clearing the message table, and the conversation
    listing, read-marking, archive flag and statistics. */
module ChatViews {
  import opened Common
  import opened Text
  import opened ChatData
  import Channels
  import WebsocketUtils

  /** The message listing's query parameters `conversation`, `unread_only`
      and `message_type`. */
  datatype MessageQuery = MessageQuery(conversation: Option<string>, unreadOnly: Option<string>, messageType: Option<string>)

  /** Whether a message passes the listing's filters for a conversation id
      that has already been read as a number. */
  predicate MessageMatches(m: ChatMessage, q: MessageQuery, conversation: Option<int>) {
    (conversation.Some? ==> m.conversation == conversation.value) &&
    (q.unreadOnly == Some("true") ==> !m.isRead) &&
    (Given(q.messageType) ==> m.kind == q.messageType.value)
  }

  /** The message `get_queryset`: the conversation and type filters apply only
      when given, `unread_only` only when it is exactly `'true'`; a
      conversation id that is not a number makes the lookup raise, a 500. */
  function MessageListing(messages: map<nat, ChatMessage>, q: MessageQuery): (r: Result<set<nat>>)
    ensures r.Err? <==> Given(q.conversation) && ParseInt(q.conversation.value).None?
    ensures r.Err? ==> r.error == InternalError
    ensures r.Ok? ==> r.value <= messages.Keys
    ensures r.Ok? && !Given(q.conversation) && q.unreadOnly != Some("true") && !Given(q.messageType) ==>
              r.value == messages.Keys
    ensures r.Ok? ==> forall k :: k in messages ==> (k in r.value <==>
              (Given(q.conversation) ==> Some(messages[k].conversation as int) == ParseInt(q.conversation.value)) &&
              (q.unreadOnly == Some("true") ==> !messages[k].isRead) &&
              (Given(q.messageType) ==> messages[k].kind == q.messageType.value))
  {
    if Given(q.conversation) && ParseInt(q.conversation.value).None? then Err(InternalError)
    else
      var c := if Given(q.conversation) then ParseInt(q.conversation.value) else None;
      Ok(set k | k in messages && MessageMatches(messages[k], q, c))
  }

  /** `unread_only` is case-sensitive: `'True'` lists read messages too. */
  lemma UnreadOnlyIsExact(messages: map<nat, ChatMessage>)
    ensures MessageListing(messages, MessageQuery(None, Some("True"), None)) == Ok(messages.Keys)
    ensures MessageListing(messages, MessageQuery(None, Some("true"), None)).value ==
              set k | k in messages && !messages[k].isRead
  {
  }

  /** The messages `unread_count` counts: unread, not sent by the requester,
      and in the given conversation when there is one. */
  function UnreadFor(messages: map<nat, ChatMessage>, requester: UserId, conversation: Option<int>): set<nat> {
    set k | k in messages && !messages[k].isRead && messages[k].sender != requester &&
            (conversation.Some? ==> messages[k].conversation == conversation.value)
  }

  /** `unread_count` */
  function UnreadCountAction(messages: map<nat, ChatMessage>, requester: UserId, conversationParam: Option<string>)
    : (r: Result<nat>)
    ensures r.Err? <==> Given(conversationParam) && ParseInt(conversationParam.value).None?
    ensures r.Ok? && !Given(conversationParam) ==> r.value == |UnreadFor(messages, requester, None)|
    ensures r.Ok? && Given(conversationParam) ==> r.value == |UnreadFor(messages, requester, ParseInt(conversationParam.value))|
  {
    if !Given(conversationParam) then Ok(|UnreadFor(messages, requester, None)|)
    else match ParseInt(conversationParam.value)
      case None => Err(InternalError)
      case Some(c) => Ok(|UnreadFor(messages, requester, Some(c))|)
  }

  /** A conversation's unread count never exceeds the overall one, and a
      requester's own messages never count. */
  lemma UnreadCountScopes(messages: map<nat, ChatMessage>, requester: UserId, c: int)
    ensures UnreadFor(messages, requester, Some(c)) <= UnreadFor(messages, requester, None)
    ensures |UnreadFor(messages, requester, Some(c))| <= |UnreadFor(messages, requester, None)|
    ensures forall k :: k in UnreadFor(messages, requester, None) ==> messages[k].sender != requester
  {
    var a, b := UnreadFor(messages, requester, Some(c)), UnreadFor(messages, requester, None);
    assert b == a + (b - a);
  }

  /** `filter(id__in=ids).update(is_read=True)` */
  function MarkRead(messages: map<nat, ChatMessage>, ids: set<nat>): (r: map<nat, ChatMessage>)
    ensures r.Keys == messages.Keys
    ensures forall k :: k in messages ==> r[k] == if k in ids then messages[k].(isRead := true) else messages[k]
  {
    map k | k in messages :: if k in ids then messages[k].(isRead := true) else messages[k]
  }

  /** The ids in a request's `message_ids` list. */
  function IdSet(ids: seq<nat>): set<nat> {
    set i | 0 <= i < |ids| :: ids[i]
  }

  /** `mark_multiple_as_read` reports the length of the list it was given,
      which is not the number of rows it changed: a repeated id, or an id
      with no row, is counted all the same. */
  lemma ReportedCountIsListLength(messages: map<nat, ChatMessage>, k: nat)
    requires k in messages && !messages[k].isRead
    ensures var ids := [k, k];
            |ids| == 2 && |set j | j in messages && !messages[j].isRead && MarkRead(messages, IdSet(ids))[j].isRead| == 1
  {
    var ids := [k, k];
    var changed := set j | j in messages && !messages[j].isRead && MarkRead(messages, IdSet(ids))[j].isRead;
    assert IdSet(ids) == {k} by {
      assert ids[0] == k;
      assert forall j :: j in IdSet(ids) ==> j == k;
    }
    assert changed == {k};
  }

  /** The conversation listing's `status` filter: `'active'`, `'archived'`,
      or every row for anything else. */
  function StatusSelects(c: Conversation, status: Option<string>): bool {
    if status == Some("active") then c.isActive
    else if status == Some("archived") then !c.isActive
    else true
  }

  /** Whether the conversation has an unread message. */
  predicate HasUnread(messages: map<nat, ChatMessage>, c: nat) {
    exists k :: k in messages && messages[k].conversation == c && !messages[k].isRead
  }

  /** The conversation `get_queryset` with `status` and `unread_only`. */
  function ConversationListing(conversations: map<nat, Conversation>, messages: map<nat, ChatMessage>,
                               status: Option<string>, unreadOnly: Option<string>): (r: set<nat>)
    ensures forall k :: k in r <==> k in conversations && StatusSelects(conversations[k], status) &&
                                     (unreadOnly == Some("true") ==> HasUnread(messages, k))
  {
    set k | k in conversations && StatusSelects(conversations[k], status) &&
            (unreadOnly == Some("true") ==> HasUnread(messages, k))
  }

  /** The active and archived listings split the conversations between them,
      and any other status text lists them all. */
  lemma StatusListingsPartition(conversations: map<nat, Conversation>, messages: map<nat, ChatMessage>,
                                other: string)
    requires other != "active" && other != "archived"
    ensures var active := ConversationListing(conversations, messages, Some("active"), None);
            var archived := ConversationListing(conversations, messages, Some("archived"), None);
            active !! archived && active + archived == conversations.Keys &&
            ConversationListing(conversations, messages, Some(other), None) == conversations.Keys
  {
  }

  /** The `statistics` response. */
  datatype ConversationStats = ConversationStats(total: nat, active: nat, archived: nat, withUnread: nat)

  /** The conversations counted as active, as archived, and as having an unread message. */
  function ActiveIds(conversations: map<nat, Conversation>): set<nat> {
    set k | k in conversations && conversations[k].isActive
  }

  function ArchivedIds(conversations: map<nat, Conversation>): set<nat> {
    set k | k in conversations && !conversations[k].isActive
  }

  function UnreadIds(conversations: map<nat, Conversation>, messages: map<nat, ChatMessage>): set<nat> {
    set k | k in conversations && HasUnread(messages, k)
  }

  /** `statistics` */
  function Statistics(conversations: map<nat, Conversation>, messages: map<nat, ChatMessage>): ConversationStats {
    ConversationStats(|conversations|, |ActiveIds(conversations)|, |ArchivedIds(conversations)|,
                      |UnreadIds(conversations, messages)|)
  }

  /** Every conversation is either active or archived, so the two counts add
      up to the total, and no more conversations have unread messages than
      exist. */
  lemma StatisticsAddUp(conversations: map<nat, Conversation>, messages: map<nat, ChatMessage>)
    ensures var s := Statistics(conversations, messages);
            s.total == s.active + s.archived && s.withUnread <= s.total
  {
    var keys := conversations.Keys;
    assert ArchivedIds(conversations) == keys - ActiveIds(conversations);
    PartCount(keys, ActiveIds(conversations));
    PartCount(keys, UnreadIds(conversations, messages));
    assert |keys| == |conversations|;
  }

  /** A subset and its complement share out the whole set. */
  lemma PartCount(all: set<nat>, part: set<nat>)
    requires part <= all
    ensures |part| + |all - part| == |all|
  {
    assert all == part + (all - part);
  }

  /** The conversation `mark_as_read`: every unread message of that
      conversation becomes read. */
  function ConversationRead(messages: map<nat, ChatMessage>, c: nat): map<nat, ChatMessage> {
    map k | k in messages :: if messages[k].conversation == c && !messages[k].isRead
                             then messages[k].(isRead := true) else messages[k]
  }

  /** After it the conversation has no unread message and no message of
      another conversation changes. */
  lemma ConversationReadEffect(messages: map<nat, ChatMessage>, c: nat)
    ensures !HasUnread(ConversationRead(messages, c), c)
    ensures ConversationRead(messages, c).Keys == messages.Keys
    ensures forall k :: k in messages && messages[k].conversation != c ==> ConversationRead(messages, c)[k] == messages[k]
    ensures forall d :: d != c ==> (HasUnread(ConversationRead(messages, c), d) <==> HasUnread(messages, d))
  {
    var after := ConversationRead(messages, c);
    forall d | d != c && HasUnread(messages, d)
      ensures HasUnread(after, d)
    {
      var k :| k in messages && messages[k].conversation == d && !messages[k].isRead;
      assert after[k] == messages[k];
    }
  }

  /** `perform_create`: `serializer.save()` stores the validated message
      under the next id, and `send_chat_message` then publishes the
      serializer's rendering of it to the conversation's chat group, to the
      members joined at that moment. `validated` is the row the serializer
      saves and `rendered` the data it renders. */
  method PerformCreate(store: ChatStore, layer: Channels.ChannelLayer, validated: ChatMessage,
                       rendered: Channels.MessagePayload) returns (id: nat)
    requires store.Valid()
    modifies store`messages, store`nextId, layer
    ensures store.Valid()
    ensures id == old(store.nextId) && id !in old(store.messages) && store.nextId == id + 1
    ensures store.messages == old(store.messages)[id := validated.(id := id)]
    ensures layer.groups == old(layer.groups)
    ensures var env := WebsocketUtils.ChatMessageEnvelope(validated.conversation, rendered);
            layer.published == old(layer.published) + [Channels.Publication(env.group, env.event, old(layer.Members(env.group)))]
  {
    id := store.nextId;
    store.messages := store.messages[id := validated.(id := id)];
    store.nextId := id + 1;
    WebsocketUtils.Publish(layer, WebsocketUtils.ChatMessageEnvelope(validated.conversation, rendered));
  }

  /** The message `mark_as_read`: 404 for a missing message; otherwise only
      that message's flag is set. */
  method MarkMessageAsRead(store: ChatStore, id: nat) returns (r: Result<string>)
    requires store.Valid()
    modifies store`messages
    ensures store.Valid()
    ensures id !in old(store.messages) <==> r == Err(NotFound)
    ensures r.Err? ==> store.messages == old(store.messages)
    ensures r.Ok? ==> store.messages == old(store.messages)[id := old(store.messages)[id].(isRead := true)]
  {
    if id !in store.messages {
      return Err(NotFound);
    }
    var message := store.messages[id];
    message := message.(isRead := true);
    store.messages := store.messages[id := message];
    r := Ok("message marked as read");
  }

  /** `mark_multiple_as_read`: the listed messages that exist become read and
      the reply counts the list as given. */
  method MarkMultipleAsRead(store: ChatStore, ids: seq<nat>) returns (reported: nat)
    requires store.Valid()
    modifies store`messages
    ensures store.Valid()
    ensures store.messages == MarkRead(old(store.messages), IdSet(ids))
    ensures reported == |ids|
  {
    store.messages := MarkRead(store.messages, IdSet(ids));
    reported := |ids|;
  }

  /** Every conversation with its `last_message` set to `NULL`, as
      `on_delete=SET_NULL` leaves it once that message is deleted. */
  function LastMessagesCleared(conversations: map<nat, Conversation>): (r: map<nat, Conversation>)
    ensures r.Keys == conversations.Keys
    ensures forall c :: c in r ==> r[c].lastMessage.None?
    ensures forall c :: c in r ==> r[c].(lastMessage := conversations[c].lastMessage) == conversations[c]
  {
    map c | c in conversations :: conversations[c].(lastMessage := None)
  }

  /** The message `delete_all`: every message is deleted, and the
      `SET_NULL` foreign key clears every conversation's last message, which
      keeps the store's foreign keys intact. */
  method DeleteAllMessages(store: ChatStore)
    requires store.Valid()
    modifies store`messages, store`conversations
    ensures store.Valid()
    ensures store.messages == map[]
    ensures store.conversations == LastMessagesCleared(old(store.conversations))
  {
    store.messages := map[];
    store.conversations := LastMessagesCleared(store.conversations);
  }

  /** Without `SET_NULL` the foreign key breaks: deleting every message while
      a conversation still names its last one leaves that name dangling. */
  lemma DeleteAllNeedsSetNull(conversations: map<nat, Conversation>, c: nat)
    requires c in conversations && conversations[c].lastMessage.Some?
    ensures !LastMessagesStored(map[], conversations)
    ensures LastMessagesStored(map[], LastMessagesCleared(conversations))
  {
  }

  /** The conversation `mark_as_read`: 404 for a missing conversation. */
  method MarkConversationAsRead(store: ChatStore, c: nat) returns (r: Result<string>)
    requires store.Valid()
    modifies store`messages
    ensures store.Valid()
    ensures c !in old(store.conversations) <==> r == Err(NotFound)
    ensures r.Err? ==> store.messages == old(store.messages)
    ensures r.Ok? ==> store.messages == ConversationRead(old(store.messages), c) && !HasUnread(store.messages, c)
  {
    if c !in store.conversations {
      return Err(NotFound);
    }
    store.messages := ConversationRead(store.messages, c);
    ConversationReadEffect(old(store.messages), c);
    r := Ok("messages marked as read");
  }

  /** `archive` (`active == false`) and `unarchive` (`active == true`): 404 for
      a missing conversation; otherwise only its flag is set, whatever it was. */
  method SetArchiveFlag(store: ChatStore, c: nat, active: bool) returns (r: Result<string>)
    modifies store`conversations
    ensures c !in old(store.conversations) <==> r.Err?
    ensures r.Err? ==> r.error == NotFound && store.conversations == old(store.conversations)
    ensures r.Ok? ==> store.conversations == old(store.conversations)[c := old(store.conversations)[c].(isActive := active)]
  {
    if c !in store.conversations {
      return Err(NotFound);
    }
    var conversation := store.conversations[c];
    conversation := conversation.(isActive := active);
    store.conversations := store.conversations[c := conversation];
    r := Ok(if active then "conversation unarchived" else "conversation archived");
  }

  /** Archiving twice is archiving once, and archiving then unarchiving
      gives back an active conversation with every other field intact. */
  lemma ArchiveIsIdempotent(conversations: map<nat, Conversation>, c: nat, active: bool)
    requires c in conversations
    ensures var once := conversations[c := conversations[c].(isActive := active)];
            once[c := once[c].(isActive := active)] == once &&
            once[c := once[c].(isActive := !active)][c] == conversations[c].(isActive := !active)
  {
    var once := conversations[c := conversations[c].(isActive := active)];
    assert once[c := once[c].(isActive := active)] == once;
  }
}
