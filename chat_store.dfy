/**
 * The client-side chat store: conversations, per-conversation message lists, the active
 * conversation, typing flags and a loading flag, updated by the store's actions. Every
 * remote call is an input of the action that makes it (a `Result`, or a `bool` acknowledgement),
 * and every action applies its whole transition at once.
 */
module ChatStore {
  import opened ChatTypes
  import opened Seqs

  /** What `sendMessage` posts to the history API. */
  datatype SendRequest = SendRequest(conversationId: Id, content: string, kind: MessageKind, imageUrl: Option<string>, receiverId: Id)

  /** What `createConversation` posts to the conversations API. */
  datatype CreateRequest = CreateRequest(receiverId: Id)

  /** The mark-read subset: not yet read and not sent by the current user. */
  predicate UnreadFromOther(m: Message, currentUserId: Option<Id>) {
    !m.isRead && (currentUserId.None? || m.sender.id != currentUserId.value)
  }

  function UnreadFromOthers(list: seq<Message>, currentUserId: Option<Id>): seq<Message> {
    Filter(list, m => UnreadFromOther(m, currentUserId))
  }

  /** `list.map(msg => ids has msg._id ? {...msg, isRead: true} : msg)`: a read flag only ever goes up. */
  function MarkIdsRead(list: seq<Message>, ids: set<Id>): (r: seq<Message>)
    ensures |r| == |list|
    ensures forall i :: 0 <= i < |list| ==> r[i].(isRead := list[i].isRead) == list[i]
    ensures forall i :: 0 <= i < |list| ==> (r[i].isRead <==> list[i].isRead || list[i].id in ids)
  {
    seq(|list|, i requires 0 <= i < |list| => if list[i].id in ids then list[i].(isRead := true) else list[i])
  }

  /** `{...messages, [cid]: [...(messages[cid] || []), m]}` */
  function AppendTo(messages: map<Id, seq<Message>>, cid: Id, m: Message): (r: map<Id, seq<Message>>)
    ensures r.Keys == messages.Keys + {cid}
    ensures MessagesOf(r, cid) == MessagesOf(messages, cid) + [m]
    ensures forall k :: k != cid ==> MessagesOf(r, k) == MessagesOf(messages, k)
  {
    messages[cid := MessagesOf(messages, cid) + [m]]
  }

  /** The conversation after `addMessage(m)` while `active` is the active id, at time `now`. */
  function Arrived(c: Conversation, m: Message, active: Option<Id>, now: Timestamp): Conversation {
    c.(lastMessage := Some(m),
       unreadCount := Some(if Some(c.id) == active then 0 else UnreadOrZero(c) + 1),
       updatedAt := now)
  }

  /** The conversation after a successful send of `m` at time `now`. */
  function SentInto(c: Conversation, m: Message, now: Timestamp): Conversation {
    c.(lastMessage := Some(m), updatedAt := now)
  }

  /** The conversation after a successful mark-as-read. */
  function ReadAll(c: Conversation): Conversation {
    c.(unreadCount := Some(0))
  }

  /**
   * The whole transition of `markAsRead(cid)` from (convs, messages) to (convs', messages'),
   * for the current user `currentUserId` and the API acknowledgement `ack`.
   */
  ghost predicate MarkAsReadStep(
    convs: seq<Conversation>, messages: map<Id, seq<Message>>,
    convs': seq<Conversation>, messages': map<Id, seq<Message>>,
    cid: Id, currentUserId: Option<Id>, ack: bool)
  {
    var list := MessagesOf(messages, cid);
    var unread := UnreadFromOthers(list, currentUserId);
    if list == [] || unread == [] || !ack then
      convs' == convs && messages' == messages
    else
      messages' == messages[cid := MarkIdsRead(list, IdsOf(unread))] &&
      ReplacedWhere(convs, convs', cid, ReadAll)
  }

  /** After a successful sweep no message of the list is still unread-from-others. */
  lemma {:induction false} MarkReadSweepClears(list: seq<Message>, currentUserId: Option<Id>)
    ensures UnreadFromOthers(MarkIdsRead(list, IdsOf(UnreadFromOthers(list, currentUserId))), currentUserId) == []
  {
    var ids := IdsOf(UnreadFromOthers(list, currentUserId));
    var r := MarkIdsRead(list, ids);
    forall x | x in r
      ensures !UnreadFromOther(x, currentUserId)
    {
      var i :| 0 <= i < |r| && r[i] == x;
      if UnreadFromOther(list[i], currentUserId) {
        assert list[i] in UnreadFromOthers(list, currentUserId);
        assert list[i].id in ids;
      }
    }
  }

  /**
   * Without a current user id (`localStorage.getItem("user_id")` is null) every message counts
   * as from someone else, so a successful sweep leaves the whole list read, the user's own
   * unread messages included.
   */
  lemma {:induction false} MarkReadSweepWithoutUser(list: seq<Message>)
    ensures var r := MarkIdsRead(list, IdsOf(UnreadFromOthers(list, None)));
            forall i :: 0 <= i < |r| ==> r[i].isRead
  {
    var r := MarkIdsRead(list, IdsOf(UnreadFromOthers(list, None)));
    MarkReadSweepClears(list, None);
    forall i | 0 <= i < |r|
      ensures r[i].isRead
    {
      if !r[i].isRead {
        assert UnreadFromOther(r[i], None);
      }
    }
  }

  /**
   * With pairwise distinct ids, the sweep changes exactly the unread-from-others messages.
   * (The source marks by id, so without distinct ids a message sharing an id with an unread one
   * is marked too.)
   */
  lemma {:induction false} MarkReadSweepExact(list: seq<Message>, currentUserId: Option<Id>, i: int)
    requires UniqueIds(list)
    requires 0 <= i < |list|
    ensures var r := MarkIdsRead(list, IdsOf(UnreadFromOthers(list, currentUserId)));
            r[i] != list[i] <==> UnreadFromOther(list[i], currentUserId)
  {
    var unread := UnreadFromOthers(list, currentUserId);
    var r := MarkIdsRead(list, IdsOf(unread));
    if UnreadFromOther(list[i], currentUserId) {
      assert list[i] in unread;
      assert list[i].id in IdsOf(unread);
      assert r[i].isRead != list[i].isRead;
    }
    if r[i] != list[i] {
      assert list[i].id in IdsOf(unread);
      var u :| u in unread && u.id == list[i].id;
      assert u in list;
      var j :| 0 <= j < |list| && list[j] == u;
      assert j == i;
    }
  }

  /**
   * The whole transition of `sendMessage(cid, ...)` from (convs, messages) to (convs', messages'):
   * no target conversation or no first participant means no request and no change; otherwise
   * the request goes to `participants[0]`, a rejected call changes nothing, and a successful one
   * appends the returned message and makes it the `lastMessage` of the conversations with `cid`.
   */
  ghost predicate SendStep(
    convs: seq<Conversation>, messages: map<Id, seq<Message>>,
    convs': seq<Conversation>, messages': map<Id, seq<Message>>,
    cid: Id, content: string, kind: MessageKind, imageUrl: Option<string>,
    response: Result<Message>, now: Timestamp, request: Option<SendRequest>)
  {
    var target := FindById(convs, cid);
    if target.None? || target.value.participants == [] then
      request == None && convs' == convs && messages' == messages
    else
      request == Some(SendRequest(cid, content, kind, imageUrl, target.value.participants[0].id)) &&
      (response.Failed? ==> convs' == convs && messages' == messages) &&
      (response.Ok? ==>
         messages' == AppendTo(messages, cid, response.value) &&
         ReplacedWhere(convs, convs', cid, c => SentInto(c, response.value, now)))
  }

  /**
   * After a successful send the message is the last of the conversation's list, and the
   * conversation `find` now returns is the old one with that message as `lastMessage` and
   * `updatedAt` set to the send time.
   */
  lemma {:induction false} SendDelivers(
    convs: seq<Conversation>, messages: map<Id, seq<Message>>,
    convs': seq<Conversation>, messages': map<Id, seq<Message>>,
    cid: Id, content: string, kind: MessageKind, imageUrl: Option<string>,
    response: Result<Message>, now: Timestamp, request: Option<SendRequest>)
    requires SendStep(convs, messages, convs', messages', cid, content, kind, imageUrl, response, now, request)
    requires request.Some? && response.Ok?
    ensures MessagesOf(messages', cid) == MessagesOf(messages, cid) + [response.value]
    ensures FindById(convs, cid).Some? &&
            FindById(convs', cid) == Some(SentInto(FindById(convs, cid).value, response.value, now))
  {
    var m := response.value;
    var t := FindById(convs, cid).value;
    var i :| 0 <= i < |convs| && convs[i] == t && forall j :: 0 <= j < i ==> convs[j].id != cid;
    assert convs'[i] == SentInto(t, m, now);
    assert HasConversation(convs', cid);
    var t' := FindById(convs', cid).value;
    var i' :| 0 <= i' < |convs'| && convs'[i'] == t' && forall j :: 0 <= j < i' ==> convs'[j].id != cid;
    assert i' == i;
  }

  class Store {
    var conversations: seq<Conversation>
    var messages: map<Id, seq<Message>>
    var activeConversationId: Option<Id>
    var isTyping: map<Id, bool>
    var isLoading: bool

    constructor ()
      ensures conversations == [] && messages == map[] && activeConversationId == None
      ensures isTyping == map[] && !isLoading
    {
      conversations := [];
      messages := map[];
      activeConversationId := None;
      isTyping := map[];
      isLoading := false;
    }

    /** Replaces the whole list on success, keeps it on failure; `isLoading` ends false either way. */
    method LoadConversations(fetched: Result<seq<Conversation>>)
      modifies this
      ensures conversations == if fetched.Ok? then fetched.value else old(conversations)
      ensures !isLoading
      ensures messages == old(messages) && activeConversationId == old(activeConversationId)
      ensures isTyping == old(isTyping)
    {
      isLoading := true;
      match fetched {
        case Ok(list) =>
          conversations, isLoading := list, false;
        case Failed =>
          isLoading := false;
      }
    }

    /**
     * Replaces (does not merge) the list under `cid` on success; no other key changes.
     * On failure nothing but `isLoading` changes, and `isLoading` ends false either way.
     */
    method LoadMessages(cid: Id, fetched: Result<seq<Message>>)
      modifies this
      ensures messages == if fetched.Ok? then old(messages)[cid := fetched.value] else old(messages)
      ensures !isLoading
      ensures conversations == old(conversations) && activeConversationId == old(activeConversationId)
      ensures isTyping == old(isTyping)
    {
      isLoading := true;
      match fetched {
        case Ok(list) =>
          messages, isLoading := messages[cid := list], false;
        case Failed =>
          isLoading := false;
      }
    }

    /**
     * `createConversation(receiverId)`: posts `{receiverId}`; on success prepends the created
     * conversation (without checking for an existing id) and returns it; on failure rethrows
     * and changes nothing.
     */
    method CreateConversation(receiverId: Id, created: Result<Conversation>)
      returns (request: CreateRequest, r: Result<Conversation>)
      modifies this
      ensures request == CreateRequest(receiverId)
      ensures r == created
      ensures conversations == if created.Ok? then [created.value] + old(conversations) else old(conversations)
      ensures messages == old(messages) && activeConversationId == old(activeConversationId)
      ensures isTyping == old(isTyping) && isLoading == old(isLoading)
    {
      request := CreateRequest(receiverId);
      r := created;
      if created.Ok? {
        conversations := [created.value] + conversations;
      }
    }

    /**
     * `markAsRead(cid)`: a no-op when the list is absent or empty, when nothing in it is
     * unread-from-others, or when the API call fails; otherwise flips `isRead` for the ids of
     * that subset and zeroes `unreadCount` of the conversations with id `cid`.
     * `requested` is the id list posted to the API, if the call was made.
     */
    method MarkAsRead(cid: Id, currentUserId: Option<Id>, ack: bool) returns (requested: Option<seq<Id>>)
      modifies this
      ensures MarkAsReadStep(old(conversations), old(messages), conversations, messages, cid, currentUserId, ack)
      ensures var unread := UnreadFromOthers(MessagesOf(old(messages), cid), currentUserId);
              requested == if unread == [] then None else Some(IdList(unread))
      ensures activeConversationId == old(activeConversationId) && isTyping == old(isTyping)
      ensures isLoading == old(isLoading)
    {
      requested := None;
      var list := MessagesOf(messages, cid);
      if list != [] {
        var unread := UnreadFromOthers(list, currentUserId);
        if unread != [] {
          requested := Some(IdList(unread));
          if ack {
            conversations := MapWhere(conversations, cid, ReadAll);
            messages := messages[cid := MarkIdsRead(list, IdsOf(unread))];
          }
        }
      }
    }

    /**
     * `setActiveConversation(id)`: always records `id`. For a truthy id whose list is absent or
     * empty it loads the list; the mark-as-read it also starts sees that same absent or empty
     * list (it checks before the load completes) and so does nothing. For a truthy id whose list
     * is non-empty it runs the mark-as-read step.
     */
    method SetActiveConversation(id: Option<Id>, currentUserId: Option<Id>, fetched: Result<seq<Message>>, ack: bool)
      modifies this
      ensures activeConversationId == id
      ensures isTyping == old(isTyping)
      ensures !Truthy(id) ==>
                conversations == old(conversations) && messages == old(messages) && isLoading == old(isLoading)
      ensures Truthy(id) && MessagesOf(old(messages), id.value) == [] ==>
                conversations == old(conversations) && !isLoading &&
                messages == if fetched.Ok? then old(messages)[id.value := fetched.value] else old(messages)
      ensures Truthy(id) && MessagesOf(old(messages), id.value) != [] ==>
                isLoading == old(isLoading) &&
                MarkAsReadStep(old(conversations), old(messages), conversations, messages, id.value, currentUserId, ack)
    {
      activeConversationId := id;
      if Truthy(id) {
        var cid := id.value;
        var needsLoad := MessagesOf(messages, cid) == [];
        var _ := MarkAsRead(cid, currentUserId, ack);
        if needsLoad {
          LoadMessages(cid, fetched);
        }
      }
    }

    /**
     * `sendMessage`: rejects with NotFound and no request when the conversation is missing or has
     * no first participant; otherwise posts to `participants[0]`. A rejected post changes nothing;
     * an accepted one appends the returned message under `cid` and makes it the `lastMessage` of
     * the conversations with that id.
     */
    method SendMessage(cid: Id, content: string, kind: MessageKind, imageUrl: Option<string>,
                       response: Result<Message>, now: Timestamp)
      returns (request: Option<SendRequest>, outcome: Outcome)
      modifies this
      ensures SendStep(old(conversations), old(messages), conversations, messages, cid, content, kind, imageUrl, response, now, request)
      ensures outcome == if request.None? then Rejected(NotFound) else if response.Failed? then Rejected(RemoteRejected) else Done
      ensures activeConversationId == old(activeConversationId) && isTyping == old(isTyping)
      ensures isLoading == old(isLoading)
    {
      var target := FindById(conversations, cid);
      if target.None? || target.value.participants == [] {
        return None, Rejected(NotFound);
      }
      request := Some(SendRequest(cid, content, kind, imageUrl, target.value.participants[0].id));
      match response {
        case Failed =>
          outcome := Rejected(RemoteRejected);
        case Ok(m) =>
          messages := AppendTo(messages, cid, m);
          conversations := MapWhere(conversations, cid, c => SentInto(c, m, now));
          outcome := Done;
      }
    }

    /** `setTyping(u, b)`: only key `u` of the typing map changes. */
    method SetTyping(userId: Id, typing: bool)
      modifies this
      ensures isTyping == old(isTyping)[userId := typing]
      ensures conversations == old(conversations) && messages == old(messages)
      ensures activeConversationId == old(activeConversationId) && isLoading == old(isLoading)
    {
      isTyping := isTyping[userId := typing];
    }

    /**
     * `addMessage(m)`: appends `m` (no id check) to the list of its conversation, creating the
     * list if absent, and updates the matching conversations: `lastMessage` becomes `m`, and
     * `unreadCount` becomes 0 when the conversation is active, else the old count plus one.
     */
    method AddMessage(m: Message, now: Timestamp)
      modifies this
      ensures messages == AppendTo(old(messages), m.conversationId, m)
      ensures ReplacedWhere(old(conversations), conversations, m.conversationId,
                            c => Arrived(c, m, old(activeConversationId), now))
      ensures activeConversationId == old(activeConversationId) && isTyping == old(isTyping)
      ensures isLoading == old(isLoading)
    {
      var active := activeConversationId;
      messages := AppendTo(messages, m.conversationId, m);
      conversations := MapWhere(conversations, m.conversationId, c => Arrived(c, m, active, now));
    }

    /** `updateConversation(c)`: replaces the entries with `c`'s id; length and order are kept. */
    method UpdateConversation(c: Conversation)
      modifies this
      ensures ReplacedWhere(old(conversations), conversations, c.id, _ => c)
      ensures messages == old(messages) && activeConversationId == old(activeConversationId)
      ensures isTyping == old(isTyping) && isLoading == old(isLoading)
    {
      conversations := MapWhere(conversations, c.id, _ => c);
    }
  }
}
