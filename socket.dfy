/**
 * The push-event connection: one socket with a `connected` flag, an `auth` token, a count of
 * connection requests and a log of emitted events, plus the inbound handlers that reduce the
 * store's state. The transport's own reconnection machinery is not modelled; its results reach
 * the model as explicit `OnConnect` / `OnDisconnect` steps. A `setTimeout` for the typing reset
 * is a queue entry that `FireTypingReset` consumes (all such timers share one delay, so they
 * fire in scheduling order).
 */
module Socket {
  import opened ChatTypes
  import ChatStore

  /** Outbound events and their `{conversationId}` payloads. */
  datatype Emit =
    | Typing(conversationId: Id)
    | StoppedTyping(conversationId: Id)
    | Join(conversationId: Id)     // `join-conversation`
    | Leave(conversationId: Id)    // `leave-conversation`

  /** The disconnect reason for which the handler asks the transport to reconnect. */
  const ServerDisconnect: string := "io server disconnect"
  /** The reason the transport reports for a disconnect the client asked for. */
  const ClientDisconnect: string := "io client disconnect"

  /** What one guarded emit adds to the log: the event when connected, nothing otherwise. */
  function EmitIfConnected(connected: bool, e: Emit): (r: seq<Emit>)
    ensures |r| == (if connected then 1 else 0)
    ensures forall x :: x in r ==> x == e
  {
    if connected then [e] else []
  }

  /** `{...p, isOnline: true}` or `{...p, isOnline: false, lastSeen}` */
  datatype Presence = Online | Offline(lastSeen: Timestamp)

  function ApplyPresence(p: Participant, presence: Presence): Participant {
    match presence
    case Online => p.(isOnline := true)
    case Offline(t) => p.(isOnline := false, lastSeen := Some(t))
  }

  /** `participants.map(p => p._id === userId ? apply(p) : p)`: only that user's entries change. */
  function PresenceInParticipants(ps: seq<Participant>, userId: Id, presence: Presence): (r: seq<Participant>)
    ensures |r| == |ps|
    ensures forall j :: 0 <= j < |ps| ==> r[j] == if ps[j].id == userId then ApplyPresence(ps[j], presence) else ps[j]
  {
    if ps == [] then []
    else
      var head := if ps[0].id == userId then ApplyPresence(ps[0], presence) else ps[0];
      var rest := PresenceInParticipants(ps[1..], userId, presence);
      assert forall j :: 1 <= j < |ps| ==> ps[j] == ps[1..][j - 1];
      [head] + rest
  }

  /**
   * Only the user's entries change, and in them only the online flag (and, going offline,
   * the last-seen time); ids, order and count are kept.
   */
  lemma PresenceTouchesOnlyUser(ps: seq<Participant>, userId: Id, presence: Presence)
    ensures var r := PresenceInParticipants(ps, userId, presence);
            |r| == |ps| &&
            (forall j :: 0 <= j < |ps| ==> r[j].id == ps[j].id) &&
            (forall j :: 0 <= j < |ps| && ps[j].id == userId ==>
               r[j].isOnline == presence.Online? && (presence.Offline? ==> r[j].lastSeen == Some(presence.lastSeen)) &&
               (presence.Online? ==> r[j].lastSeen == ps[j].lastSeen) &&
               r[j].name == ps[j].name && r[j].email == ps[j].email && r[j].avatar == ps[j].avatar) &&
            (forall j :: 0 <= j < |ps| && ps[j].id != userId ==> r[j] == ps[j])
  {
  }

  /**
   * The `user:online` / `user:offline` reducer: every participant with `userId`, in every
   * conversation, gets the new presence; count, order and every other field are kept.
   */
  function PresenceInConversations(convs: seq<Conversation>, userId: Id, presence: Presence): (r: seq<Conversation>)
    ensures |r| == |convs|
    ensures forall i :: 0 <= i < |convs| ==>
              r[i] == convs[i].(participants := PresenceInParticipants(convs[i].participants, userId, presence))
  {
    seq(|convs|, i requires 0 <= i < |convs| =>
      convs[i].(participants := PresenceInParticipants(convs[i].participants, userId, presence)))
  }

  /** A second delivery of the same presence event changes nothing more. */
  lemma {:induction false} PresenceIdempotent(convs: seq<Conversation>, userId: Id, presence: Presence)
    ensures var once := PresenceInConversations(convs, userId, presence);
            PresenceInConversations(once, userId, presence) == once
  {
    var once := PresenceInConversations(convs, userId, presence);
    var twice := PresenceInConversations(once, userId, presence);
    forall i | 0 <= i < |convs|
      ensures twice[i] == once[i]
    {
      var ps := once[i].participants;
      var qs := PresenceInParticipants(ps, userId, presence);
      assert |qs| == |ps|;
      forall j | 0 <= j < |ps|
        ensures qs[j] == ps[j]
      {
        if ps[j].id == userId {
          var orig := convs[i].participants[j];
          assert ps[j] == ApplyPresence(orig, presence);
        }
      }
    }
  }

  /** The `message:read` update: the listed ids get `status: "read"`; `isRead` is left as it was. */
  function MarkStatusRead(list: seq<Message>, ids: seq<Id>): (r: seq<Message>)
    ensures |r| == |list|
    ensures forall i :: 0 <= i < |list| ==> r[i].isRead == list[i].isRead && r[i].id == list[i].id
    ensures forall i :: 0 <= i < |list| ==> r[i].(status := list[i].status) == list[i]
    ensures forall i :: 0 <= i < |list| ==> (list[i].id in ids ==> r[i].status == Some("read"))
    ensures forall i :: 0 <= i < |list| ==> (list[i].id !in ids ==> r[i] == list[i])
  {
    seq(|list|, i requires 0 <= i < |list| => if list[i].id in ids then list[i].(status := Some("read")) else list[i])
  }

  /** The `conversation:created` reducer: prepends only when no conversation has that id. */
  function WithCreated(convs: seq<Conversation>, c: Conversation): (r: seq<Conversation>)
    ensures HasConversation(convs, c.id) ==> r == convs
    ensures !HasConversation(convs, c.id) ==> |r| == |convs| + 1 && r[0] == c && r[1..] == convs
    ensures HasConversation(r, c.id)
  {
    if FindById(convs, c.id).Some? then convs else [c] + convs
  }

  /** Delivering the same `conversation:created` twice is the same as delivering it once. */
  lemma {:induction false} CreatedIdempotent(convs: seq<Conversation>, c: Conversation)
    ensures WithCreated(WithCreated(convs, c), c) == WithCreated(convs, c)
  {
    assert HasConversation(WithCreated(convs, c), c.id);
  }

  /** One more copy of an id adds one to its count. */
  lemma {:induction false} CountIdSnoc(list: seq<Message>, m: Message)
    ensures CountId(list + [m], m.id) == CountId(list, m.id) + 1
  {
    assert (list + [m])[..|list + [m]| - 1] == list;
  }

  /** An id occurs in the list exactly when its count is positive. */
  lemma {:induction false} CountIdPositive(list: seq<Message>, id: Id)
    ensures CountId(list, id) > 0 <==> HasId(list, id)
  {
    if list != [] {
      var init := list[..|list| - 1];
      CountIdPositive(init, id);
      assert forall i :: 0 <= i < |init| ==> init[i] == list[i];
      if HasId(list, id) && list[|list| - 1].id != id {
        var i :| 0 <= i < |list| && list[i].id == id;
        assert i < |init| && init[i].id == id;
      }
    }
  }

  class ChatSocket {
    const store: ChatStore.Store
    var connected: bool
    var auth: Option<string>
    /** How many times `socket.connect()` has been called. */
    var connectCalls: nat
    var emitted: seq<Emit>
    /** Users whose `isTyping` flag a scheduled timer will reset, oldest first. */
    var pendingTypingResets: seq<Id>

    constructor (store: ChatStore.Store)
      ensures this.store == store
      ensures !connected && auth == None && connectCalls == 0 && emitted == [] && pendingTypingResets == []
    {
      this.store := store;
      connected := false;
      auth := None;
      connectCalls := 0;
      emitted := [];
      pendingTypingResets := [];
    }

    /** `initializeSocket(token)`: sets the token and connects only for a truthy token while not connected. */
    method InitializeSocket(token: Option<string>)
      modifies this`auth, this`connectCalls
      ensures Truthy(token) && !connected ==> auth == token && connectCalls == old(connectCalls) + 1
      ensures !(Truthy(token) && !connected) ==> auth == old(auth) && connectCalls == old(connectCalls)
    {
      if Truthy(token) && !connected {
        auth := token;
        connectCalls := connectCalls + 1;
      }
    }

    /** The `disconnect` handler: only a server-initiated disconnect asks to reconnect. */
    method OnDisconnect(reason: string)
      modifies this`connected, this`connectCalls
      ensures !connected
      ensures connectCalls == old(connectCalls) + (if reason == ServerDisconnect then 1 else 0)
    {
      connected := false;
      if reason == ServerDisconnect {
        connectCalls := connectCalls + 1;
      }
    }

    /**
     * `disconnectSocket()`: acts only when connected; the transport then reports a client
     * disconnect, which does not reconnect. A second call does nothing.
     */
    method DisconnectSocket()
      modifies this`connected, this`connectCalls
      ensures !connected && connectCalls == old(connectCalls)
    {
      if connected {
        OnDisconnect(ClientDisconnect);
      }
    }

    method EmitTyping(cid: Id)
      modifies this`emitted
      ensures emitted == old(emitted) + EmitIfConnected(connected, Typing(cid))
    {
      if connected {
        emitted := emitted + [Typing(cid)];
      }
    }

    method EmitStoppedTyping(cid: Id)
      modifies this`emitted
      ensures emitted == old(emitted) + EmitIfConnected(connected, StoppedTyping(cid))
    {
      if connected {
        emitted := emitted + [StoppedTyping(cid)];
      }
    }

    method JoinConversation(cid: Id)
      modifies this`emitted
      ensures emitted == old(emitted) + EmitIfConnected(connected, Join(cid))
    {
      if connected {
        emitted := emitted + [Join(cid)];
      }
    }

    method LeaveConversation(cid: Id)
      modifies this`emitted
      ensures emitted == old(emitted) + EmitIfConnected(connected, Leave(cid))
    {
      if connected {
        emitted := emitted + [Leave(cid)];
      }
    }

    /**
     * The `connect` handler: the socket is now connected, so a truthy active conversation id
     * is rejoined with exactly one `join-conversation`; otherwise nothing is emitted.
     */
    method OnConnect()
      modifies this`connected, this`emitted
      ensures connected
      ensures var active := store.activeConversationId;
              emitted == old(emitted) + (if Truthy(active) then [Join(active.value)] else [])
    {
      connected := true;
      var active := store.activeConversationId;
      if Truthy(active) {
        JoinConversation(active.value);
      }
    }

    /**
     * `message:received`: adds the message unless one with the same id is already in its
     * conversation's list, in which case nothing changes. Afterwards the id is present, so a
     * second delivery is a no-op, and an id that was absent occurs exactly once.
     */
    method OnMessageReceived(m: Message, now: Timestamp)
      modifies store
      ensures var before := MessagesOf(old(store.messages), m.conversationId);
              if HasId(before, m.id) then
                store.messages == old(store.messages) && store.conversations == old(store.conversations)
              else
                store.messages == ChatStore.AppendTo(old(store.messages), m.conversationId, m) &&
                ReplacedWhere(old(store.conversations), store.conversations, m.conversationId,
                              c => ChatStore.Arrived(c, m, old(store.activeConversationId), now)) &&
                CountId(MessagesOf(store.messages, m.conversationId), m.id) == 1
      ensures HasId(MessagesOf(store.messages, m.conversationId), m.id)
      ensures store.activeConversationId == old(store.activeConversationId)
      ensures store.isTyping == old(store.isTyping) && store.isLoading == old(store.isLoading)
    {
      var before := MessagesOf(store.messages, m.conversationId);
      if !HasId(before, m.id) {
        store.AddMessage(m, now);
        CountIdPositive(before, m.id);
        CountIdSnoc(before, m);
        assert MessagesOf(store.messages, m.conversationId)[|before|] == m;
      }
    }

    /**
     * `message:read`: when the conversation has a stored list (even an empty one), the listed
     * ids get `status: "read"`; length, order and every `isRead` flag are unchanged.
     * Without a stored list nothing changes.
     */
    method OnMessageRead(cid: Id, ids: seq<Id>)
      modifies store
      ensures store.messages == if cid in old(store.messages)
                                then old(store.messages)[cid := MarkStatusRead(old(store.messages)[cid], ids)]
                                else old(store.messages)
      ensures store.conversations == old(store.conversations)
      ensures store.activeConversationId == old(store.activeConversationId)
      ensures store.isTyping == old(store.isTyping) && store.isLoading == old(store.isLoading)
    {
      if cid in store.messages {
        store.messages := store.messages[cid := MarkStatusRead(store.messages[cid], ids)];
      }
    }

    /**
     * `user:typing`: sets the flag and schedules one later reset. An earlier reset for the
     * same user stays scheduled, so it can clear a flag set again since.
     */
    method OnUserTyping(userId: Id)
      modifies store, this`pendingTypingResets
      ensures store.isTyping == old(store.isTyping)[userId := true]
      ensures pendingTypingResets == old(pendingTypingResets) + [userId]
      ensures store.conversations == old(store.conversations) && store.messages == old(store.messages)
      ensures store.activeConversationId == old(store.activeConversationId) && store.isLoading == old(store.isLoading)
    {
      store.SetTyping(userId, true);
      pendingTypingResets := pendingTypingResets + [userId];
    }

    /** The oldest scheduled typing reset fires: that user's flag becomes false, whatever set it since. */
    method FireTypingReset()
      modifies store, this`pendingTypingResets
      ensures old(pendingTypingResets) == [] ==> pendingTypingResets == [] && store.isTyping == old(store.isTyping)
      ensures old(pendingTypingResets) != [] ==>
                pendingTypingResets == old(pendingTypingResets)[1..] &&
                store.isTyping == old(store.isTyping)[old(pendingTypingResets)[0] := false]
      ensures store.conversations == old(store.conversations) && store.messages == old(store.messages)
      ensures store.activeConversationId == old(store.activeConversationId) && store.isLoading == old(store.isLoading)
    {
      if pendingTypingResets != [] {
        store.SetTyping(pendingTypingResets[0], false);
        pendingTypingResets := pendingTypingResets[1..];
      }
    }

    /** `user:stopped-typing`: clears the flag at once; scheduled resets stay scheduled. */
    method OnUserStoppedTyping(userId: Id)
      modifies store
      ensures store.isTyping == old(store.isTyping)[userId := false]
      ensures store.conversations == old(store.conversations) && store.messages == old(store.messages)
      ensures store.activeConversationId == old(store.activeConversationId) && store.isLoading == old(store.isLoading)
    {
      store.SetTyping(userId, false);
    }

    /** `user:online` / `user:offline` */
    method OnUserPresence(userId: Id, presence: Presence)
      modifies store
      ensures store.conversations == PresenceInConversations(old(store.conversations), userId, presence)
      ensures store.messages == old(store.messages) && store.isTyping == old(store.isTyping)
      ensures store.activeConversationId == old(store.activeConversationId) && store.isLoading == old(store.isLoading)
    {
      store.conversations := PresenceInConversations(store.conversations, userId, presence);
    }

    /** `conversation:created`: prepends only an unknown id; a repeated delivery changes nothing. */
    method OnConversationCreated(c: Conversation)
      modifies store
      ensures store.conversations == WithCreated(old(store.conversations), c)
      ensures store.messages == old(store.messages) && store.isTyping == old(store.isTyping)
      ensures store.activeConversationId == old(store.activeConversationId) && store.isLoading == old(store.isLoading)
    {
      if FindById(store.conversations, c.id).None? {
        store.conversations := [c] + store.conversations;
      }
    }
  }
}
