/**
 * The entities of the chat client (Message, Participant, Conversation) as values,
 * with ids as strings and every Date as an integer timestamp.
 */
module ChatTypes {

  type Id = string
  type Timestamp = int

  datatype Option<+T> = None | Some(value: T)

  /** Outcome of a remote call that the model receives as an input. */
  datatype Result<+T> = Ok(value: T) | Failed

  /** Why a store action rejected: a missing conversation/participant, or a rejected remote call. */
  datatype ChatError = NotFound | RemoteRejected

  datatype Outcome = Done | Rejected(error: ChatError)

  datatype MessageSender = MessageSender(id: Id, name: string, email: string, avatar: Option<string>, isOnline: bool)

  datatype MessageKind = Text | Image

  /**
   * A chat message. `status` is not part of the declared message type: the push handler
   * for `message:read` spreads a `status: "read"` field into messages, so the model carries it.
   */
  datatype Message = Message(
    id: Id,
    conversationId: Id,
    sender: MessageSender,
    content: string,
    kind: MessageKind,
    imageUrl: Option<string>,
    isRead: bool,
    status: Option<string>,
    createdAt: Timestamp,
    updatedAt: Timestamp)

  datatype Participant = Participant(
    id: Id,
    name: string,
    email: string,
    avatar: Option<string>,
    isOnline: bool,
    lastSeen: Option<Timestamp>)

  datatype Conversation = Conversation(
    id: Id,
    participants: seq<Participant>,
    lastMessage: Option<Message>,
    unreadCount: Option<int>,
    isDeleted: bool,
    deletedAt: Option<Timestamp>,
    createdAt: Timestamp,
    updatedAt: Timestamp)

  /** JavaScript truthiness of a `string | null` id or token: null and "" are falsy. */
  predicate Truthy(s: Option<string>) {
    s.Some? && s.value != ""
  }

  /** `conv.unreadCount || 0`: an absent (or zero) count reads as 0. */
  function UnreadOrZero(c: Conversation): int {
    if c.unreadCount.Some? then c.unreadCount.value else 0
  }

  /** The list stored under `cid`, or `[]` when the key is absent (`messages[cid] || []`). */
  function MessagesOf(messages: map<Id, seq<Message>>, cid: Id): seq<Message> {
    if cid in messages then messages[cid] else []
  }

  /** `list.some(msg => msg._id === id)` */
  predicate HasId(list: seq<Message>, id: Id) {
    exists i :: 0 <= i < |list| && list[i].id == id
  }

  /** Number of entries of `list` whose id is `id`. */
  function CountId(list: seq<Message>, id: Id): nat {
    if list == [] then 0
    else CountId(list[..|list| - 1], id) + (if list[|list| - 1].id == id then 1 else 0)
  }

  /** The ids of `list`, as the set that `includes`/`some` tests membership in. */
  function IdsOf(list: seq<Message>): set<Id> {
    set m | m in list :: m.id
  }

  /** `list.map(m => m._id)`: the ids in order. */
  function IdList(list: seq<Message>): (r: seq<Id>)
    ensures |r| == |list| && forall i :: 0 <= i < |list| ==> r[i] == list[i].id
  {
    seq(|list|, i requires 0 <= i < |list| => list[i].id)
  }

  /** No two entries of `list` share an id. */
  predicate UniqueIds(list: seq<Message>) {
    forall i, j :: 0 <= i < j < |list| ==> list[i].id != list[j].id
  }

  /** `conversations.find(c => c._id === id)` is defined. */
  predicate HasConversation(convs: seq<Conversation>, id: Id) {
    exists i :: 0 <= i < |convs| && convs[i].id == id
  }

  /** `after` is `before` with `f` applied to every entry whose id is `id`: `before.map(c => c._id === id ? f(c) : c)`. */
  ghost predicate ReplacedWhere(before: seq<Conversation>, after: seq<Conversation>, id: Id, f: Conversation -> Conversation) {
    |after| == |before| &&
    forall i :: 0 <= i < |before| ==> after[i] == if before[i].id == id then f(before[i]) else before[i]
  }

  /** `convs.map(c => c._id === id ? f(c) : c)` */
  function MapWhere(convs: seq<Conversation>, id: Id, f: Conversation -> Conversation): (r: seq<Conversation>)
    ensures ReplacedWhere(convs, r, id, f)
    ensures !HasConversation(convs, id) ==> r == convs
  {
    if convs == [] then []
    else
      var head := if convs[0].id == id then f(convs[0]) else convs[0];
      var rest := MapWhere(convs[1..], id, f);
      assert forall i :: 1 <= i < |convs| ==> convs[i] == convs[1..][i - 1];
      [head] + rest
  }

  /** `convs.find(c => c._id === id)`: the first conversation carrying `id`, if any. */
  function FindById(convs: seq<Conversation>, id: Id): (r: Option<Conversation>)
    ensures r.None? <==> !HasConversation(convs, id)
    ensures r.Some? ==> r.value.id == id &&
                        (exists i :: 0 <= i < |convs| && convs[i] == r.value && forall j :: 0 <= j < i ==> convs[j].id != id)
  {
    if convs == [] then None
    else if convs[0].id == id then Some(convs[0])
    else
      var r := FindById(convs[1..], id);
      assert forall i :: 1 <= i < |convs| ==> convs[i] == convs[1..][i - 1];
      if r.Some? then
        var i :| 0 <= i < |convs[1..]| && convs[1..][i] == r.value && forall j :: 0 <= j < i ==> convs[1..][j].id != id;
        assert convs[i + 1] == r.value && forall j :: 0 <= j < i + 1 ==> convs[j].id != id;
        r
      else r
  }
}
