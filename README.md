# Chatify client chat core, modelled in Dafny

This project models the client-side chat logic of the Chatify front end and proves
properties about it. The model has six parts:

- **The chat store** (`chat_store.dfy`, module `ChatStore`). This is the Zustand store: a
  `Store` class whose fields are `conversations`, `messages` (conversation id to message list),
  `activeConversationId`, `isTyping` (user id to flag) and `isLoading`. Every action is a
  method. It either applies its whole transition or none of it. Each remote call (load, create,
  send, mark-read) is an explicit input: a `Result` or a `bool` acknowledgement.
- **The socket layer** (`socket.dfy`, module `Socket`). A `ChatSocket` class has a `connected`
  flag, an `auth` token, a count of connection requests, a log of emitted events and a queue of
  scheduled typing resets. The inbound handlers (`message:received`, `message:read`,
  `user:typing`, `user:stopped-typing`, `user:online`, `user:offline`, `conversation:created`)
  are methods that update the store; their pure reducers are functions. The `connect` and
  `disconnect` handlers are methods too, but they change only the socket's own state and its
  outgoing events (`connect` reads the store's active id to rejoin it).
- **The typing debounce hook** (`typing_indicator.dfy`, module `TypingIndicator`). A one-step
  specification (`TypingState`, `Next`, `Emits`) and an `Indicator` class proved to follow it.
  A timeout firing is an explicit `TimerFires` input rather than real time.
- **The sidebar's conversation list** (`conversation_sidebar.dfy`, module `ConversationSidebar`).
  The filter pipeline, an in-place sort of the fresh array the filters produce, and the
  other-participant lookup of each row.
- **The chat window's derived views** (`chat_window.dfy`, module `ChatWindow`). The active
  conversation, its messages, the grouping of messages by day label (a `forEach` loop), and
  the send handler.
- **The avatar initials** (`avatar.dfy`, module `Avatar`).

`chat_types.dfy` (module `ChatTypes`) mirrors the types of `src/types/chat.ts`: ids are
strings and timestamps are integers. `seqs.dfy` (module `Seqs`) holds JavaScript's `filter` and how it meets concatenation and
neighbour swaps.

Inputs the code reads from its environment become parameters:

- the current user id read from `localStorage` (`currentUserId: Option<Id>`);
- the access token (`token`);
- the current time (`now`);
- the day label `formatDate` gives a timestamp (`key`).

JavaScript truthiness of ids and tokens is explicit: `null` and `""` are falsy (`Truthy`).

Where the code and its documentation disagree, the model follows the code:

- `loadMessages` replaces the stored list; it does not merge into it.
- `addMessage` and `sendMessage` append without checking for an existing id. Only the
  `message:received` handler deduplicates.
- `message:read` writes `status: "read"` and leaves `isRead` unchanged, so `Message` carries
  an optional `status`.
- `setActiveConversation` starts `loadMessages` and `markAsRead` without waiting. When the
  list has to be loaded, `markAsRead` still sees the old absent or empty list and does
  nothing. `unreadCount` then keeps its value.
- A `user:typing` event schedules a reset without cancelling an earlier one. A stale reset can
  therefore clear a typing flag that a later event set again.
- `markAsRead` selects messages by id (`some(unread._id === msg._id)`). A message that shares
  an id with an unread message from someone else is marked too. `MarkReadSweepExact` states
  the exact effect for lists with distinct ids.
- `markAsRead` reads the current user from `localStorage` key `"user_id"`, and no file of the
  application writes that key. The id is therefore null in practice, and the sweep marks the
  user's own unread messages too. `MarkReadSweepWithoutUser` states this case.

## Model

| member | source | states |
|---|---|---|
| ChatTypes.FindById | src/stores/chat.store.ts:82-86 | `find` by id: `None` exactly when no conversation has the id; otherwise the first conversation carrying it |
| ChatTypes.MapWhere | src/stores/chat.store.ts:199-205 | `map(c => c._id === id ? f(c) : c)`: entries with the id are replaced by `f` of themselves, all others kept, length and order kept; no match means no change |
| ChatStore.MarkIdsRead | src/stores/chat.store.ts:151-155 | the sweep only flips `isRead`, only upward, and exactly for messages whose id is in the set; length and every other field kept |
| ChatStore.AppendTo | src/stores/chat.store.ts:174-181 | the list under the conversation id grows by exactly the message, last, created if absent; every other key's list is unchanged |
| ChatStore.MarkReadSweepClears | src/stores/chat.store.ts:133-155 | after a successful mark-as-read no message of the list is still unread and from someone else |
| ChatStore.MarkReadSweepWithoutUser | src/stores/chat.store.ts:130-135 | with no current user id every unread message counts as from someone else, so a successful sweep leaves every message of the list read |
| ChatStore.MarkReadSweepExact | src/stores/chat.store.ts:133-155 | with distinct ids, a message changes exactly when it was unread and from someone else |
| ChatStore.Store.constructor | src/stores/chat.store.ts:7-11 | the initial state: no conversations, no messages, no active id, no typing flags, not loading |
| ChatStore.Store.LoadConversations | src/stores/chat.store.ts:14-23 | success replaces the whole list, failure keeps it; `isLoading` ends false; nothing else changes |
| ChatStore.Store.LoadMessages | src/stores/chat.store.ts:26-41 | success replaces only the list under the id (no merge); failure keeps the data; `isLoading` ends false |
| ChatStore.Store.CreateConversation | src/stores/chat.store.ts:43-58 | the posted body carries the receiver id; success prepends exactly the created conversation, with no check for an existing id, and returns it; failure is passed on and changes nothing |
| ChatStore.Store.MarkAsRead | src/stores/chat.store.ts:125-161 | no-op for an absent or empty list, for no unread-from-others message, or for a failed call; otherwise marks that subset read and zeroes `unreadCount` of the conversations with the id; the posted id list is that subset's ids |
| ChatStore.Store.SetActiveConversation | src/stores/chat.store.ts:61-72 | always records the id; a falsy id does nothing else; an absent or empty list is loaded and the mark-as-read is then a no-op; a non-empty list gets the mark-as-read transition |
| ChatStore.Store.SendMessage | src/stores/chat.store.ts:74-122 | a missing conversation or first participant rejects with no request and no change; the request goes to `participants[0]`; a rejected call changes nothing; success appends the returned message last and makes it `lastMessage` of the matching conversations only |
| ChatStore.SendDelivers | src/stores/chat.store.ts:82-115 | after a successful send the message is last in the conversation's list, and `find` by the id returns the old conversation with that message as `lastMessage` and the send time as `updatedAt` |
| ChatStore.Store.SetTyping | src/stores/chat.store.ts:163-170 | only the user's key of `isTyping` changes |
| ChatStore.Store.AddMessage | src/stores/chat.store.ts:173-196 | appends the message (no id check), creating the list if absent; matching conversations get it as `lastMessage` and an `unreadCount` of 0 when active, else the old count (absent as 0) plus one; other keys and conversations unchanged |
| ChatStore.Store.UpdateConversation | src/stores/chat.store.ts:199-205 | replaces the entries with the same id; length and order kept; nothing else changes |
| Socket.EmitIfConnected | src/lib/socket.ts:194-223 | a guarded emit adds exactly the event when connected and nothing when disconnected |
| Socket.PresenceInParticipants | src/lib/socket.ts:150-153 | the `map`: count and order kept, the user's entries updated, every other entry as it was |
| Socket.PresenceTouchesOnlyUser | src/lib/socket.ts:150-153 | the user's entries get the new online flag (and the last-seen time when offline), keeping id, name, email and avatar; other participants are untouched |
| Socket.PresenceInConversations | src/lib/socket.ts:146-174 | every conversation keeps all fields but its participants, which get the presence update; count and order kept |
| Socket.PresenceIdempotent | src/lib/socket.ts:146-174 | delivering the same presence event twice gives the same state as once |
| Socket.MarkStatusRead | src/lib/socket.ts:108-113 | the listed ids get `status: "read"`, no `isRead` flag changes, unlisted messages are unchanged, length and order kept |
| Socket.WithCreated | src/lib/socket.ts:179-189 | a known id leaves the list unchanged; an unknown one is prepended exactly once; either way the id is present afterwards |
| Socket.CreatedIdempotent | src/lib/socket.ts:179-189 | delivering the same `conversation:created` twice is the same as once |
| Socket.CountIdPositive | src/lib/socket.ts:86-88 | the duplicate test `some(msg._id === id)` holds exactly when the id occurs at least once |
| Socket.ChatSocket.constructor | src/lib/socket.ts:5-16 | the module-level socket starts unconnected (`autoConnect: false`), with no token, no connection requested, nothing emitted and no typing reset scheduled |
| Socket.ChatSocket.InitializeSocket | src/lib/socket.ts:18-27 | the token is set and one connection requested only for a truthy token while disconnected; otherwise nothing changes |
| Socket.ChatSocket.OnDisconnect | src/lib/socket.ts:49-55 | the socket is disconnected; a reconnection is requested only for the reason "io server disconnect" |
| Socket.ChatSocket.DisconnectSocket | src/lib/socket.ts:29-34 | acts only when connected and never requests a reconnection; a second call does nothing |
| Socket.ChatSocket.EmitTyping | src/lib/socket.ts:194-198 | logs one `typing` event when connected, nothing otherwise |
| Socket.ChatSocket.EmitStoppedTyping | src/lib/socket.ts:201-205 | logs one `stopped-typing` event when connected, nothing otherwise |
| Socket.ChatSocket.JoinConversation | src/lib/socket.ts:208-215 | logs one `join-conversation` event when connected, nothing otherwise |
| Socket.ChatSocket.LeaveConversation | src/lib/socket.ts:218-223 | logs one `leave-conversation` event when connected, nothing otherwise |
| Socket.ChatSocket.OnConnect | src/lib/socket.ts:38-47 | the socket is connected; a truthy active id is rejoined with exactly one `join-conversation`, otherwise nothing is emitted |
| Socket.ChatSocket.OnMessageReceived | src/lib/socket.ts:80-95 | adds the message only when its id is not yet in its conversation's list; afterwards the id is present, so a repeat delivery is a no-op; a newly added id occurs exactly once |
| Socket.ChatSocket.OnMessageRead | src/lib/socket.ts:101-123 | with no stored list nothing changes; otherwise only that list changes, by `MarkStatusRead` |
| Socket.ChatSocket.OnUserTyping | src/lib/socket.ts:127-134 | sets the user's flag and schedules exactly one reset, after those already scheduled, none of which is cancelled |
| Socket.ChatSocket.FireTypingReset | src/lib/socket.ts:131-133 | the oldest scheduled reset clears that user's flag, whatever set it since; with none scheduled nothing changes |
| Socket.ChatSocket.OnUserStoppedTyping | src/lib/socket.ts:136-142 | clears the user's flag at once; scheduled resets stay |
| Socket.ChatSocket.OnUserPresence | src/lib/socket.ts:146-174 | the conversations become `PresenceInConversations` of the old ones; nothing else changes |
| Socket.ChatSocket.OnConversationCreated | src/lib/socket.ts:179-189 | the conversations become `WithCreated` of the old ones; nothing else changes |
| TypingIndicator.NextKeepsValid | src/hooks/useTypingIndicator.ts:5-47 | every input keeps the link between the live timeout and the ref |
| TypingIndicator.KeystrokeBurst | src/hooks/useTypingIndicator.ts:11-21 | n keystrokes in a row emit n `typing` events and leave exactly one timeout armed; when it fires exactly one `stopped-typing` follows and none is pending |
| TypingIndicator.StopTypingSettles | src/hooks/useTypingIndicator.ts:24-35 | stopping leaves no timeout pending and emits one `stopped-typing`; a second stop emits again and changes nothing else |
| TypingIndicator.NoConversationNoEffect | src/hooks/useTypingIndicator.ts:8 | with a falsy conversation id both handlers emit nothing and leave the timeout alone |
| TypingIndicator.CleanupSettles | src/hooks/useTypingIndicator.ts:38-47 | the cleanup cancels the pending timeout and emits `stopped-typing` for the old id; a change of id does the same before binding the new id |
| TypingIndicator.Indicator.constructor | src/hooks/useTypingIndicator.ts:4-5 | a new hook instance has an empty ref and no pending timeout |
| TypingIndicator.Indicator.HandleTyping | src/hooks/useTypingIndicator.ts:7-22 | the new state and the emissions are those of one `Keystroke` step; the ref link is kept |
| TypingIndicator.Indicator.HandleStopTyping | src/hooks/useTypingIndicator.ts:24-35 | the new state and the emissions are those of one `StopTyping` step; the ref link is kept |
| TypingIndicator.Indicator.FireTimer | src/hooks/useTypingIndicator.ts:19-21 | the timeout callback: the state and the emissions of one `TimerFires` step |
| TypingIndicator.Indicator.CleanupEffect | src/hooks/useTypingIndicator.ts:38-47 | the state and the emissions of one `Cleanup` step |
| TypingIndicator.Indicator.Rerender | src/hooks/useTypingIndicator.ts:38-47 | a render with a new id runs the old cleanup and then binds the new id, as one `Rebind` step |
| ConversationSidebar.PassingFilters | src/features/conversation/components/conversation-sidebar.tsx:23-44 | a sub-multiset of the conversations; each has participants, matches a non-empty query, and has unread messages under the unread tab; the groups tab gives nothing; for the other tabs every conversation passing all filters is kept |
| ConversationSidebar.SortByRecency | src/features/conversation/components/conversation-sidebar.tsx:47-51 | the array ends sorted by `updatedAt`, newest first, is a permutation of what it held, and keeps the relative order of conversations with equal `updatedAt` (the sort is stable, as `Array.prototype.sort` is) |
| ConversationSidebar.InsertEntry | src/features/conversation/components/conversation-sidebar.tsx:47-51 | one pass moves an entry into the sorted prefix before it: the prefix one longer is sorted, the array is a permutation of what it held, and entries with equal `updatedAt` keep their order |
| ConversationSidebar.SwapKeepsTies | src/features/conversation/components/conversation-sidebar.tsx:47-51 | exchanging two neighbours with different `updatedAt` leaves, for every time, the subsequence of conversations updated at that time unchanged |
| ConversationSidebar.SortedCopy | src/features/conversation/components/conversation-sidebar.tsx:47-51 | sorting the filtered list gives a sorted, stable permutation of it |
| ConversationSidebar.FilteredConversations | src/features/conversation/components/conversation-sidebar.tsx:23-52 | the result is a permutation of the conversations that pass every filter, sorted newest first, with conversations of equal `updatedAt` in the order the filters left them |
| ConversationSidebar.OtherParticipant | src/features/conversation/components/conversation-sidebar.tsx:122-124 | the first participant whose id is not the signed-in user's (the first one when nobody is signed in); none exactly when every participant is that user |
| ConversationSidebar.RowOf | src/features/conversation/components/conversation-sidebar.tsx:122-141 | the row carries the conversation id; the name is the other participant's name, or "Unknown" when there is none or it is empty; the online flag is that participant's, absent when there is none; the unread badge is the count with an absent count as 0; the row is active exactly for the active id |
| ChatWindow.ActiveConversation | src/features/chat/components/chat-window.tsx:26-29 | some conversation exactly when the active id is set and present; it is then the first conversation carrying that id, as `find` returns |
| ChatWindow.ConversationMessages | src/features/chat/components/chat-window.tsx:31-35 | empty with no active id or no stored list, else the stored list |
| ChatWindow.FirstDates | src/features/chat/components/chat-window.tsx:41-49 | the day labels in first-seen order, each once |
| ChatWindow.FirstDatesCover | src/features/chat/components/chat-window.tsx:41-49 | a label is present exactly when some message falls on that day |
| ChatWindow.FirstDatesOrder | src/features/chat/components/chat-window.tsx:41-49 | labels follow first occurrence: for an earlier label `ds[i]` and a later `ds[j]`, every message on `ds[j]` has a message on `ds[i]` before it |
| ChatWindow.GroupedShape | src/features/chat/components/chat-window.tsx:41-50 | group labels are distinct; each group is non-empty and holds exactly its day's messages in their original order; every message's day has a group |
| ChatWindow.FirstMessageOpensFirstGroup | src/features/chat/components/chat-window.tsx:41-49 | groups follow first occurrence: the first message's day is the first group |
| ChatWindow.IndexOfDate | src/features/chat/components/chat-window.tsx:43 | `groups.find` by label: the first group with that label, or past the end when there is none |
| ChatWindow.AddToGroupsAt | src/features/chat/components/chat-window.tsx:42-49 | one loop step extends only the group found for the message's day and leaves every other group as it was |
| ChatWindow.AddToGroupsOpens | src/features/chat/components/chat-window.tsx:42-49 | a message whose day has no group opens a new last group holding just that message |
| ChatWindow.GroupedSnoc | src/features/chat/components/chat-window.tsx:42-49 | one loop step on the grouping of a prefix gives the grouping of the prefix one longer |
| ChatWindow.GroupsAfterIsGrouped | src/features/chat/components/chat-window.tsx:41-50 | after the first `n` loop steps the groups are the grouping of the first `n` messages |
| ChatWindow.GroupedIsPermutation | src/features/chat/components/chat-window.tsx:41-50 | the groups together hold every message exactly as often as the list does, so their total size is the list's length |
| ChatWindow.GroupByDate | src/features/chat/components/chat-window.tsx:37-53 | the `forEach` loop computes exactly the grouping `Grouped` |
| ChatWindow.HandleSendMessage | src/features/chat/components/chat-window.tsx:55-62 | `isTyping` and `isLoading` never change; with no active id nothing is sent or changed; otherwise the store makes the `sendMessage` transition (`SendStep`) for a text message with no image to the active conversation: no request and no change when that conversation or its first participant is missing, else the request to `participants[0]`, no change on rejection, and on success the message appended and made `lastMessage` |
| Avatar.Split | src/components/ui/avatar.tsx:28 | `split(" ")` gives at least one piece and no piece contains a space |
| Avatar.JoinSplit | src/components/ui/avatar.tsx:28 | joining the pieces with spaces gives the text back |
| Avatar.SplitJoin | src/components/ui/avatar.tsx:28 | splitting a space-joined list of space-free words gives the words back |
| Avatar.HeadsOfSplit | src/components/ui/avatar.tsx:27-30 | the first characters of the pieces are exactly the word starts; empty pieces contribute nothing |
| Avatar.Initials | src/components/ui/avatar.tsx:24-35 | a truthy fallback is returned as is; with no truthy alt the result is "?"; otherwise at most two upper-cased word starts of the alt text, in order, with no space |
| Avatar.BlankAltGivesEmpty | src/components/ui/avatar.tsx:27-32 | an alt text of spaces only gives "", not "?" |

## Left out

- React rendering, JSX and DOM effects. This includes scrolling to the newest message, the
  image-error state of the avatar, and the preview and timestamp text of a sidebar row.
- socket.io internals: reconnection attempts, delays and timeouts are library configuration.
  A connection attempt is counted (`connectCalls`). A successful one reaches the model as an
  `OnConnect` step, and a later drop of the connection as an `OnDisconnect` step. A failed
  attempt fires only `connect_error`, which logs, so in the model it is no step at all.
- The `connect_error`, `reconnect`, `reconnect_error`, `reconnect_failed` and `message:sent`
  handlers only log, so they are not modelled.
- The HTTP wrappers. Their results are `Result` or `bool` inputs of the store actions.
- The `localStorage` reads. The current user id and the token are parameters.
- Clocks. `new Date()` is the `now` parameter, `formatDate` is the `key` parameter, and
  `setTimeout` is an explicit fire step (`FireTimer`, `FireTypingReset`). All typing resets
  share one delay, so they fire in the order they were scheduled. The hook's 3-second timer
  and the socket's 3-second reset are not ordered against each other.
- Dates as ISO strings. `updatedAt` is an integer, and the sort compares those integers.
- Async interleaving. Each store action is atomic. In the source, `markAsRead` writes back the
  list it read before its `await`, so a message added during that call is lost. The model does
  not capture this race.
- Console logging, the message-input form, the auth store and the React effect plumbing
  (`useChat`, the socket connection handler).
- Case mapping is ASCII only: `toLowerCase` and `toUpperCase` map `A`–`Z` and `a`–`z`.
  `n[0]` is the first `char`, so UTF-16 surrogate pairs are not modelled.
- Socket.ChatSocket.InitializeSocket: the token is read from `localStorage` by the source; here
  it is the `token` parameter.
