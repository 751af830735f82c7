/**
 * The chat window's derived views: the active conversation, its message list, the list
 * grouped by calendar day in first-seen order, and the send handler. The day label of a
 * timestamp (`formatDate`) is a parameter `key`.
 */
module ChatWindow {
  import opened ChatTypes
  import opened Seqs
  import ChatStore

  /** `conversations.find(c => c._id === activeConversationId)`; a null id matches nothing. */
  function ActiveConversation(convs: seq<Conversation>, active: Option<Id>): (r: Option<Conversation>)
    ensures r.Some? <==> active.Some? && HasConversation(convs, active.value)
    ensures r.Some? ==> r.value.id == active.value &&
                        exists i :: 0 <= i < |convs| && convs[i] == r.value && forall j :: 0 <= j < i ==> convs[j].id != active.value
  {
    if active.None? then None else FindById(convs, active.value)
  }

  /** The active conversation's list; empty when no id is active or nothing is stored under it. */
  function ConversationMessages(messages: map<Id, seq<Message>>, active: Option<Id>): (r: seq<Message>)
    ensures !Truthy(active) ==> r == []
    ensures Truthy(active) && active.value !in messages ==> r == []
    ensures Truthy(active) && active.value in messages ==> r == messages[active.value]
  {
    if !Truthy(active) then [] else MessagesOf(messages, active.value)
  }

  datatype DateGroup = DateGroup(date: string, messages: seq<Message>)

  /** No day label occurs twice. */
  predicate Distinct(ds: seq<string>) {
    forall i, j :: 0 <= i < j < |ds| ==> ds[i] != ds[j]
  }

  /** The test `g.date === date` of the grouping, as a value `Filter` can take. */
  function SameDate(key: Timestamp -> string, d: string): Message -> bool {
    (m: Message) => key(m.createdAt) == d
  }

  /** The day labels of `msgs`, each once, in the order of their first message. */
  function FirstDates(msgs: seq<Message>, key: Timestamp -> string): (r: seq<string>)
    ensures Distinct(r)
  {
    if msgs == [] then []
    else
      var init := msgs[..|msgs| - 1];
      var last := msgs[|msgs| - 1];
      assert msgs == init + [last];
      var ds := FirstDates(init, key);
      if key(last.createdAt) in ds then ds else ds + [key(last.createdAt)]
  }

  /** The labels are exactly the days of the messages. */
  lemma {:induction false} FirstDatesCover(msgs: seq<Message>, key: Timestamp -> string)
    ensures forall d :: d in FirstDates(msgs, key) <==> exists m :: m in msgs && key(m.createdAt) == d
  {
    if msgs != [] {
      var init := msgs[..|msgs| - 1];
      var last := msgs[|msgs| - 1];
      assert msgs == init + [last];
      FirstDatesCover(init, key);
    }
  }

  /**
   * The grouping the window promises: one group per day label, in first-seen order, holding
   * that day's messages in their original order.
   */
  function Grouped(msgs: seq<Message>, key: Timestamp -> string): seq<DateGroup> {
    var ds := FirstDates(msgs, key);
    seq(|ds|, i requires 0 <= i < |ds| => DateGroup(ds[i], Filter(msgs, SameDate(key, ds[i]))))
  }

  /** Group `i` carries the `i`-th label, with that label's messages. */
  lemma GroupedAt(msgs: seq<Message>, key: Timestamp -> string)
    ensures var ds := FirstDates(msgs, key); var r := Grouped(msgs, key);
            |r| == |ds| &&
            forall i :: 0 <= i < |r| ==> r[i] == DateGroup(ds[i], Filter(msgs, SameDate(key, ds[i])))
  {
  }

  /** Group `i` alone. */
  lemma GroupedIndex(msgs: seq<Message>, key: Timestamp -> string, i: nat)
    requires i < |FirstDates(msgs, key)|
    ensures var ds := FirstDates(msgs, key);
            i < |Grouped(msgs, key)| && Grouped(msgs, key)[i] == DateGroup(ds[i], Filter(msgs, SameDate(key, ds[i])))
  {
  }

  /**
   * The groups have distinct day labels and are non-empty, each holds exactly the messages of
   * its own day in their original order, and every message's day has a group.
   */
  lemma GroupedShape(msgs: seq<Message>, key: Timestamp -> string)
    ensures var r := Grouped(msgs, key);
            (forall i, j :: 0 <= i < j < |r| ==> r[i].date != r[j].date) &&
            (forall i :: 0 <= i < |r| ==> r[i].messages == Filter(msgs, SameDate(key, r[i].date))) &&
            (forall i :: 0 <= i < |r| ==> r[i].messages != []) &&
            (forall i, m :: 0 <= i < |r| ==> (m in r[i].messages <==> m in msgs && key(m.createdAt) == r[i].date)) &&
            (forall m :: m in msgs ==> exists i :: 0 <= i < |r| && r[i].date == key(m.createdAt))
  {
    GroupedAt(msgs, key);
    GroupedMembers(msgs, key);
    GroupedCovers(msgs, key);
  }

  /** A group holds exactly its day's messages, and so at least one. */
  lemma GroupedMembers(msgs: seq<Message>, key: Timestamp -> string)
    ensures var r := Grouped(msgs, key);
            (forall i, m :: 0 <= i < |r| ==> (m in r[i].messages <==> m in msgs && key(m.createdAt) == r[i].date)) &&
            (forall i :: 0 <= i < |r| ==> r[i].messages != [])
  {
    var ds := FirstDates(msgs, key);
    var r := Grouped(msgs, key);
    GroupedAt(msgs, key);
    FirstDatesCover(msgs, key);
    forall i, m | 0 <= i < |r|
      ensures m in r[i].messages <==> m in msgs && key(m.createdAt) == r[i].date
    {
      assert r[i].messages == Filter(msgs, SameDate(key, ds[i]));
    }
    forall i | 0 <= i < |r|
      ensures r[i].messages != []
    {
      assert ds[i] in ds;
      var m :| m in msgs && key(m.createdAt) == ds[i];
      assert m in r[i].messages;
    }
  }

  /** Every message's day has a group. */
  lemma GroupedCovers(msgs: seq<Message>, key: Timestamp -> string)
    ensures var r := Grouped(msgs, key);
            forall m :: m in msgs ==> exists i :: 0 <= i < |r| && r[i].date == key(m.createdAt)
  {
    var ds := FirstDates(msgs, key);
    var r := Grouped(msgs, key);
    GroupedAt(msgs, key);
    FirstDatesCover(msgs, key);
    forall m | m in msgs
      ensures exists i :: 0 <= i < |r| && r[i].date == key(m.createdAt)
    {
      var d := key(m.createdAt);
      assert d in ds;
      var i :| 0 <= i < |ds| && ds[i] == d;
      assert r[i].date == d;
    }
  }

  /** The first message's day is the first group. */
  lemma {:induction false} FirstMessageOpensFirstGroup(msgs: seq<Message>, key: Timestamp -> string)
    requires msgs != []
    ensures Grouped(msgs, key) != [] && Grouped(msgs, key)[0].date == key(msgs[0].createdAt)
  {
    var n := |msgs|;
    var init := msgs[..n - 1];
    assert msgs == init + [msgs[n - 1]];
    FirstDatesSnoc(init, msgs[n - 1], key);
    if n > 1 {
      assert init[0] == msgs[0];
      FirstMessageOpensFirstGroup(init, key);
      GroupedAt(init, key);
      assert FirstDates(init, key)[0] == key(msgs[0].createdAt);
    }
    GroupedAt(msgs, key);
  }

  /** `groups.find(g => g.date === date)`, as an index; `|groups|` when there is none. */
  function IndexOfDate(groups: seq<DateGroup>, date: string): (k: nat)
    ensures k <= |groups|
    ensures k < |groups| ==> groups[k].date == date
    ensures forall j :: 0 <= j < k ==> groups[j].date != date
  {
    if groups == [] then 0
    else if groups[0].date == date then 0
    else
      var k := IndexOfDate(groups[1..], date);
      assert forall j :: 1 <= j < |groups| ==> groups[j] == groups[1..][j - 1];
      k + 1
  }

  /** One `forEach` step: a message is appended to its day's group, or opens a new group at the end. */
  function AddToGroups(groups: seq<DateGroup>, m: Message, key: Timestamp -> string): seq<DateGroup> {
    var d := key(m.createdAt);
    var k := IndexOfDate(groups, d);
    if k < |groups| then groups[k := DateGroup(d, groups[k].messages + [m])] else groups + [DateGroup(d, [m])]
  }

  /** Group `j` after the step: extended when it is the message's day, unchanged otherwise. */
  lemma AddToGroupsAt(groups: seq<DateGroup>, m: Message, key: Timestamp -> string, j: nat)
    requires j < |groups|
    ensures var r := AddToGroups(groups, m, key); var d := key(m.createdAt);
            j < |r| && r[j] == if j == IndexOfDate(groups, d) then DateGroup(d, groups[j].messages + [m]) else groups[j]
  {
  }

  /** A message on a day without a group opens one at the end. */
  lemma AddToGroupsOpens(groups: seq<DateGroup>, m: Message, key: Timestamp -> string)
    requires IndexOfDate(groups, key(m.createdAt)) == |groups|
    ensures AddToGroups(groups, m, key) == groups + [DateGroup(key(m.createdAt), [m])]
  {
  }

  /** The labels of a prefix one longer: a new label is added at the end, a known one changes nothing. */
  lemma FirstDatesSnoc(s: seq<Message>, m: Message, key: Timestamp -> string)
    ensures var ds := FirstDates(s, key); var d := key(m.createdAt);
            FirstDates(s + [m], key) == if d in ds then ds else ds + [d]
  {
    var s' := s + [m];
    assert s'[..|s'| - 1] == s && s'[|s'| - 1] == m;
  }

  /** Labels appear in the order of first messages: a message on a later label has a message on an earlier label before it. */
  lemma {:induction false} FirstDatesOrder(msgs: seq<Message>, key: Timestamp -> string, i: int, j: int, q: int)
    requires 0 <= i < j < |FirstDates(msgs, key)|
    requires 0 <= q < |msgs| && key(msgs[q].createdAt) == FirstDates(msgs, key)[j]
    ensures exists p :: 0 <= p < q && key(msgs[p].createdAt) == FirstDates(msgs, key)[i]
    decreases |msgs|
  {
    var init, last := msgs[..|msgs| - 1], msgs[|msgs| - 1];
    assert msgs == init + [last];
    FirstDatesSnoc(init, last, key);
    var ds, ds0 := FirstDates(msgs, key), FirstDates(init, key);
    assert i < |ds0| && ds[i] == ds0[i];
    if q < |init| {
      assert init[q] == msgs[q];
      FirstDatesHas(init, key, q);
      assert j < |ds0|;
      FirstDatesOrder(init, key, i, j, q);
      var p :| 0 <= p < q && key(init[p].createdAt) == ds0[i];
      assert msgs[p] == init[p];
    } else {
      FirstDatesWitness(init, key, i);
      var p :| 0 <= p < |init| && key(init[p].createdAt) == ds0[i];
      assert msgs[p] == init[p];
    }
  }

  /** The day of message `q` is a label. */
  lemma FirstDatesHas(msgs: seq<Message>, key: Timestamp -> string, q: int)
    requires 0 <= q < |msgs|
    ensures key(msgs[q].createdAt) in FirstDates(msgs, key)
  {
    FirstDatesCover(msgs, key);
    assert msgs[q] in msgs;
  }

  /** Label `i` is the day of some message. */
  lemma FirstDatesWitness(msgs: seq<Message>, key: Timestamp -> string, i: int)
    requires 0 <= i < |FirstDates(msgs, key)|
    ensures exists p :: 0 <= p < |msgs| && key(msgs[p].createdAt) == FirstDates(msgs, key)[i]
  {
    FirstDatesCover(msgs, key);
    var ds := FirstDates(msgs, key);
    assert ds[i] in ds;
    var m :| m in msgs && key(m.createdAt) == ds[i];
    var p :| 0 <= p < |msgs| && msgs[p] == m;
  }

  /** No message of `s` falls on a day that is not among its labels. */
  lemma NoMessagesOnNewDate(s: seq<Message>, key: Timestamp -> string, d: string)
    requires d !in FirstDates(s, key)
    ensures Filter(s, SameDate(key, d)) == []
  {
    FirstDatesCover(s, key);
    forall x | x in s
      ensures !SameDate(key, d)(x)
    {
      assert key(x.createdAt) in FirstDates(s, key);
    }
  }

  /** A label is among those of `s` exactly when `find` locates its group. */
  lemma IndexOfDateFinds(s: seq<Message>, key: Timestamp -> string, d: string)
    ensures var g := Grouped(s, key);
            d in FirstDates(s, key) <==> IndexOfDate(g, d) < |g|
  {
    var ds := FirstDates(s, key);
    var g := Grouped(s, key);
    GroupedAt(s, key);
    if d in ds {
      var i :| 0 <= i < |ds| && ds[i] == d;
      assert g[i].date == d;
    }
  }

  /** Group `i` after the step, compared with group `i` of the step applied to the groups. */
  lemma {:induction false} GroupedSnocAt(s: seq<Message>, m: Message, key: Timestamp -> string, i: nat)
    requires i < |FirstDates(s + [m], key)|
    ensures i < |AddToGroups(Grouped(s, key), m, key)|
    ensures Grouped(s + [m], key)[i] == AddToGroups(Grouped(s, key), m, key)[i]
  {
    FirstDatesSnoc(s, m, key);
    IndexOfDateFinds(s, key, key(m.createdAt));
    GroupedAt(s, key);
    GroupedAt(s + [m], key);
    if i < |FirstDates(s, key)| {
      GroupedSnocKnownDay(s, m, key, i);
    } else {
      GroupedSnocNewDay(s, m, key);
    }
  }

  /** A group that existed before the step: it gains `m` exactly when `m` falls on its day. */
  lemma {:induction false} GroupedSnocKnownDay(s: seq<Message>, m: Message, key: Timestamp -> string, i: nat)
    requires i < |FirstDates(s, key)|
    ensures i < |Grouped(s + [m], key)| && i < |AddToGroups(Grouped(s, key), m, key)|
    ensures Grouped(s + [m], key)[i] == AddToGroups(Grouped(s, key), m, key)[i]
  {
    var d := key(m.createdAt);
    var e := FirstDates(s, key)[i];
    var g := Grouped(s, key);
    FirstDatesSnoc(s, m, key);
    GroupedIndex(s, key, i);
    GroupedIndex(s + [m], key, i);
    FilterSnoc(s, m, SameDate(key, e));
    AddToGroupsAt(g, m, key, i);
    if e == d {
      var k := IndexOfDate(g, d);
      assert k == i by {
        GroupedAt(s, key);
      }
    }
  }

  /** The group the step opens: `m` alone, on a day no earlier message had. */
  lemma {:induction false} GroupedSnocNewDay(s: seq<Message>, m: Message, key: Timestamp -> string)
    requires key(m.createdAt) !in FirstDates(s, key)
    ensures var n := |FirstDates(s, key)|;
            n < |Grouped(s + [m], key)| && n < |AddToGroups(Grouped(s, key), m, key)| &&
            Grouped(s + [m], key)[n] == AddToGroups(Grouped(s, key), m, key)[n]
  {
    var d := key(m.createdAt);
    var n := |FirstDates(s, key)|;
    var g := Grouped(s, key);
    FirstDatesSnoc(s, m, key);
    IndexOfDateFinds(s, key, d);
    AddToGroupsOpens(g, m, key);
    GroupedIndex(s + [m], key, n);
    FilterSnoc(s, m, SameDate(key, d));
    NoMessagesOnNewDate(s, key, d);
  }

  /** The `forEach` step takes the grouping of a prefix to the grouping of the prefix one longer. */
  lemma {:induction false} GroupedSnoc(s: seq<Message>, m: Message, key: Timestamp -> string)
    ensures Grouped(s + [m], key) == AddToGroups(Grouped(s, key), m, key)
  {
    var g' := Grouped(s + [m], key);
    var want := AddToGroups(Grouped(s, key), m, key);
    FirstDatesSnoc(s, m, key);
    IndexOfDateFinds(s, key, key(m.createdAt));
    GroupedAt(s, key);
    GroupedAt(s + [m], key);
    assert |g'| == |want|;
    forall i | 0 <= i < |g'|
      ensures g'[i] == want[i]
    {
      GroupedSnocAt(s, m, key, i);
    }
  }

  /** The empty prefix has no groups. */
  lemma GroupedPrefixStart(msgs: seq<Message>, key: Timestamp -> string)
    ensures Grouped(msgs[..0], key) == []
  {
    assert msgs[..0] == [];
  }

  /** The whole list is its longest prefix. */
  lemma GroupedPrefixEnd(msgs: seq<Message>, key: Timestamp -> string)
    ensures Grouped(msgs[..|msgs|], key) == Grouped(msgs, key)
  {
    assert msgs[..|msgs|] == msgs;
  }

  /** The messages of all groups together, counted with multiplicity. */
  function AllMessages(groups: seq<DateGroup>): multiset<Message> {
    if groups == [] then multiset{}
    else AllMessages(groups[..|groups| - 1]) + multiset(groups[|groups| - 1].messages)
  }

  /** Replacing one group replaces its messages in the union. */
  lemma {:induction false} AllMessagesUpdate(groups: seq<DateGroup>, k: nat, g: DateGroup)
    requires k < |groups|
    ensures AllMessages(groups[k := g]) + multiset(groups[k].messages) == AllMessages(groups) + multiset(g.messages)
  {
    var n := |groups|;
    var u := groups[k := g];
    var lhs := AllMessages(u) + multiset(groups[k].messages);
    var rhs := AllMessages(groups) + multiset(g.messages);
    assert AllMessages(groups) == AllMessages(groups[..n - 1]) + multiset(groups[n - 1].messages);
    if k == n - 1 {
      assert u[..n - 1] == groups[..n - 1];
      assert AllMessages(u) == AllMessages(groups[..n - 1]) + multiset(g.messages);
      forall o
        ensures lhs[o] == rhs[o]
      {
      }
    } else {
      assert u[..n - 1] == groups[..n - 1][k := g] && u[n - 1] == groups[n - 1] && groups[..n - 1][k] == groups[k];
      AllMessagesUpdate(groups[..n - 1], k, g);
      assert AllMessages(u) == AllMessages(u[..n - 1]) + multiset(groups[n - 1].messages);
      forall o
        ensures lhs[o] == rhs[o]
      {
        assert (AllMessages(u[..n - 1]) + multiset(groups[k].messages))[o] ==
               (AllMessages(groups[..n - 1]) + multiset(g.messages))[o];
      }
    }
    assert lhs == rhs;
  }

  /** One `forEach` step adds exactly the message it handles to the union of the groups. */
  lemma {:induction false} AddToGroupsKeepsMessages(groups: seq<DateGroup>, m: Message, key: Timestamp -> string)
    ensures AllMessages(AddToGroups(groups, m, key)) == AllMessages(groups) + multiset{m}
  {
    var d := key(m.createdAt);
    var k := IndexOfDate(groups, d);
    var after := AddToGroups(groups, m, key);
    if k < |groups| {
      var earlier := groups[k].messages;
      AllMessagesUpdate(groups, k, DateGroup(d, earlier + [m]));
      assert multiset(earlier + [m]) == multiset(earlier) + multiset{m};
      forall o
        ensures AllMessages(after)[o] == (AllMessages(groups) + multiset{m})[o]
      {
        assert (AllMessages(after) + multiset(earlier))[o] == (AllMessages(groups) + multiset(earlier + [m]))[o];
      }
    } else {
      assert after[..|groups|] == groups;
    }
  }

  /**
   * No message is lost or duplicated by the grouping: the groups together hold exactly the
   * conversation's messages, each as often as it occurs there.
   */
  lemma {:induction false} GroupedIsPermutation(msgs: seq<Message>, key: Timestamp -> string)
    ensures AllMessages(Grouped(msgs, key)) == multiset(msgs)
    decreases |msgs|
  {
    if msgs == [] {
      assert Grouped(msgs, key) == [];
    } else {
      var s := msgs[..|msgs| - 1];
      var m := msgs[|msgs| - 1];
      assert msgs == s + [m];
      GroupedIsPermutation(s, key);
      GroupedSnoc(s, m, key);
      AddToGroupsKeepsMessages(Grouped(s, key), m, key);
    }
  }

  /** The groups after the loop has handled the first `n` messages. */
  function GroupsAfter(msgs: seq<Message>, n: nat, key: Timestamp -> string): seq<DateGroup>
    requires n <= |msgs|
  {
    if n == 0 then [] else AddToGroups(GroupsAfter(msgs, n - 1, key), msgs[n - 1], key)
  }

  /** One more step of the loop extends the grouping by the next message. */
  lemma GroupsAfterStep(msgs: seq<Message>, n: nat, key: Timestamp -> string)
    requires 0 < n <= |msgs| && GroupsAfter(msgs, n - 1, key) == Grouped(msgs[..n - 1], key)
    ensures GroupsAfter(msgs, n, key) == Grouped(msgs[..n], key)
  {
    PrefixSnoc(msgs, n);
    GroupedSnoc(msgs[..n - 1], msgs[n - 1], key);
  }

  /** After `n` steps the loop holds the grouping of the first `n` messages. */
  lemma {:induction false} GroupsAfterIsGrouped(msgs: seq<Message>, n: nat, key: Timestamp -> string)
    requires n <= |msgs|
    ensures GroupsAfter(msgs, n, key) == Grouped(msgs[..n], key)
  {
    if n == 0 {
      GroupedPrefixStart(msgs, key);
    } else {
      GroupsAfterIsGrouped(msgs, n - 1, key);
      GroupsAfterStep(msgs, n, key);
    }
  }

  /** `groupedMessages`: the `forEach` over the active conversation's messages. */
  method GroupByDate(msgs: seq<Message>, key: Timestamp -> string) returns (groups: seq<DateGroup>)
    ensures groups == Grouped(msgs, key)
  {
    groups := [];
    var i := 0;
    while i < |msgs|
      invariant 0 <= i <= |msgs|
      invariant groups == GroupsAfter(msgs, i, key)
    {
      var msg := msgs[i];
      var date := key(msg.createdAt);
      var k := IndexOfDate(groups, date);
      if k < |groups| {
        groups := groups[k := DateGroup(date, groups[k].messages + [msg])];
      } else {
        groups := groups + [DateGroup(date, [msg])];
      }
      i := i + 1;
    }
    GroupsAfterIsGrouped(msgs, |msgs|, key);
    GroupedPrefixEnd(msgs, key);
  }

  /**
   * `handleSendMessage(content)`: a text message to the active conversation, or nothing at all
   * when no id is active.
   */
  method HandleSendMessage(store: ChatStore.Store, content: string, response: Result<Message>, now: Timestamp)
    returns (request: Option<ChatStore.SendRequest>)
    modifies store
    ensures !Truthy(old(store.activeConversationId)) ==>
              request.None? && store.conversations == old(store.conversations) && store.messages == old(store.messages)
    ensures Truthy(old(store.activeConversationId)) ==>
              ChatStore.SendStep(old(store.conversations), old(store.messages), store.conversations, store.messages,
                                 old(store.activeConversationId).value, content, Text, None, response, now, request)
    ensures request.Some? ==>
              Truthy(old(store.activeConversationId)) &&
              request.value.conversationId == old(store.activeConversationId).value &&
              request.value.content == content && request.value.kind == Text && request.value.imageUrl.None?
    ensures request.Some? && response.Ok? ==>
              var cid := old(store.activeConversationId).value;
              MessagesOf(store.messages, cid) == MessagesOf(old(store.messages), cid) + [response.value]
    ensures store.activeConversationId == old(store.activeConversationId)
    ensures store.isTyping == old(store.isTyping) && store.isLoading == old(store.isLoading)
  {
    request := None;
    if Truthy(store.activeConversationId) {
      var outcome;
      request, outcome := store.SendMessage(store.activeConversationId.value, content, Text, None, response, now);
    }
  }
}
