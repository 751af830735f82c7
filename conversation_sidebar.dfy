/**
 * The conversation list shown in the sidebar: drop conversations without participants, keep
 * those with a participant whose name contains the search text (ASCII case-insensitively),
 * apply the tab, then sort most recently updated first. The sort runs in place on the fresh
 * array the filters produce.
 */
module ConversationSidebar {
  import opened ChatTypes
  import opened Seqs

  datatype FilterTab = All | Unread | Groups

  /** `toLowerCase` restricted to ASCII letters. */
  function LowerChar(ch: char): char {
    if 'A' <= ch <= 'Z' then (ch as int + 32) as char else ch
  }

  function Lower(s: string): (r: string)
    ensures |r| == |s| && forall i :: 0 <= i < |s| ==> r[i] == LowerChar(s[i])
  {
    seq(|s|, i requires 0 <= i < |s| => LowerChar(s[i]))
  }

  /** `query` occurs in `text` starting at index `i`. */
  predicate OccursAt(text: string, query: string, i: int) {
    0 <= i && i + |query| <= |text| && text[i..i + |query|] == query
  }

  /** `text.includes(query)` */
  predicate Contains(text: string, query: string) {
    exists i :: 0 <= i <= |text| && OccursAt(text, query, i)
  }

  predicate HasParticipants(c: Conversation) {
    |c.participants| > 0
  }

  /** Some participant's lower-cased name contains the lower-cased query. */
  predicate MatchesQuery(c: Conversation, query: string) {
    exists p :: p in c.participants && Contains(Lower(p.name), Lower(query))
  }

  predicate HasUnread(c: Conversation) {
    UnreadOrZero(c) > 0
  }

  /**
   * The filters of the pipeline, before the sort. The result is a sub-multiset of `convs`;
   * for the All and Unread tabs it holds exactly the conversations that pass every filter,
   * and for the Groups tab it is empty.
   */
  function PassingFilters(convs: seq<Conversation>, query: string, tab: FilterTab): (r: seq<Conversation>)
    ensures multiset(r) <= multiset(convs)
    ensures forall c :: c in r ==> HasParticipants(c)
    ensures query != "" ==> forall c :: c in r ==> MatchesQuery(c, query)
    ensures tab == Unread ==> forall c :: c in r ==> HasUnread(c)
    ensures tab == Groups ==> r == []
    ensures tab != Groups ==>
              forall c :: (c in convs && HasParticipants(c) && (query == "" || MatchesQuery(c, query)) &&
                           (tab == Unread ==> HasUnread(c))) ==> c in r
  {
    var withPeople := Filter(convs, HasParticipants);
    var searched := if query != "" then Filter(withPeople, c => MatchesQuery(c, query)) else withPeople;
    match tab
    case All => searched
    case Unread => Filter(searched, HasUnread)
    case Groups => []
  }

  /** Most recently updated first: `updatedAt` never increases along the list. */
  predicate SortedByRecency(s: seq<Conversation>) {
    forall i, j :: 0 <= i < j < |s| ==> s[i].updatedAt >= s[j].updatedAt
  }

  /** Keeps the conversations updated at time `t`. */
  function UpdatedAtIs(t: int): Conversation -> bool {
    (c: Conversation) => c.updatedAt == t
  }

  /** Stability: conversations with equal `updatedAt` appear in `s` in the order they have in `s0`. */
  ghost predicate SameOrderPerTime(s: seq<Conversation>, s0: seq<Conversation>) {
    forall t :: Filter(s, UpdatedAtIs(t)) == Filter(s0, UpdatedAtIs(t))
  }

  /** Swapping two neighbours with different `updatedAt` changes no tie's order. */
  lemma SwapKeepsTies(s: seq<Conversation>, j: int)
    requires 0 < j < |s| && s[j - 1].updatedAt != s[j].updatedAt
    ensures SameOrderPerTime(s[j - 1 := s[j]][j := s[j - 1]], s)
  {
    var t := s[j - 1 := s[j]][j := s[j - 1]];
    assert t == s[..j - 1] + [s[j], s[j - 1]] + s[j + 1..];
    assert s == s[..j - 1] + [s[j - 1], s[j]] + s[j + 1..];
    forall time
      ensures Filter(t, UpdatedAtIs(time)) == Filter(s, UpdatedAtIs(time))
    {
      FilterSwapNeighbours(s[..j - 1], s[j - 1], s[j], s[j + 1..], UpdatedAtIs(time));
    }
  }

  lemma SameOrderTrans(s: seq<Conversation>, s1: seq<Conversation>, s0: seq<Conversation>)
    requires SameOrderPerTime(s, s1) && SameOrderPerTime(s1, s0)
    ensures SameOrderPerTime(s, s0)
  {
  }

  /** While entry `j` moves left: every pair up to `i` not involving `j` is in order. */
  predicate SortedExcept(s: seq<Conversation>, i: int, j: int)
    requires 0 <= j <= i < |s|
  {
    forall k, l :: 0 <= k < l <= i && k != j && l != j ==> s[k].updatedAt >= s[l].updatedAt
  }

  /** The moving entry is newer than every entry it has passed. */
  predicate NewerThanPassed(s: seq<Conversation>, i: int, j: int)
    requires 0 <= j <= i < |s|
  {
    forall l :: j < l <= i ==> s[j].updatedAt > s[l].updatedAt
  }

  /**
   * The state of the insertion loop for entry `i`, now at `j`, measured against the array `s0`
   * the pass started from.
   */
  ghost predicate Inserting(s: seq<Conversation>, s0: seq<Conversation>, i: int, j: int) {
    0 <= j <= i < |s| && SortedExcept(s, i, j) && NewerThanPassed(s, i, j) &&
    multiset(s) == multiset(s0) && SameOrderPerTime(s, s0)
  }

  /** Starting to insert entry `i` into a sorted prefix. */
  lemma InsertStart(s: seq<Conversation>, i: int)
    requires 0 <= i < |s| && SortedByRecency(s[..i])
    ensures Inserting(s, s, i, i)
  {
    forall k, l | 0 <= k < l <= i && k != i && l != i
      ensures s[k].updatedAt >= s[l].updatedAt
    {
      assert s[k] == s[..i][k] && s[l] == s[..i][l];
    }
  }

  /** Swapping the moving entry with a strictly older left neighbour keeps both facts. */
  lemma InsertSwap(s: seq<Conversation>, i: int, j: int)
    requires 0 < j <= i < |s| && SortedExcept(s, i, j) && NewerThanPassed(s, i, j)
    requires s[j - 1].updatedAt < s[j].updatedAt
    ensures var t := s[j - 1 := s[j]][j := s[j - 1]];
            SortedExcept(t, i, j - 1) && NewerThanPassed(t, i, j - 1) && multiset(t) == multiset(s)
  {
    var t := s[j - 1 := s[j]][j := s[j - 1]];
    forall k, l | 0 <= k < l <= i && k != j - 1 && l != j - 1
      ensures t[k].updatedAt >= t[l].updatedAt
    {
      if l == j {
        assert t[l] == s[j - 1];
        if k < j - 1 {
          assert s[k].updatedAt >= s[j - 1].updatedAt;
        }
      } else if k == j {
        assert t[k] == s[j - 1] && t[l] == s[l];
        assert s[j - 1].updatedAt < s[j].updatedAt && s[j].updatedAt > s[l].updatedAt;
        assert s[j - 1].updatedAt >= s[l].updatedAt;
      }
    }
    forall l | j - 1 < l <= i
      ensures t[j - 1].updatedAt > t[l].updatedAt
    {
    }
    SwapNeighbours(s, j);
  }

  /** One swap of the insertion loop keeps its state. */
  lemma InsertStep(s: seq<Conversation>, s0: seq<Conversation>, i: int, j: int)
    requires Inserting(s, s0, i, j) && 0 < j && s[j - 1].updatedAt < s[j].updatedAt
    ensures Inserting(s[j - 1 := s[j]][j := s[j - 1]], s0, i, j - 1)
  {
    var t := s[j - 1 := s[j]][j := s[j - 1]];
    InsertSwap(s, i, j);
    SwapKeepsTies(s, j);
    SameOrderTrans(t, s, s0);
  }

  /** Swapping two neighbours keeps the multiset. */
  lemma SwapNeighbours<T>(s: seq<T>, j: int)
    requires 0 < j < |s|
    ensures multiset(s[j - 1 := s[j]][j := s[j - 1]]) == multiset(s)
  {
    var t := s[j - 1 := s[j]][j := s[j - 1]];
    assert t == s[..j - 1] + [s[j], s[j - 1]] + s[j + 1..];
    assert s == s[..j - 1] + [s[j - 1], s[j]] + s[j + 1..];
  }

  /** The moving entry has stopped: the prefix up to `i` is sorted. */
  lemma InsertDone(s: seq<Conversation>, i: int, j: int)
    requires 0 <= j <= i < |s| && SortedExcept(s, i, j) && NewerThanPassed(s, i, j)
    requires j == 0 || s[j - 1].updatedAt >= s[j].updatedAt
    ensures SortedByRecency(s[..i + 1])
  {
    forall k, l | 0 <= k < l < i + 1
      ensures s[k].updatedAt >= s[l].updatedAt
    {
      if l == j {
        assert s[k].updatedAt >= s[j - 1].updatedAt || k == j - 1;
      }
    }
  }

  /**
   * `filtered.sort((a, b) => b.updatedAt - a.updatedAt)` on the array the filters produced:
   * an insertion sort that moves an entry left only past strictly older ones, so it is stable
   * like `Array.prototype.sort`.
   */
  method SortByRecency(a: array<Conversation>)
    modifies a
    ensures SortedByRecency(a[..])
    ensures multiset(a[..]) == multiset(old(a[..]))
    ensures SameOrderPerTime(a[..], old(a[..]))
  {
    var i := 0;
    while i < a.Length
      invariant 0 <= i <= a.Length
      invariant SortedByRecency(a[..i])
      invariant multiset(a[..]) == multiset(old(a[..]))
      invariant SameOrderPerTime(a[..], old(a[..]))
    {
      InsertEntry(a, i);
      i := i + 1;
    }
    assert a[..a.Length] == a[..];
  }

  /** One pass of the sort: entry `i` moves left into the sorted prefix before it. */
  method InsertEntry(a: array<Conversation>, i: int)
    requires 0 <= i < a.Length && SortedByRecency(a[..i])
    modifies a
    ensures SortedByRecency(a[..i + 1])
    ensures multiset(a[..]) == multiset(old(a[..]))
    ensures SameOrderPerTime(a[..], old(a[..]))
  {
    ghost var start := a[..];
    InsertStart(start, i);
    var j := i;
    while j > 0 && a[j - 1].updatedAt < a[j].updatedAt
      invariant Inserting(a[..], start, i, j)
    {
      InsertStep(a[..], start, i, j);
      SwapLeft(a, j);
      j := j - 1;
    }
    InsertDone(a[..], i, j);
  }

  /** Exchanges entry `j` with its left neighbour. */
  method SwapLeft(a: array<Conversation>, j: int)
    requires 0 < j < a.Length
    modifies a
    ensures a[..] == old(a[..])[j - 1 := old(a[j])][j := old(a[j - 1])]
  {
    a[j - 1], a[j] := a[j], a[j - 1];
  }

  /**
   * `filteredConversations`: a permutation of the conversations that pass every filter,
   * most recently updated first, conversations updated at the same time in filter order.
   */
  method FilteredConversations(convs: seq<Conversation>, query: string, tab: FilterTab) returns (r: seq<Conversation>)
    ensures multiset(r) == multiset(PassingFilters(convs, query, tab))
    ensures SortedByRecency(r)
    ensures SameOrderPerTime(r, PassingFilters(convs, query, tab))
    ensures multiset(r) <= multiset(convs)
    ensures tab == Groups ==> r == []
  {
    var filtered := PassingFilters(convs, query, tab);
    r := SortedCopy(filtered);
    SameMultiset(r, filtered, convs);
  }

  /** Copies `s` into a fresh array, sorts it there and returns the contents. */
  method SortedCopy(s: seq<Conversation>) returns (r: seq<Conversation>)
    ensures SortedByRecency(r)
    ensures multiset(r) == multiset(s)
    ensures SameOrderPerTime(r, s)
  {
    var a := new Conversation[|s|](i requires 0 <= i < |s| => s[i]);
    assert a[..] == s;
    SortByRecency(a);
    r := a[..];
  }

  /** A reordering of a sub-multiset is one too, and a reordering of nothing is nothing. */
  lemma SameMultiset<T>(r: seq<T>, s: seq<T>, whole: seq<T>)
    requires multiset(r) == multiset(s) && multiset(s) <= multiset(whole)
    ensures multiset(r) <= multiset(whole)
    ensures s == [] ==> r == []
  {
    if s == [] {
      assert |multiset(r)| == 0;
    }
  }

  /**
   * The participant a row shows: the first whose id differs from the signed-in user's
   * (`p._id !== currentUser?.id`; with nobody signed in that is the first participant).
   */
  function OtherParticipant(ps: seq<Participant>, me: Option<Id>): (r: Option<Participant>)
    ensures r.None? <==> forall j :: 0 <= j < |ps| ==> me.Some? && ps[j].id == me.value
    ensures r.Some? ==> exists j :: 0 <= j < |ps| && ps[j] == r.value && (me.None? || ps[j].id != me.value) &&
                                    forall k :: 0 <= k < j ==> me.Some? && ps[k].id == me.value
  {
    OtherFrom(ps, me, 0)
  }

  /** The search of `OtherParticipant`, from index `k` on. */
  function OtherFrom(ps: seq<Participant>, me: Option<Id>, k: nat): (r: Option<Participant>)
    requires k <= |ps|
    ensures r.None? <==> forall j :: k <= j < |ps| ==> me.Some? && ps[j].id == me.value
    ensures r.Some? ==> exists j :: k <= j < |ps| && ps[j] == r.value && (me.None? || ps[j].id != me.value) &&
                                    forall l :: k <= l < j ==> me.Some? && ps[l].id == me.value
    decreases |ps| - k
  {
    if k == |ps| then None
    else if me.None? || ps[k].id != me.value then Some(ps[k])
    else OtherFrom(ps, me, k + 1)
  }

  /** What one sidebar row shows: the other participant's name and presence, and the unread badge. */
  datatype Row = Row(id: Id, name: string, online: Option<bool>, unreadBadge: int, active: bool)

  function RowOf(c: Conversation, me: Option<Id>, activeId: Option<Id>): (r: Row)
    ensures r.id == c.id
    ensures r.unreadBadge == UnreadOrZero(c)
    ensures var o := OtherParticipant(c.participants, me);
            r.name == (if o.Some? && o.value.name != "" then o.value.name else "Unknown") &&
            r.online == (if o.Some? then Some(o.value.isOnline) else None)
    ensures r.active <==> activeId == Some(c.id)
  {
    var other := OtherParticipant(c.participants, me);
    Row(c.id,
        if other.Some? && other.value.name != "" then other.value.name else "Unknown",
        if other.Some? then Some(other.value.isOnline) else None,
        UnreadOrZero(c),
        activeId == Some(c.id))
  }
}
