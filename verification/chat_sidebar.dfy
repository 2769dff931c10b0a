/**
 * The sidebar's list of chats: a copy of the chats sorted by `updatedAt`,
 * most recent first, with equal stamps kept in their original order (the
 * sort is stable), each entry highlighted when it is the selected chat, and
 * a placeholder instead of entries when there are no chats.
 *
 * The sort runs on a spread copy, so the caller's list is never reordered;
 * here every list is a value, and `SortedChats` returns a new one.
 */
module ChatSidebar {
  import opened Types

  /** Non-increasing `updatedAt`: every chat is at least as recent as the ones after it. */
  ghost predicate NewestFirst(s: seq<Chat>) {
    forall i, j :: 0 <= i < j < |s| ==> s[i].updatedAt >= s[j].updatedAt
  }

  /** The chats of `s` whose `updatedAt` is `t`, in the order `s` has them. */
  function StampedAt(s: seq<Chat>, t: Time): seq<Chat> {
    if s == [] then []
    else (if s[0].updatedAt == t then [s[0]] else []) + StampedAt(s[1..], t)
  }

  /**
   * Puts `c` in front of the first chat that is not strictly more recent.
   * The comparator `b - a` is negative, zero or positive, so `c` overtakes
   * exactly the chats that are strictly older and no chat stamped the same.
   */
  function Insert(c: Chat, sorted: seq<Chat>): (r: seq<Chat>)
    ensures |r| == |sorted| + 1
  {
    if sorted == [] || c.updatedAt >= sorted[0].updatedAt then [c] + sorted
    else [sorted[0]] + Insert(c, sorted[1..])
  }

  /** Inserting adds exactly the one chat. */
  lemma {:induction false} InsertPermutes(c: Chat, sorted: seq<Chat>)
    ensures multiset(Insert(c, sorted)) == multiset(sorted) + multiset{c}
    ensures |Insert(c, sorted)| == |sorted| + 1
  {
    if sorted != [] && c.updatedAt < sorted[0].updatedAt {
      InsertPermutes(c, sorted[1..]);
      assert sorted == [sorted[0]] + sorted[1..];
    }
  }

  /** Every chat of `Insert(c, s)` is no newer than a bound that `c` and all of `s` respect. */
  lemma {:induction false} InsertBounded(c: Chat, s: seq<Chat>, bound: Time)
    requires c.updatedAt <= bound
    requires forall j :: 0 <= j < |s| ==> s[j].updatedAt <= bound
    ensures forall j :: 0 <= j < |Insert(c, s)| ==> Insert(c, s)[j].updatedAt <= bound
  {
    if s != [] && c.updatedAt < s[0].updatedAt {
      InsertBounded(c, s[1..], bound);
    }
  }

  /** Inserting into a newest-first list keeps it newest-first. */
  lemma {:induction false} InsertKeepsOrder(c: Chat, sorted: seq<Chat>)
    requires NewestFirst(sorted)
    ensures NewestFirst(Insert(c, sorted))
  {
    if sorted == [] || c.updatedAt >= sorted[0].updatedAt {
      NewestFirstCons(c, sorted);
    } else {
      var rest := Insert(c, sorted[1..]);
      assert NewestFirst(sorted[1..]);
      InsertKeepsOrder(c, sorted[1..]);
      InsertBounded(c, sorted[1..], sorted[0].updatedAt);
      NewestFirstCons(sorted[0], rest);
    }
  }

  /** A chat at least as recent as every chat of a newest-first list can go in front of it. */
  lemma NewestFirstCons(x: Chat, s: seq<Chat>)
    requires NewestFirst(s)
    requires forall j :: 0 <= j < |s| ==> s[j].updatedAt <= x.updatedAt
    ensures NewestFirst([x] + s)
  {
  }

  /** `[...chats].sort((a, b) => b.updatedAt - a.updatedAt)`: a stable sort, newest first. */
  function SortedChats(chats: seq<Chat>): (r: seq<Chat>)
    ensures multiset(r) == multiset(chats)
    ensures |r| == |chats|
    ensures NewestFirst(r)
  {
    if chats == [] then []
    else
      var rest := SortedChats(chats[1..]);
      InsertPermutes(chats[0], rest);
      InsertKeepsOrder(chats[0], rest);
      assert chats == [chats[0]] + chats[1..];
      Insert(chats[0], rest)
  }

  /** `c` goes in front of the chats stamped like it, and those keep their order. */
  lemma {:induction false} StampedAtInsert(c: Chat, sorted: seq<Chat>, t: Time)
    ensures StampedAt(Insert(c, sorted), t) == (if c.updatedAt == t then [c] else []) + StampedAt(sorted, t)
  {
    if sorted == [] || c.updatedAt >= sorted[0].updatedAt {
      StampedAtCons(c, sorted, t);
    } else {
      var rest := Insert(c, sorted[1..]);
      StampedAtInsert(c, sorted[1..], t);
      StampedAtCons(sorted[0], rest, t);
      StampedAtCons(sorted[0], sorted[1..], t);
      assert sorted == [sorted[0]] + sorted[1..];
    }
  }

  lemma StampedAtCons(x: Chat, s: seq<Chat>, t: Time)
    ensures StampedAt([x] + s, t) == (if x.updatedAt == t then [x] else []) + StampedAt(s, t)
  {
  }

  /** Stability: the chats sharing any one `updatedAt` come out in their input order. */
  lemma {:induction false} SortIsStable(chats: seq<Chat>, t: Time)
    ensures StampedAt(SortedChats(chats), t) == StampedAt(chats, t)
  {
    if chats != [] {
      SortIsStable(chats[1..], t);
      StampedAtInsert(chats[0], SortedChats(chats[1..]), t);
    }
  }

  /** A chat strictly more recent than every other one is listed first. */
  lemma NewestChatListedFirst(chats: seq<Chat>, k: nat)
    requires k < |chats|
    requires forall i :: 0 <= i < |chats| && i != k ==> chats[i].updatedAt < chats[k].updatedAt
    ensures SortedChats(chats)[0] == chats[k]
  {
    var r := SortedChats(chats);
    assert chats[k] in multiset(r);
    var j :| 0 <= j < |r| && r[j] == chats[k];
    assert r[0] in multiset(chats);
    var m :| 0 <= m < |chats| && chats[m] == r[0];
    assert r[0].updatedAt >= r[j].updatedAt;
  }

  /** `currentChatId === chat.id`: only a selected id equal to the chat's own highlights it. */
  predicate IsHighlighted(c: Chat, currentChatId: Option<string>): (h: bool)
    ensures currentChatId == None ==> !h
    ensures h <==> currentChatId.Some? && currentChatId.value == c.id
  {
    currentChatId == Some(c.id)
  }

  /** What one sidebar button shows: the title, the message count, the date and the highlight. */
  datatype Entry = Entry(chatId: string, title: string, messageCount: nat, updatedAt: Time, highlighted: bool)

  /** The list area: the "No chats yet" placeholder, or one entry per chat. */
  datatype SidebarView = Placeholder | Entries(entries: seq<Entry>)

  /** The button drawn for `c`. */
  function EntryOf(c: Chat, currentChatId: Option<string>): (e: Entry)
    ensures e.chatId == c.id && e.title == c.title && e.updatedAt == c.updatedAt
    ensures e.messageCount == |c.messages|
    ensures e.highlighted <==> currentChatId == Some(c.id)
  {
    Entry(c.id, c.title, |c.messages|, c.updatedAt, IsHighlighted(c, currentChatId))
  }

  /** The sidebar's list area for `chats` while `currentChatId` is selected. */
  function View(chats: seq<Chat>, currentChatId: Option<string>): (v: SidebarView)
    ensures v.Placeholder? <==> chats == []
    ensures v.Entries? ==> |v.entries| == |chats|
    ensures v.Entries? ==> forall i :: 0 <= i < |chats| ==>
      var c := SortedChats(chats)[i];
      && v.entries[i].chatId == c.id
      && v.entries[i].title == c.title
      && v.entries[i].messageCount == |c.messages|
      && v.entries[i].updatedAt == c.updatedAt
      && (v.entries[i].highlighted <==> currentChatId == Some(c.id))
  {
    var sorted := SortedChats(chats);
    if |sorted| > 0 then Entries(seq(|sorted|, i requires 0 <= i < |sorted| => EntryOf(sorted[i], currentChatId)))
    else Placeholder
  }

  /** How many chats of `s` the selection highlights. */
  function CountSelected(s: seq<Chat>, currentChatId: Option<string>): nat {
    if s == [] then 0
    else (if IsHighlighted(s[0], currentChatId) then 1 else 0) + CountSelected(s[1..], currentChatId)
  }

  /** How many entries are drawn highlighted. */
  function CountHighlighted(es: seq<Entry>): nat {
    if es == [] then 0 else (if es[0].highlighted then 1 else 0) + CountHighlighted(es[1..])
  }

  lemma {:induction false} CountSelectedInsert(c: Chat, sorted: seq<Chat>, currentChatId: Option<string>)
    ensures CountSelected(Insert(c, sorted), currentChatId)
         == (if IsHighlighted(c, currentChatId) then 1 else 0) + CountSelected(sorted, currentChatId)
  {
    if sorted == [] || c.updatedAt >= sorted[0].updatedAt {
      assert ([c] + sorted)[1..] == sorted;
    } else {
      var rest := Insert(c, sorted[1..]);
      CountSelectedInsert(c, sorted[1..], currentChatId);
      assert ([sorted[0]] + rest)[1..] == rest;
    }
  }

  lemma {:induction false} CountSelectedSorted(chats: seq<Chat>, currentChatId: Option<string>)
    ensures CountSelected(SortedChats(chats), currentChatId) == CountSelected(chats, currentChatId)
  {
    if chats != [] {
      CountSelectedSorted(chats[1..], currentChatId);
      CountSelectedInsert(chats[0], SortedChats(chats[1..]), currentChatId);
    }
  }

  lemma {:induction false} CountHighlightedEntries(s: seq<Chat>, es: seq<Entry>, currentChatId: Option<string>)
    requires |es| == |s|
    requires forall i :: 0 <= i < |s| ==> (es[i].highlighted <==> IsHighlighted(s[i], currentChatId))
    ensures CountHighlighted(es) == CountSelected(s, currentChatId)
  {
    if s != [] {
      CountHighlightedEntries(s[1..], es[1..], currentChatId);
    }
  }

  /** The sidebar draws as many highlighted entries as there are chats with the selected id. */
  lemma HighlightsMatchSelection(chats: seq<Chat>, currentChatId: Option<string>)
    requires chats != []
    ensures View(chats, currentChatId).Entries?
    ensures CountHighlighted(View(chats, currentChatId).entries) == CountSelected(chats, currentChatId)
  {
    var v := View(chats, currentChatId);
    CountHighlightedEntries(SortedChats(chats), v.entries, currentChatId);
    CountSelectedSorted(chats, currentChatId);
  }

  /** No two chats share an id (what fresh uuids give). */
  ghost predicate DistinctIds(s: seq<Chat>) {
    forall i, j :: 0 <= i < j < |s| ==> s[i].id != s[j].id
  }

  /** With distinct ids, a selection highlights one chat if it names one, and none otherwise. */
  lemma {:induction false} SelectionHighlightsOne(s: seq<Chat>, currentChatId: Option<string>)
    requires DistinctIds(s)
    ensures CountSelected(s, currentChatId) == if exists i :: 0 <= i < |s| && currentChatId == Some(s[i].id) then 1 else 0
  {
    if s != [] {
      SelectionHighlightsOne(s[1..], currentChatId);
      if IsHighlighted(s[0], currentChatId) {
        assert forall i :: 0 <= i < |s[1..]| ==> currentChatId != Some(s[1..][i].id);
      } else {
        if exists i :: 0 <= i < |s| && currentChatId == Some(s[i].id) {
          var i :| 0 <= i < |s| && currentChatId == Some(s[i].id);
          assert s[1..][i - 1] == s[i];
        }
      }
    }
  }
}
