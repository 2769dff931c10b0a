/**
 * The chat page's state: the list of chats, the selected chat id and the
 * "reply pending" flag, with the handlers that change them.
 *
 * Each `setChats(prev => ...)` update is a pure function of the previous
 * list (`MapMatching` with a `ChatUpdate`); the page itself is the class
 * `ChatStore`, whose methods are the handlers. Fresh uuids and `new Date()`
 * are parameters. The reply that `setTimeout` delivers 1500 ms after a send
 * is the separate step `DeliverReply`, given the chat id the send captured.
 */
module JusticeBot {
  import opened Types
  import ChatSidebar

  /** The title of a chat that has not been given one by its first message. */
  const NewChatTitle: string := "New Chat"

  /** How many characters of the first message the title keeps. */
  const TitleLength: nat := 30

  /** What follows a title cut short. */
  const TruncationMarker: string := "..."

  /** The canned text of every bot reply. */
  const BotReplyText: string := "Thank you for your question. As a Justice Bot, I'm here to assist with legal information. Please note that my responses are for informational purposes only and should not be considered legal advice. For specific legal concerns, I recommend consulting with a qualified attorney."

  function Min(a: nat, b: nat): nat {
    if a < b then a else b
  }

  /**
   * The title a chat takes from its first message: at most the first 30
   * characters, followed by "..." exactly when something was cut off.
   */
  function DeriveTitle(content: string): (title: string)
    ensures |title| <= TitleLength + |TruncationMarker|
    ensures |content| <= TitleLength ==> title == content
    ensures |content| > TitleLength ==>
      && |title| == TitleLength + |TruncationMarker|
      && title[..TitleLength] == content[..TitleLength]
      && title[TitleLength..] == TruncationMarker
  {
    content[..Min(|content|, TitleLength)] + (if |content| > TitleLength then TruncationMarker else "")
  }

  /** A chat as `handleNewChat` creates it. */
  function FreshChat(id: string, now: Time): (c: Chat)
    ensures c.id == id && c.title == NewChatTitle && c.messages == []
    ensures c.createdAt == now && c.updatedAt == now
    ensures TitleFollowsHistory(c)
  {
    Chat(id, NewChatTitle, [], now, now)
  }

  /** The user's message as `handleSendMessage` builds it: `files` only when some were staged. */
  function UserMessage(id: string, content: string, files: seq<UploadedFile>, now: Time): (m: ChatMessage)
    ensures m.id == id && m.role == User && m.content == content && m.timestamp == now
    ensures m.files.Some? <==> |files| > 0
    ensures m.files.Some? ==> m.files.value == files
  {
    ChatMessage(id, content, User, now, if |files| > 0 then Some(files) else None)
  }

  /** The canned reply the timer delivers. */
  function BotMessage(id: string, now: Time): (m: ChatMessage)
    ensures m.id == id && m.role == Bot && m.content == BotReplyText && m.timestamp == now
    ensures m.files == None
  {
    ChatMessage(id, BotReplyText, Bot, now, None)
  }

  /** The two per-chat updates the page hands to `setChats`: the user's post and the bot's reply. */
  datatype ChatUpdate =
    | PostUser(messageId: string, content: string, files: seq<UploadedFile>, at: Time)
    | PostBot(messageId: string, at: Time)
  {
    /** The message this update appends. */
    function Message(): ChatMessage {
      match this
      case PostUser(id, content, files, at) => UserMessage(id, content, files, at)
      case PostBot(id, at) => BotMessage(id, at)
    }
  }

  /**
   * One chat after an update: the message goes at the end and `updatedAt` is
   * restamped; a user's post on an empty chat also sets the title, and a
   * bot's reply never touches it.
   */
  function ApplyUpdate(u: ChatUpdate, c: Chat): (r: Chat)
    ensures r.id == c.id && r.createdAt == c.createdAt && r.updatedAt == u.at
    ensures r.messages == c.messages + [u.Message()]
    ensures r.title == if u.PostUser? && c.messages == [] then DeriveTitle(u.content) else c.title
  {
    match u
    case PostUser(_, content, _, at) =>
      var isFirstMessage := |c.messages| == 0;
      var newTitle := if isFirstMessage then DeriveTitle(content) else c.title;
      c.(title := newTitle, messages := c.messages + [u.Message()], updatedAt := at)
    case PostBot(_, at) =>
      c.(messages := c.messages + [u.Message()], updatedAt := at)
  }

  /**
   * `prev.map(chat => chat.id === targetId ? update(chat) : chat)`: every
   * chat with that id is updated, every other one is left as it was.
   */
  function MapMatching(chats: seq<Chat>, targetId: string, u: ChatUpdate): (r: seq<Chat>)
    ensures |r| == |chats|
    ensures forall i :: 0 <= i < |chats| ==>
      r[i] == if chats[i].id == targetId then ApplyUpdate(u, chats[i]) else chats[i]
  {
    if chats == [] then []
    else [if chats[0].id == targetId then ApplyUpdate(u, chats[0]) else chats[0]]
         + MapMatching(chats[1..], targetId, u)
  }

  /** When no chat has the target id, the update leaves the list exactly as it was. */
  lemma MapMatchingAbsent(chats: seq<Chat>, targetId: string, u: ChatUpdate)
    requires forall i :: 0 <= i < |chats| ==> chats[i].id != targetId
    ensures MapMatching(chats, targetId, u) == chats
  {
  }

  /**
   * Nothing is removed: the list keeps every chat in its place (same id)
   * and every chat keeps its messages as a prefix.
   */
  ghost predicate Extends(before: seq<Chat>, after: seq<Chat>) {
    && |before| <= |after|
    && forall i :: 0 <= i < |before| ==>
         after[i].id == before[i].id && before[i].messages <= after[i].messages
  }

  /** Two changes that remove nothing together remove nothing. */
  lemma ExtendsTransitive(a: seq<Chat>, b: seq<Chat>, c: seq<Chat>)
    requires Extends(a, b) && Extends(b, c)
    ensures Extends(a, c)
  {
  }

  lemma MapMatchingExtends(chats: seq<Chat>, targetId: string, u: ChatUpdate)
    ensures Extends(chats, MapMatching(chats, targetId, u))
    ensures forall i :: 0 <= i < |chats| && chats[i].id == targetId ==>
      |MapMatching(chats, targetId, u)[i].messages| == |chats[i].messages| + 1
  {
  }

  /**
   * The title a chat must carry given its messages: derived from the first
   * one if a user wrote it, the placeholder otherwise.
   */
  function ExpectedTitle(messages: seq<ChatMessage>): string {
    if |messages| > 0 && messages[0].role == User then DeriveTitle(messages[0].content) else NewChatTitle
  }

  ghost predicate TitleFollowsHistory(c: Chat) {
    c.title == ExpectedTitle(c.messages)
  }

  /** Both updates keep a chat's title consistent with its first message. */
  lemma ApplyUpdateKeepsTitleRule(u: ChatUpdate, c: Chat)
    requires TitleFollowsHistory(c)
    ensures TitleFollowsHistory(ApplyUpdate(u, c))
  {
  }

  /** A chat after a sequence of updates, applied in order. */
  function ApplyAll(c: Chat, us: seq<ChatUpdate>): Chat
    decreases |us|
  {
    if us == [] then c else ApplyAll(ApplyUpdate(us[0], c), us[1..])
  }

  /** The messages a sequence of updates appends, in order. */
  function MessagesOf(us: seq<ChatUpdate>): seq<ChatMessage> {
    if us == [] then [] else [us[0].Message()] + MessagesOf(us[1..])
  }

  lemma {:induction false} ApplyAllAppends(c: Chat, us: seq<ChatUpdate>)
    ensures ApplyAll(c, us).messages == c.messages + MessagesOf(us)
    ensures ApplyAll(c, us).id == c.id && ApplyAll(c, us).createdAt == c.createdAt
    ensures TitleFollowsHistory(c) ==> TitleFollowsHistory(ApplyAll(c, us))
    decreases |us|
  {
    if us != [] {
      var next := ApplyUpdate(us[0], c);
      if TitleFollowsHistory(c) {
        ApplyUpdateKeepsTitleRule(us[0], c);
      }
      ApplyAllAppends(next, us[1..]);
      assert c.messages + MessagesOf(us) == next.messages + MessagesOf(us[1..]);
    }
  }

  /**
   * Whatever updates a new chat goes through, its title is the one derived
   * from the first update's text if that was a user's post, and "New Chat"
   * otherwise; later posts and replies never change it.
   */
  lemma TitleOfNewChat(id: string, now: Time, us: seq<ChatUpdate>)
    ensures ApplyAll(FreshChat(id, now), us).title ==
      if |us| > 0 && us[0].PostUser? then DeriveTitle(us[0].content) else NewChatTitle
    ensures |ApplyAll(FreshChat(id, now), us).messages| == |us|
  {
    ApplyAllAppends(FreshChat(id, now), us);
    assert |MessagesOf(us)| == |us| by {
      MessagesOfLength(us);
    }
  }

  lemma {:induction false} MessagesOfLength(us: seq<ChatUpdate>)
    ensures |MessagesOf(us)| == |us|
    ensures |us| > 0 ==> MessagesOf(us)[0] == us[0].Message()
  {
    if us != [] {
      MessagesOfLength(us[1..]);
    }
  }

  /**
   * The reply lands in the chat the send captured, after that chat's user
   * message, whatever else happened to the list in between (as long as
   * nothing was removed); it restamps the chat and leaves its title alone.
   */
  lemma ReplyFollowsUserMessage(
    chats: seq<Chat>, targetId: string, send: ChatUpdate, between: seq<Chat>, reply: ChatUpdate, i: nat)
    requires send.PostUser? && reply.PostBot?
    requires i < |chats| && chats[i].id == targetId
    requires Extends(MapMatching(chats, targetId, send), between)
    ensures
      var after := MapMatching(between, targetId, reply);
      && |after[i].messages| >= |chats[i].messages| + 2
      && after[i].messages[|chats[i].messages|] == send.Message()
      && after[i].messages[|after[i].messages| - 1] == reply.Message()
      && after[i].messages[|after[i].messages| - 1].role == Bot
      && after[i].updatedAt == reply.at
      && after[i].title == between[i].title
  {
  }

  /**
   * Appending to a chat at a time later than every chat's `updatedAt` puts
   * it at the top of the sidebar, when no other chat shares its id.
   */
  lemma UpdatedChatListedFirst(chats: seq<Chat>, k: nat, u: ChatUpdate)
    requires k < |chats|
    requires forall i :: 0 <= i < |chats| && i != k ==> chats[i].id != chats[k].id
    requires forall i :: 0 <= i < |chats| ==> chats[i].updatedAt < u.at
    ensures ChatSidebar.SortedChats(MapMatching(chats, chats[k].id, u))[0].id == chats[k].id
  {
    var r := MapMatching(chats, chats[k].id, u);
    ChatSidebar.NewestChatListedFirst(r, k);
  }

  /** The first chat whose id equals the selection (`chats.find`), or `|chats|` when there is none. */
  function FindIndex(chats: seq<Chat>, currentChatId: Option<string>): (k: nat)
    ensures k <= |chats|
    ensures forall j :: 0 <= j < k ==> currentChatId != Some(chats[j].id)
    ensures k < |chats| ==> currentChatId == Some(chats[k].id)
  {
    if chats == [] then 0
    else if currentChatId == Some(chats[0].id) then 0
    else 1 + FindIndex(chats[1..], currentChatId)
  }

  /** JS truthiness of `currentChatId`: null and the empty string both mean "no chat". */
  predicate HasSelection(currentChatId: Option<string>): (selected: bool)
    ensures currentChatId == None ==> !selected
    ensures currentChatId == Some("") ==> !selected
    ensures selected <==> currentChatId.Some? && |currentChatId.value| > 0
  {
    currentChatId.Some? && currentChatId.value != ""
  }

  /** The page's state and handlers. */
  class ChatStore {
    var chats: seq<Chat>
    var currentChatId: Option<string>
    var isLoading: bool

    /** Every chat's title agrees with its first message. */
    ghost predicate Valid()
      reads this
    {
      forall i :: 0 <= i < |chats| ==> TitleFollowsHistory(chats[i])
    }

    /** The selection names a chat in the list. */
    ghost predicate SelectsListedChat()
      reads this
    {
      currentChatId.Some? && exists i :: 0 <= i < |chats| && chats[i].id == currentChatId.value
    }

    /** The state before the first render: no chats, nothing selected, nothing pending. */
    constructor ()
      ensures Valid()
      ensures chats == [] && currentChatId == None && !isLoading
    {
      chats := [];
      currentChatId := None;
      isLoading := false;
    }

    /** `currentChat?.messages || []`: the messages of the selected chat, none when nothing matches. */
    function CurrentMessages(): (ms: seq<ChatMessage>)
      reads this
      ensures (forall i :: 0 <= i < |chats| ==> currentChatId != Some(chats[i].id)) ==> ms == []
      ensures forall i ::
        (0 <= i < |chats| && currentChatId == Some(chats[i].id)
         && forall j :: 0 <= j < i ==> currentChatId != Some(chats[j].id)) ==> ms == chats[i].messages
    {
      var k := FindIndex(chats, currentChatId);
      if k < |chats| then chats[k].messages else []
    }

    /** `handleNewChat`: appends a fresh "New Chat" and selects it. */
    method NewChat(freshId: string, now: Time)
      requires Valid()
      modifies this
      ensures Valid() && SelectsListedChat()
      ensures Extends(old(chats), chats)
      ensures chats == old(chats) + [FreshChat(freshId, now)]
      ensures currentChatId == Some(freshId)
      ensures isLoading == old(isLoading)
    {
      var newChat := FreshChat(freshId, now);
      chats := chats + [newChat];
      currentChatId := Some(freshId);
      assert chats[|chats| - 1].id == freshId;
    }

    /** `handleChatSelect`: selects the id, listed or not. */
    method SelectChat(chatId: string)
      modifies this
      ensures currentChatId == Some(chatId)
      ensures chats == old(chats) && isLoading == old(isLoading)
      ensures SelectsListedChat() <==> exists i :: 0 <= i < |chats| && chats[i].id == chatId
    {
      currentChatId := Some(chatId);
    }

    /**
     * `handleSendMessage` up to the timer: with nothing selected it only
     * creates and selects a chat and the message is dropped; otherwise the
     * user's message is appended to the selected chat, the reply becomes
     * pending, and the selected id is returned as the reply's target.
     */
    method SendMessage(content: string, files: seq<UploadedFile>, freshId: string, now: Time)
      returns (replyTarget: Option<string>)
      requires Valid()
      modifies this
      ensures Valid()
      ensures Extends(old(chats), chats)
      ensures old(SelectsListedChat()) ==> SelectsListedChat()
      ensures !HasSelection(old(currentChatId)) ==>
        && replyTarget == None
        && chats == old(chats) + [FreshChat(freshId, now)]
        && currentChatId == Some(freshId)
        && isLoading == old(isLoading)
      ensures HasSelection(old(currentChatId)) ==>
        && replyTarget == old(currentChatId)
        && chats == MapMatching(old(chats), old(currentChatId).value, PostUser(freshId, content, files, now))
        && currentChatId == old(currentChatId)
        && isLoading
    {
      if !HasSelection(currentChatId) {
        NewChat(freshId, now);
        return None;
      }
      var targetId := currentChatId.value;
      var update := PostUser(freshId, content, files, now);
      ghost var before := chats;
      chats := MapMatching(chats, targetId, update);
      isLoading := true;
      replyTarget := Some(targetId);
      forall i | 0 <= i < |chats| ensures TitleFollowsHistory(chats[i]) {
        ApplyUpdateKeepsTitleRule(update, before[i]);
      }
      MapMatchingExtends(before, targetId, update);
    }

    /**
     * The timer's callback: the canned reply goes to the chat captured at
     * send time (not the one selected now), and the pending flag clears.
     */
    method DeliverReply(targetId: string, freshId: string, now: Time)
      requires Valid()
      modifies this
      ensures Valid()
      ensures Extends(old(chats), chats)
      ensures chats == MapMatching(old(chats), targetId, PostBot(freshId, now))
      ensures currentChatId == old(currentChatId)
      ensures !isLoading
      ensures old(SelectsListedChat()) ==> SelectsListedChat()
    {
      var update := PostBot(freshId, now);
      ghost var before := chats;
      chats := MapMatching(chats, targetId, update);
      isLoading := false;
      forall i | 0 <= i < |chats| ensures TitleFollowsHistory(chats[i]) {
        ApplyUpdateKeepsTitleRule(update, before[i]);
      }
      MapMatchingExtends(before, targetId, update);
    }

    /** The effect on `chats.length`: an empty list gets a new, selected chat. */
    method Bootstrap(freshId: string, now: Time)
      requires Valid()
      modifies this
      ensures Valid()
      ensures Extends(old(chats), chats)
      ensures |chats| > 0
      ensures old(chats) == [] ==> chats == [FreshChat(freshId, now)] && currentChatId == Some(freshId)
      ensures old(chats) != [] ==> chats == old(chats) && currentChatId == old(currentChatId)
      ensures isLoading == old(isLoading)
    {
      if |chats| == 0 {
        NewChat(freshId, now);
      }
    }
  }

  /**
   * A first question on a fresh page: the bootstrap chat receives the
   * question, takes its title from it and shows the reply pending; after
   * the reply it holds the question and the reply, and nothing is pending.
   */
  method FirstQuestion(question: string, chatId: string, questionId: string, replyId: string, t0: Time, t1: Time, t2: Time)
    returns (pendingAfterSend: bool, pendingAfterReply: bool, chat: Chat)
    requires chatId != ""
    ensures pendingAfterSend && !pendingAfterReply
    ensures chat.id == chatId && chat.createdAt == t0 && chat.updatedAt == t2
    ensures chat.title == DeriveTitle(question)
    ensures chat.messages == [UserMessage(questionId, question, [], t1), BotMessage(replyId, t2)]
  {
    var page := new ChatStore();
    page.Bootstrap(chatId, t0);
    var target := page.SendMessage(question, [], questionId, t1);
    pendingAfterSend := page.isLoading;
    page.DeliverReply(target.value, replyId, t2);
    pendingAfterReply := page.isLoading;
    chat := page.chats[0];
  }

  /**
   * A reply arriving after the user opened a second chat still lands in the
   * chat that was selected when the question was sent.
   */
  method ReplyAfterSwitchingChats(question: string, firstId: string, secondId: string, questionId: string, replyId: string, t0: Time, t1: Time, t2: Time, t3: Time)
    returns (first: Chat, second: Chat, selected: Option<string>)
    requires firstId != "" && firstId != secondId
    ensures selected == Some(secondId)
    ensures first.id == firstId && second.id == secondId
    ensures first.messages == [UserMessage(questionId, question, [], t1), BotMessage(replyId, t3)]
    ensures second.messages == [] && second.title == NewChatTitle
  {
    var page := new ChatStore();
    page.Bootstrap(firstId, t0);
    assert page.chats == [FreshChat(firstId, t0)];
    var target := page.SendMessage(question, [], questionId, t1);
    var asked := ApplyUpdate(PostUser(questionId, question, [], t1), FreshChat(firstId, t0));
    assert page.chats == [asked];
    page.NewChat(secondId, t2);
    assert page.chats == [asked, FreshChat(secondId, t2)];
    page.DeliverReply(target.value, replyId, t3);
    first, second, selected := page.chats[0], page.chats[1], page.currentChatId;
  }
}
