# Justice Bot chat state, modelled in Dafny

Justice Bot is a browser chat front end for a legal-information assistant.
Everything lives in memory. There is a sidebar of chats, a message timeline,
a composer with file attachments, and a canned bot reply delivered 1.5 s
after each question. This project models the three parts of it that hold
state or logic:

- **The chat page** (`src/pages/JusticeBot.tsx`), in `justice_bot.dfy`. The
  class `ChatStore` holds the list of chats, the selected chat id and the
  "reply pending" flag. Its methods are the page's handlers: new chat, select
  chat, send message, the delayed bot reply and the bootstrap effect. Each
  `setChats` update is the pure function `MapMatching`, which applies a
  `ChatUpdate` to every chat with the target id. The title rule is the pure
  function `DeriveTitle`.
- **The composer** (`src/components/justice-bot/ChatInput.tsx`), in
  `chat_input.dfy`. The class `Composer` holds the draft text and the staged
  files. It has the submit guard (`trim(draft)` non-empty, or some file
  staged), the Enter-key rule, add and remove for staged files, and the send
  button's `disabled` predicate. `String.prototype.trim` is written out over
  ECMAScript's whitespace and line-terminator characters.
- **The sidebar** (`src/components/justice-bot/ChatSidebar.tsx`), in
  `chat_sidebar.dfy`. It is a stable sort of a copy of the chats by
  `updatedAt`, newest first. On top of that sort come the entry list, the
  highlight of the selected chat, and the placeholder for an empty list.

`types.dfy` holds the records of `src/types/justice-bot.ts`. Dates become
`nat` milliseconds. The `type` field of a file is named `mimeType`, because
`type` is a Dafny keyword. A message's optional `files` becomes an `Option`.

These things become parameters: uuids (`freshId`), `new Date()` (`now`), and
the moment the timer fires (a call to `ChatStore.DeliverReply` with the chat
id that `SendMessage` returned). The composer's `onSubmit` callback is the
value `Composer.Submit` returns: `Some(arguments)` when it would be called,
`None` when it would not.

In these places the code does something one might not expect, and the model
follows the code:
- Selecting an unknown chat id is not an error; the id is simply stored.
- Appending to a missing chat is not an error; the list is left unchanged
  (`MapMatchingAbsent`).
- Sending with nothing selected creates and selects a chat and drops the
  message.
- `if (!currentChatId)` is JavaScript truthiness, so an empty-string id
  counts as "nothing selected" as well (`HasSelection`).
- There is no generator-failure path.
- The bootstrap effect runs whenever the list is empty, not "once".

## Model

| member | source | states |
|---|---|---|
| `JusticeBot.DeriveTitle` | src/pages/JusticeBot.tsx:57-60 | The title is at most 33 characters. It equals the content when the content has at most 30 characters (so "" for an attachments-only send). Otherwise it is the first 30 characters followed by "...". |
| `JusticeBot.FreshChat` | src/pages/JusticeBot.tsx:21-27 | A new chat has the given id, the title "New Chat", no messages and `createdAt = updatedAt = now`. Its title already satisfies the title invariant. |
| `JusticeBot.UserMessage` | src/pages/JusticeBot.tsx:44-50 | The user message has role user and the content unchanged. `files` is present exactly when at least one file was passed, and then holds those files. |
| `JusticeBot.BotMessage` | src/pages/JusticeBot.tsx:79-85 | The reply has role bot, the fixed canned text and the given id and time. It never carries `files`. |
| `JusticeBot.ApplyUpdate` | src/pages/JusticeBot.tsx:55-67 | An update appends its message at the end of the chat and restamps `updatedAt`. Id and `createdAt` are kept. The title changes only for a user post on a chat with no messages. |
| `JusticeBot.MapMatching` | src/pages/JusticeBot.tsx:53-71 | Same length as before. Every chat with the target id is updated, and every other chat is returned exactly as it was. |
| `JusticeBot.MapMatchingAbsent` | src/pages/JusticeBot.tsx:54-70 | If no chat has the target id, the list is unchanged. |
| `JusticeBot.MapMatchingExtends` | src/pages/JusticeBot.tsx:62-67 | Nothing is removed: each chat keeps its id and place and its old messages as a prefix. A matching chat gains exactly one message. |
| `JusticeBot.ExtendsTransitive` | src/pages/JusticeBot.tsx:53-99 | Changes that remove nothing compose: two such steps in a row still remove no chat and no message. |
| `JusticeBot.ApplyUpdateKeepsTitleRule` | src/pages/JusticeBot.tsx:57-60 | Both updates keep the invariant "title = derived from the first message if a user wrote it, otherwise New Chat". |
| `JusticeBot.ApplyAllAppends` | src/pages/JusticeBot.tsx:53-99 | Any sequence of updates appends exactly its messages, in order, and keeps the id, `createdAt` and the title invariant. |
| `JusticeBot.TitleOfNewChat` | src/pages/JusticeBot.tsx:57-60 | After any sequence of updates on a new chat, the title comes from the first update's text if that update was a user post, and is "New Chat" otherwise. Later posts and replies never change it. |
| `JusticeBot.ReplyFollowsUserMessage` | src/pages/JusticeBot.tsx:77-99 | The reply goes to the chat whose id was captured at send time, after that chat's user message, even when other appends came in between. It is the last message, has role bot, restamps `updatedAt` and leaves the title unchanged. |
| `JusticeBot.UpdatedChatListedFirst` | src/pages/JusticeBot.tsx:66 | Appending at a time later than every chat's `updatedAt` moves that chat to the top of the sidebar, when its id is unique. |
| `JusticeBot.FindIndex` | src/pages/JusticeBot.tsx:16 | `chats.find` picks the first chat whose id equals the selection, or none when no chat matches. |
| `JusticeBot.HasSelection` | src/pages/JusticeBot.tsx:38 | `!currentChatId` is JavaScript truthiness: null and the empty string both mean nothing is selected, and every non-empty id means a selection. |
| `JusticeBot.ChatStore.constructor` | src/pages/JusticeBot.tsx:10-12 | Initial state: no chats, nothing selected, not loading. |
| `JusticeBot.ChatStore.CurrentMessages` | src/pages/JusticeBot.tsx:16-17 | The timeline shows the messages of the first chat with the selected id, and no messages when no chat has that id. |
| `JusticeBot.ChatStore.NewChat` | src/pages/JusticeBot.tsx:19-31 | Appends exactly one chat, at the end: title "New Chat", no messages, `createdAt = updatedAt = now`. It selects that chat. Existing chats and the loading flag are unchanged, so nothing is removed. |
| `JusticeBot.ChatStore.SelectChat` | src/pages/JusticeBot.tsx:33-35 | Selects the given id and changes nothing else. The selection names a listed chat exactly when some chat has that id. |
| `JusticeBot.ChatStore.SendMessage` | src/pages/JusticeBot.tsx:37-75 | With nothing selected (null or ""), it only creates and selects a new chat: no message is appended and no reply is pending. Otherwise it appends the user message to the chats with the selected id and leaves every other chat alone. It then sets `isLoading` and returns the selected id as the reply's target. Nothing is removed, and the title invariant is kept. |
| `JusticeBot.ChatStore.DeliverReply` | src/pages/JusticeBot.tsx:77-102 | Appends the bot reply to the chats with the captured id, not the currently selected one, and clears `isLoading`. It keeps the selection, removes nothing and keeps the title invariant. |
| `JusticeBot.ChatStore.Bootstrap` | src/pages/JusticeBot.tsx:106-110 | An empty list gets exactly one new chat, which is selected. A non-empty list is left as it is. Nothing is removed, and afterwards the list is never empty. |
| `JusticeBot.FirstQuestion` | src/pages/JusticeBot.tsx:37-102 | On a fresh page, bootstrap then a question: the reply is pending after the send and not after the reply. The chat then holds exactly the question and the bot reply, and its title is derived from the question. |
| `JusticeBot.ReplyAfterSwitchingChats` | src/pages/JusticeBot.tsx:77-99 | A reply that arrives after the user opened a second chat is appended to the first chat. The second chat, which is now selected, stays empty and titled "New Chat". |
| `ChatInput.TrimStart` | src/components/justice-bot/ChatInput.tsx:22 | The result is the suffix left after a run of leading whitespace. It is empty or starts with a non-whitespace character. |
| `ChatInput.TrimEnd` | src/components/justice-bot/ChatInput.tsx:22 | The result is the prefix left after a run of trailing whitespace. It is empty or ends with a non-whitespace character. |
| `ChatInput.IsWhitespace` | src/components/justice-bot/ChatInput.tsx:22 | On ASCII, `trim` strips exactly space and the control characters tab through carriage return. No character above U+FEFF is stripped. |
| `ChatInput.Trim` | src/components/justice-bot/ChatInput.tsx:22 | `trim` returns the slice of the input that neither starts nor ends with whitespace, and everything cut off on either side is whitespace. It is empty exactly when the input is all whitespace. |
| `ChatInput.CanSubmitIff` | src/components/justice-bot/ChatInput.tsx:22 | The submit guard holds exactly when a file is staged or the draft has a non-whitespace character. |
| `ChatInput.CanSubmit` | src/components/justice-bot/ChatInput.tsx:22 | The `handleSubmit` guard holds exactly when a file is staged or the draft is not all whitespace. An empty staged list with a blank draft never submits. |
| `ChatInput.SendEnabledIff` | src/components/justice-bot/ChatInput.tsx:81-83 | The send button is enabled exactly when not loading and the submit guard holds. It is always disabled while loading. |
| `ChatInput.SubmitsOnKey` | src/components/justice-bot/ChatInput.tsx:30 | Only the Enter key submits, and never with Shift held. Enter without Shift always does. |
| `ChatInput.SendDisabled` | src/components/justice-bot/ChatInput.tsx:81-83 | The button is disabled exactly when a reply is pending or the submit guard fails. |
| `ChatInput.WithoutId` | src/components/justice-bot/ChatInput.tsx:40-42 | No surviving file has the removed id, and the list never grows. Removing an absent id returns the list unchanged. |
| `ChatInput.WithoutIdMembers` | src/components/justice-bot/ChatInput.tsx:40-42 | A file survives removal exactly when it was staged and its id differs from the removed one. |
| `ChatInput.WithoutIdConcat` | src/components/justice-bot/ChatInput.tsx:41 | Removal filters each part of a concatenation separately, so the survivors keep their original order. |
| `ChatInput.StageThenRemove` | src/components/justice-bot/ChatInput.tsx:36-42 | Staging a file whose id is new, then removing that id, gives back the previous staged list. |
| `ChatInput.Composer.constructor` | src/components/justice-bot/ChatInput.tsx:15-16 | The composer starts with an empty draft and no staged files. |
| `ChatInput.Composer.Edit` | src/components/justice-bot/ChatInput.tsx:65 | Typing replaces the draft and leaves the staged files unchanged. |
| `ChatInput.Composer.AddFiles` | src/components/justice-bot/ChatInput.tsx:36-38 | The added files go after the already-staged ones, in order, and the length grows by exactly their number. The draft is unchanged. |
| `ChatInput.Composer.RemoveFile` | src/components/justice-bot/ChatInput.tsx:40-42 | The staged list becomes the filtered list, and the draft is unchanged. |
| `ChatInput.Composer.SendButtonDisabled` | src/components/justice-bot/ChatInput.tsx:81-83 | The button is enabled exactly when not loading and the current draft and staged files pass the submit guard. |
| `ChatInput.Composer.Submit` | src/components/justice-bot/ChatInput.tsx:19-27 | `onSubmit` is called exactly when the guard holds. It receives the untrimmed draft and the staged list, and then both are reset. When the guard fails, nothing changes. It does not look at `isLoading`. |
| `ChatInput.Composer.KeyDown` | src/components/justice-bot/ChatInput.tsx:29-34 | Enter without Shift behaves as submit. Shift+Enter and every other key neither submit nor change anything. |
| `ChatInput.StagingStartsEmptyAfterSubmit` | src/components/justice-bot/ChatInput.tsx:19-38 | After a firing submit, the staged list holds exactly the files added since. Submit fires exactly when files were staged or the draft has text. |
| `ChatSidebar.Insert` | src/components/justice-bot/ChatSidebar.tsx:27-29 | One step of the sort adds exactly one chat to the list. |
| `ChatSidebar.InsertPermutes` | src/components/justice-bot/ChatSidebar.tsx:27-29 | One insertion step adds exactly the inserted chat, as a multiset, and lengthens the list by one. |
| `ChatSidebar.InsertKeepsOrder` | src/components/justice-bot/ChatSidebar.tsx:27-29 | Inserting into a newest-first list keeps it newest-first. |
| `ChatSidebar.SortedChats` | src/components/justice-bot/ChatSidebar.tsx:27-29 | `sortedChats` is a permutation of `chats` and has non-increasing `updatedAt`. |
| `ChatSidebar.StampedAtInsert` | src/components/justice-bot/ChatSidebar.tsx:28 | An inserted chat goes in front of the chats stamped like it, and those chats keep their order. |
| `ChatSidebar.SortIsStable` | src/components/justice-bot/ChatSidebar.tsx:27-29 | Stability: for every timestamp, the chats with that `updatedAt` come out in their input order. |
| `ChatSidebar.NewestChatListedFirst` | src/components/justice-bot/ChatSidebar.tsx:27-29 | A chat strictly more recent than all the others is listed first. |
| `ChatSidebar.IsHighlighted` | src/components/justice-bot/ChatSidebar.tsx:53 | `currentChatId === chat.id`: a chat is highlighted exactly when the selection is its own id. Nothing is highlighted when nothing is selected. |
| `ChatSidebar.EntryOf` | src/components/justice-bot/ChatSidebar.tsx:47-65 | A button shows its chat's id, title, message count and date, and is highlighted exactly when its id is the selected one. |
| `ChatSidebar.View` | src/components/justice-bot/ChatSidebar.tsx:46-75 | An empty list shows the placeholder and no entries. Otherwise there is one entry per sorted chat, with its title, message count and date, highlighted exactly when its id equals `currentChatId`. |
| `ChatSidebar.HighlightsMatchSelection` | src/components/justice-bot/ChatSidebar.tsx:53 | The number of highlighted entries equals the number of chats whose id is the selected one. |
| `ChatSidebar.SelectionHighlightsOne` | src/components/justice-bot/ChatSidebar.tsx:53 | With distinct ids, exactly one chat is highlighted when the selection names a listed chat, and none otherwise. |

## Left out

- Rendering (JSX, class names, icons, scroll areas, the mobile sheet), `ChatArea.tsx`, `ChatMessage.tsx`, `FileUpload.tsx`, `use-media-query.ts` and `Index.tsx` are presentation, browser file/DOM APIs or routing. Files reach the composer as ready `UploadedFile` values.
- `setTimeout`, React batching and effect scheduling. Each handler is one atomic method, and the delayed reply is the explicit later call `DeliverReply`. There is no cancellation.
- uuid generation and `new Date()`. Both are method parameters, and nothing forces a fresh id to be unused.
- Timestamps: one `now` stands for each handler's `new Date()` calls. The source calls it separately for a message's `timestamp` and the chat's `updatedAt`, and these may differ by a millisecond.
- `createdAt <= updatedAt` is not stated, because the clock is a parameter with no monotonicity.
- `DeriveTitle`: does not model JavaScript's UTF-16 code units. The model counts `char`s (Unicode scalar values). A character outside the Basic Multilingual Plane counts as two in `slice`/`length`, and slicing could split it.
- `date-fns` formatting of the sidebar date, `preventDefault`, the textarea auto-resize and focus effects.
- The textarea is `disabled` while loading, so it receives no key events. `Composer.KeyDown` does not check loading, just as `handleKeyDown` does not.
- The sort is modelled as an insertion sort. Any stable sort gives the same result, because permutation, order and stability together fix the output. The engine's actual algorithm is not modelled.
