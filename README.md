# Conversation store of the AI sales assistant, in Dafny

This project models the state-handling core of the AI sales assistant web
application. That core is the conversation store of its chat page. Around it
sit the small state machines of the components that feed it or read it.

- **Conversation store** (`use_conversations.dfy`, module `Conversations`). It
  keeps an ordered list of conversations, newest first, and a nullable
  selected id. A class `Store` holds both, plus the durable slot the list is
  written to. The list transforms are pure functions: `Without` (delete's
  filter), `Renamed`, `MessageAdded` with its auto-title rule `DerivedTitle`,
  and `Find`. The methods `Create`, `Delete`, `Rename`, `AddMessage` and
  `Select` overwrite the class fields. All but `Select`, which changes only
  the selection, end with the write-back effect (`Persist`). `Mount` is the
  load-once effect.
- **Chat page** (`page.dfy`, module `ChatPage`). Sending creates a conversation
  when none is selected, then appends the user message. The delayed assistant
  reply is a separate call that takes the id captured at send time.
- **Sidebar** (`sidebar.dfy`). It has the rename edit flow, which does the
  trimming and blank-title rejection, the export file name, and the
  ten-conversation cap.
- **Conversation search** (`conversation_search.dfy`). A case-insensitive
  filter over titles and message contents, the result preview, and
  select-and-clear.
- **Leads table** (`leads_table.dfy`). The status filter and the per-lead
  status update.
- **Chat inputs** (`futuristic_chat_input.dfy`, `perplexity_input.dfy`,
  `perplexity_message_box.dfy`). Guarded sends over a message buffer, Enter
  handling, and the recording toggle.
- **Playbooks** (`playbooks_list.dfy`). The word count, which is the length
  of `split(/\s+/)`, and the reading time.
- **Helpers.** `text.dfy` holds `trim`, the `\s` class (the ECMAScript
  WhiteSpace and LineTerminator code points), ASCII lower-casing, `includes`,
  and the decimal rendering of tick ids with its round trip. `seqs.dfy` holds
  `filter`, conditional `map` and `slice(0, n)`. `types.dfy` holds the
  records. `wrappers.dfy` holds `Option`.

Time is an injected clock. Every operation that reads `Date.now()` or
`new Date()` takes a tick `now: nat`, and ids are `Text.Decimal(now)`. Dates
are ticks. The durable slot is `Option<Stored>`. `None` means the key was
never set (or holds the empty string, which the `if (stored)` test at
hooks/use-conversations.ts:15 skips). `Json(list)` is text that parses to a
list of conversations. `Malformed` is text that makes `JSON.parse` throw.

What the code does, where a reader might expect otherwise:

- **Rename does not validate.** `updateConversationTitle`
  (hooks/use-conversations.ts:63-65) sets the title verbatim. The trim and
  the blank-title rejection happen only in the sidebar's `saveEdit`
  (components/sidebar.tsx:67-69); see `Conversations.Store.Rename` and
  `Sidebar.RenameEditor.SaveEdit`.
- **Deleting the last conversation does not clear the slot.** The
  write-back effect (hooks/use-conversations.ts:29-33) writes only a
  non-empty list, so the old snapshot stays and a reload brings the deleted
  conversation back. This is proved as `Conversations.ReloadAfterDeletingLast`.
- **Not-found is silent.** `addMessage` and `updateConversationTitle`
  (hooks/use-conversations.ts:63-87) map over the list; an unknown id changes
  nothing and nothing is reported.
- **Duplicate ids are all changed.** Rename and append touch every
  conversation with the given id (the maps at hooks/use-conversations.ts:64
  and 69-85). Delete removes them all (the filter at line 51).
- **A loaded empty list selects nothing.** Loading adopts a parsed list even
  when it is empty (hooks/use-conversations.ts:18), and selects its head only
  when it has one (lines 19-21).
- **Ids are unique only under an increasing clock.** The id is
  `Date.now().toString()` (hooks/use-conversations.ts:37), so two
  conversations created at the same tick share it. `CreateKeepsUniqueIds`
  proves that ids stay distinct when every existing id is the decimal of an
  earlier tick, which holds under a strictly increasing clock.

## Model

| member | source | states |
|---|---|---|
| Conversations.DerivedTitle | hooks/use-conversations.ts:73-76 | the derived title is the content itself when it has at most 50 characters; it has more than 50 exactly when the title is its first 50 characters followed by "..."; the title never exceeds 53 characters |
| Conversations.Find | hooks/use-conversations.ts:89 | the lookup finds something exactly when the selection is non-null and some conversation has that id; what it finds has that id and is the first such conversation |
| Conversations.Without | hooks/use-conversations.ts:51 | the filtered list has no conversation with the id, keeps every other conversation, keeps every copy of each other conversation and no copy of one with the id, is a subsequence of the old list in its order, and is the old list when the id is absent |
| Conversations.Renamed | hooks/use-conversations.ts:64 | same length; ids, messages and createdAt of every conversation unchanged; matching conversations get exactly the given title and updatedAt = now; others are untouched; an unknown id changes nothing |
| Conversations.MessageAdded | hooks/use-conversations.ts:69-85 | same length; ids and createdAt unchanged and old messages a prefix of new ones (append-only); a matching conversation gets the message at the end, updatedAt = now, and the derived title exactly when it had no messages and the message is from the user; others are untouched; an unknown id changes nothing |
| Conversations.DeleteKeepsSelectionSound | hooks/use-conversations.ts:52-56 | after a delete and the selection repair, a selection that pointed into the list still does (never dangling) |
| Conversations.DeleteUnknownIsNoOp | hooks/use-conversations.ts:50-56 | deleting an id that is absent leaves the list and a sound selection unchanged |
| Conversations.SubsequenceKeepsUniqueIds | hooks/use-conversations.ts:51 | a subsequence of a list with distinct ids has distinct ids and only elements of that list |
| Conversations.DeleteKeepsUniqueIds | hooks/use-conversations.ts:51 | deleting keeps conversation ids distinct |
| Conversations.CreateKeepsUniqueIds | hooks/use-conversations.ts:37 | when every id is the decimal rendering of an earlier tick, the new conversation's id Date.now().toString() is fresh, so ids stay distinct, and the invariant holds for the next tick |
| Conversations.UpdatesKeepChronological | hooks/use-conversations.ts:64 | with a clock that has not gone back, renaming and appending keep createdAt <= updatedAt and updatedAt <= now for every conversation |
| Conversations.FirstMessageTitlesNewConversation | hooks/use-conversations.ts:70-82 | a user message sent into a freshly created conversation becomes its only message and gives it the derived title, with createdAt the creation tick and updatedAt the send tick |
| Conversations.AssistantFirstKeepsDefaultTitle | hooks/use-conversations.ts:74 | a conversation whose first message is the assistant's keeps "New Conversation" even after a user message follows |
| Conversations.Store.CurrentConversation | hooks/use-conversations.ts:89 | there is a current conversation exactly when the selected id is in the list; it is an element of the list with that id |
| Conversations.Store.Mount | hooks/use-conversations.ts:13-26 | a slot that parses is adopted and its first conversation selected (none for an empty list); a missing key or a parse failure gives the empty list and a null selection; the slot is left as it was; the state is persisted and its selection sound |
| Conversations.Store.Persist | hooks/use-conversations.ts:29-33 | the whole list replaces the snapshot when it is non-empty; an empty list leaves the snapshot as it was |
| Conversations.Store.Create | hooks/use-conversations.ts:35-46 | returns Date.now().toString(); the list becomes the new conversation ("New Conversation", no messages, createdAt = updatedAt = now) followed by the old list; it is selected; the new list is stored; distinct ids are kept under an increasing clock |
| Conversations.Store.Delete | hooks/use-conversations.ts:48-61 | the list becomes the filtered list; deleting the selected conversation selects the first remaining one; an emptied list selects nothing; otherwise the selection is kept; the snapshot is rewritten unless the list is empty; selection soundness and distinct ids are preserved |
| Conversations.Store.Rename | hooks/use-conversations.ts:63-65 | the list becomes Renamed of the old list with the title verbatim; the selection is kept; the new list is stored; soundness is preserved |
| Conversations.Store.AddMessage | hooks/use-conversations.ts:67-87 | the list becomes MessageAdded of the old list; the selection is kept; the new list is stored; soundness is preserved |
| Conversations.Store.Select | hooks/use-conversations.ts:10 | the selection becomes the id unconditionally; it is sound exactly when the id is in the list |
| Conversations.Reload | hooks/use-conversations.ts:14-33 | mounting from the slot a persisted store wrote restores its list exactly and selects its first conversation |
| Conversations.ReloadAfterDeletingLast | hooks/use-conversations.ts:30-32 | deleting the only conversation empties the list and the selection, but a reload from the slot gives the deleted conversation back |
| ChatPage.NewConversation | app/page.tsx:21-23 | the new-chat handler does exactly what createConversation does |
| ChatPage.SendMessage | app/page.tsx:25-39 | with a null or empty selection a conversation is created and targeted, and it ends with the user message as its only message and the derived title; otherwise the selected id is targeted and nothing is created; the appended message has role user and exactly the given content; the target is selected afterwards; the list is stored when non-empty and the slot is otherwise left as it was; soundness is preserved |
| ChatPage.ReceiveReply | app/page.tsx:42-50 | the fixed assistant reply is appended to the captured id, whatever is selected; the selection is untouched; the list is stored when non-empty and the slot is otherwise left as it was |
| ChatPage.SaveRename | app/page.tsx:62 | saving a non-blank typed text renames the edited conversation to its trim, storing the list when non-empty and otherwise leaving the slot; a blank text or no edited conversation leaves list and slot untouched; edit mode ends and the typed text is kept |
| Sidebar.Listed | components/sidebar.tsx:183 | at most 10 conversations are listed, a prefix of the list in store order, and all of them when there are fewer than 10 |
| Sidebar.ExportFileName | components/sidebar.tsx:89 | the name is one character per title character followed by ".json"; each is a lower-case letter, digit or "_"; letters and digits become their lower case and everything else "_" |
| Sidebar.RenameEditor.constructor | components/sidebar.tsx:57-58 | no conversation is being edited and the edit text is empty |
| Sidebar.RenameEditor.StartEditing | components/sidebar.tsx:62-65 | the edited id becomes the conversation's id and the edit text its current title |
| Sidebar.RenameEditor.Type | components/sidebar.tsx:201 | the edit text becomes the typed text |
| Sidebar.RenameEditor.SaveEdit | components/sidebar.tsx:67-76 | a rename is requested exactly when the edited id is truthy and the trimmed text non-empty, with that id and the trimmed text (non-empty, already trimmed); edit mode ends in every case and the text is kept |
| Sidebar.RenameEditor.CancelEdit | components/sidebar.tsx:78-81 | edit mode ends, the text is cleared and no rename is requested |
| Sidebar.RenameEditor.KeyDown | components/sidebar.tsx:202-205 | Enter behaves as saveEdit, Escape as cancelEdit, any other key changes nothing and requests nothing |
| ConversationSearch.Results | components/conversation-search.tsx:22-26 | a conversation is kept exactly when its lower-cased title or some lower-cased message content contains the lower-cased query, with every copy of a kept conversation kept; the result is a subsequence of the list in its order |
| ConversationSearch.EmptyQueryKeepsAll | components/conversation-search.tsx:24 | the empty query keeps every conversation |
| ConversationSearch.Preview | components/conversation-search.tsx:60 | the preview is the first min(60, length) characters of the first message's content, or nothing without messages, followed by "..." |
| ConversationSearch.SearchBox.constructor | components/conversation-search.tsx:20 | the query starts empty |
| ConversationSearch.SearchBox.Type | components/conversation-search.tsx:36 | the query becomes the typed text |
| ConversationSearch.SearchBox.Choose | components/conversation-search.tsx:47-50 | choosing a result reports its id and resets the query to "", which hides the results panel |
| Leads.Filtered | components/leads-table.tsx:91 | "all" gives the list unchanged; a status gives exactly the leads with that status, every copy of each; the result is a subsequence in original order, so it is no longer than the list |
| Seqs.FilterMultiset | hooks/use-conversations.ts:51 | `filter` keeps every copy of an element that passes the test and no copy of one that fails it |
| Seqs.SubsequenceOfItself | components/leads-table.tsx:91 | every list is a subsequence of itself |
| Leads.StatusChanged | components/leads-table.tsx:95 | same length; a lead with the id gets exactly the new status and updatedAt = now, every other field kept; other leads are untouched |
| Leads.Ids | components/leads-table.tsx:95 | the id column of the list, position by position |
| Leads.StatusChangeShape | components/leads-table.tsx:95 | a status change keeps the id order, and an unknown id leaves the list unchanged |
| Leads.LeadsTable.constructor | components/leads-table.tsx:88-89 | the table starts from the given leads with the "all" filter |
| Leads.LeadsTable.Shown | components/leads-table.tsx:116 | the count shown is at most the total count |
| Leads.LeadsTable.SetFilter | components/leads-table.tsx:102 | the filter becomes the chosen value; the leads are untouched |
| Leads.LeadsTable.ChangeStatus | components/leads-table.tsx:93-97 | the leads become StatusChanged of the old leads; the filter and the id order are kept |
| FuturisticChatInput.ChatInput.constructor | components/futuristic-chat-input.tsx:15-16 | empty buffer, not recording |
| FuturisticChatInput.ChatInput.Type | components/futuristic-chat-input.tsx:69 | the buffer becomes the typed text |
| FuturisticChatInput.ChatInput.Send | components/futuristic-chat-input.tsx:27-35 | something is sent exactly when the trimmed buffer is non-empty and the input enabled, which is exactly when the send button is enabled; it is the trimmed buffer, without a file; the buffer is then "", and unchanged otherwise |
| FuturisticChatInput.ChatInput.KeyDown | components/futuristic-chat-input.tsx:37-42 | Enter without Shift behaves as handleSend; Shift+Enter and other keys send nothing and keep the buffer |
| FuturisticChatInput.ChatInput.FileSelect | components/futuristic-chat-input.tsx:44-49 | a chosen file is announced as "Uploaded file: " followed by its name, with the file attached; no file sends nothing; the buffer is untouched |
| FuturisticChatInput.ChatInput.ToggleRecording | components/futuristic-chat-input.tsx:82 | the recording flag flips |
| PerplexityInput.Input.constructor | components/perplexity-input.tsx:21-22 | empty buffer, not recording |
| PerplexityInput.Input.Primary | components/perplexity-input.tsx:132-155 | the primary button is Send exactly when the trimmed buffer is non-empty, and the recording toggle otherwise |
| PerplexityInput.Input.Type | components/perplexity-input.tsx:42-47 | the buffer becomes the typed text |
| PerplexityInput.Input.Send | components/perplexity-input.tsx:25-33 | something is sent exactly when the buffer is not blank and the input enabled; it is the trimmed buffer, non-empty; the buffer is then "", and unchanged otherwise |
| PerplexityInput.Input.KeyDown | components/perplexity-input.tsx:35-40 | Enter without Shift behaves as handleSend; other keys send nothing and keep the buffer |
| PerplexityInput.Input.ToggleRecording | components/perplexity-input.tsx:49-51 | the recording flag flips, so two toggles restore it |
| PerplexityInput.Input.PrimaryClick | components/perplexity-input.tsx:133-144 | on Send the buffer is sent trimmed unless disabled and recording is untouched; on the toggle the flag flips and nothing is sent |
| PerplexityMessageBox.MessageBox.constructor | components/perplexity-message-box.tsx:17-18 | empty buffer, not recording |
| PerplexityMessageBox.MessageBox.Type | components/perplexity-message-box.tsx:90 | the buffer becomes the typed text |
| PerplexityMessageBox.MessageBox.Send | components/perplexity-message-box.tsx:30-35 | something is sent exactly when the buffer is not blank; it is the buffer verbatim, untrimmed; the buffer is then "", and unchanged otherwise |
| PerplexityMessageBox.MessageBox.KeyDown | components/perplexity-message-box.tsx:37-42 | Enter without Shift behaves as handleSend; other keys send nothing and keep the buffer |
| PerplexityMessageBox.MessageBox.PrimaryClick | components/perplexity-message-box.tsx:116 | with non-blank text the buffer is sent verbatim and cleared and recording is unchanged; with blank text recording flips and nothing is sent |
| PlaybooksList.WordEnd | components/playbooks-list.tsx:65 | the end of a word: the first whitespace position at or after the start, or the length when there is none |
| PlaybooksList.SplitPiecesAreWords | components/playbooks-list.tsx:65 | no piece of split(/\s+/) contains a whitespace character |
| PlaybooksList.SkipWord | components/playbooks-list.tsx:65 | a stretch of non-whitespace characters starts no whitespace run |
| PlaybooksList.SkipRun | components/playbooks-list.tsx:65 | whitespace that continues a run starts no new run |
| PlaybooksList.SplitCountsRuns | components/playbooks-list.tsx:65 | split(/\s+/) gives exactly one piece more than the number of maximal whitespace runs |
| PlaybooksList.LeadingWhitespaceGivesEmptyPiece | components/playbooks-list.tsx:65 | leading whitespace makes the first piece empty |
| PlaybooksList.TrailingWhitespaceGivesEmptyPiece | components/playbooks-list.tsx:65 | trailing whitespace makes the last piece empty, and it is counted |
| PlaybooksList.WordCount | components/playbooks-list.tsx:64-66 | the word count is the number of whitespace runs plus one, hence at least 1 even for empty content |
| PlaybooksList.NoWhitespaceIsOneWord | components/playbooks-list.tsx:64-66 | content without whitespace counts as one word |
| PlaybooksList.ReadTime | components/playbooks-list.tsx:73 | the read time is the integer ceiling of wordCount/200: 200·(t−1) < wordCount ≤ 200·t, so it is at least 1 for any word count of at least 1 |

## Left out

- Rendering, animation, styling, toasts and icons are left out. They do not change the modelled state.
- `localStorage` and JSON are abstracted. The slot is a field, and serialising then parsing is the identity on `Json(list)`. Dates come back from `JSON.parse` as strings, and the code never re-parses them. That type change is not modelled.
- A storage write that throws (quota exceeded) is not modelled. The source does not catch it.
- `Date.now()` and `new Date()` are not modelled. The caller supplies the tick. In `SendMessage` the new conversation, the message id and both timestamps share one tick. In `ReceiveReply` the reply has its own later tick.
- The `setTimeout` delay is left out, and so is the chat interface's loading latch. The reply is a separate later call carrying the captured id.
- React's batching is not modelled. Each handler's state updates are applied in order, as a single sequential run. The stale closure in `deleteConversation` reads the selection current at the call.
- Unicode case mapping is not modelled. `toLowerCase` is ASCII-only. Characters are Unicode scalar values rather than UTF-16 code units, so a character outside the Basic Multilingual Plane counts as one character in `slice`, `length` and the export-name sanitiser, not two.
- The leads filter is the selector's value, "all" or one of the five statuses. Other strings cannot come from the selector.
- Sidebar.ExportFileName: the Blob, object URL and anchor-click download are left out. Only the file name is modelled.
- The textarea auto-resize (`scrollHeight`) is left out, and so is the `preventDefault` that stops Enter from inserting a newline.
- The message box's `isFocused` flag (components/perplexity-message-box.tsx:19) only styles the border and is left out. The search panel's visibility is `ShowsResults` (the query is non-empty); `SearchBox.Choose` ensures it is off after a choice.
- Stored text that parses but is not a list of conversations is not modelled. The slot type cannot hold it. For `"null"`, hooks/use-conversations.ts:18 sets the list to null before `parsed.length` throws at line 19; the catch at line 22 then leaves the list null and rendering fails. A non-array such as `"{}"` is adopted at line 18 without any throw, and nothing is selected.
- The mock data arrays, the analytics and campaign views (whose percentages are floating point), routing and layout are left out. The chat bubble, reference panel and other sidebar toggles are one-line presentational flips and are also left out.
