/** The chat page: it wires the sidebar and the chat surface to the
    conversation store. */
module ChatPage {

  import opened Wrappers
  import opened Types
  import Text
  import Conversations
  import Sidebar

  /** The fixed text of the simulated assistant reply. */
  const ReplyText: string := "I'll help you with that. Let me process your request..."

  /** The user message sent at tick `now`. */
  function UserMessage(content: string, now: nat): Message
  {
    Message(Text.Decimal(now), User, content, now)
  }

  /** The assistant reply arriving at tick `now`; its id is `Date.now() + 1`. */
  function ReplyMessage(now: nat): Message
  {
    Message(Text.Decimal(now + 1), Assistant, ReplyText, now)
  }

  /** `handleNewConversation`: only creates a conversation. */
  method NewConversation(store: Conversations.Store, now: nat)
    modifies store
    ensures store.conversations == [Conversations.NewConversation(now)] + old(store.conversations)
    ensures store.current == Some(Text.Decimal(now))
    ensures store.storage == Some(Conversations.Json(store.conversations))
  {
    var _ := store.Create(now);
  }

  /** `handleSendMessage`: with no selection a conversation is created first;
      the user message goes to the selected or new conversation, whose id is
      returned so the later reply can be addressed to it. */
  method SendMessage(store: Conversations.Store, content: string, now: nat) returns (target: string)
    modifies store
    ensures Text.Falsy(old(store.current)) ==>
              target == Text.Decimal(now)
              && store.conversations == Conversations.MessageAdded(
                   [Conversations.NewConversation(now)] + old(store.conversations), target, UserMessage(content, now), now)
              && store.conversations[0].messages == [UserMessage(content, now)]
              && store.conversations[0].title == Conversations.DerivedTitle(content)
    ensures !Text.Falsy(old(store.current)) ==>
              target == old(store.current).value
              && store.conversations == Conversations.MessageAdded(old(store.conversations), target, UserMessage(content, now), now)
    ensures store.current == Some(target)
    ensures store.storage == if |store.conversations| > 0 then Some(Conversations.Json(store.conversations))
                             else old(store.storage)
    ensures old(store.Sound()) ==> store.Sound()
  {
    var conversationId := store.current;
    if Text.Falsy(conversationId) {
      var created := store.Create(now);
      conversationId := Some(created);
    }
    target := conversationId.value;
    store.AddMessage(target, UserMessage(content, now), now);
    if Text.Falsy(old(store.current)) {
      Conversations.FirstMessageTitlesNewConversation(old(store.conversations), UserMessage(content, now), now, now);
    }
  }

  /** The delayed reply: appended to the id captured when the message was sent,
      whatever is selected by the time it arrives. */
  method ReceiveReply(store: Conversations.Store, target: string, later: nat)
    modifies store
    ensures store.conversations == Conversations.MessageAdded(old(store.conversations), target, ReplyMessage(later), later)
    ensures store.current == old(store.current)
    ensures store.storage == if |store.conversations| > 0 then Some(Conversations.Json(store.conversations))
                             else old(store.storage)
  {
    store.AddMessage(target, ReplyMessage(later), later);
  }

  /** The sidebar's save wired to `updateConversationTitle`: a blank edit
      renames nothing and leaves the store as it was. */
  method SaveRename(editor: Sidebar.RenameEditor, store: Conversations.Store, now: nat)
    modifies editor, store
    ensures editor.editingId == None && editor.editTitle == old(editor.editTitle)
    ensures !Text.Falsy(old(editor.editingId)) && !Text.IsBlank(old(editor.editTitle)) ==>
              store.conversations == Conversations.Renamed(
                old(store.conversations), old(editor.editingId).value, Text.Trim(old(editor.editTitle)), now)
              && store.storage == if |store.conversations| > 0 then Some(Conversations.Json(store.conversations))
                                  else old(store.storage)
    ensures Text.Falsy(old(editor.editingId)) || Text.IsBlank(old(editor.editTitle)) ==>
              store.conversations == old(store.conversations) && store.storage == old(store.storage)
    ensures store.current == old(store.current)
  {
    var request := editor.SaveEdit();
    if request.Some? {
      store.Rename(request.value.id, request.value.title, now);
    }
  }
}
