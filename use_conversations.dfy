/** The conversation store of the chat page: an ordered list of conversations
    (most recently created first), the id of the selected one, and the durable
    slot the list is written back to. */
module Conversations {

  import opened Wrappers
  import opened Types
  import Text
  import Seqs

  const DefaultTitle: string := "New Conversation"

  /** At most this many characters of a first user message become the title. */
  const TitleLength: nat := 50

  const Ellipsis: string := "..."

  /** What the durable slot holds once the key exists: either text that parses
      as a list of conversations, or text that makes the parser throw. */
  datatype Stored = Json(list: seq<Conversation>) | Malformed

  /** The title the first user message of a conversation gives it: the first
      50 characters of the content, followed by an ellipsis exactly when
      characters were cut off. */
  function DerivedTitle(content: string): (t: string)
    ensures |t| <= TitleLength + |Ellipsis|
    ensures |content| <= TitleLength ==> t == content
    ensures |content| > TitleLength <==>
              |t| == TitleLength + |Ellipsis| && t[..TitleLength] == content[..TitleLength]
              && t[TitleLength..] == Ellipsis
  {
    Seqs.Take(content, TitleLength) + (if |content| > TitleLength then Ellipsis else "")
  }

  /** A conversation created at tick `now`. */
  function NewConversation(now: nat): Conversation
  {
    Conversation(Text.Decimal(now), DefaultTitle, [], now, now)
  }

  predicate HasId(cs: seq<Conversation>, id: string)
  {
    exists i :: 0 <= i < |cs| && cs[i].id == id
  }

  /** The selection refers to a conversation of the list, or to none. */
  predicate SelectionSound(cs: seq<Conversation>, current: Option<string>)
  {
    current.None? || HasId(cs, current.value)
  }

  predicate UniqueIds(cs: seq<Conversation>)
  {
    forall i, j :: 0 <= i < j < |cs| ==> cs[i].id != cs[j].id
  }

  /** Every conversation was last updated no earlier than it was created. */
  predicate Chronological(cs: seq<Conversation>)
  {
    forall i :: 0 <= i < |cs| ==> cs[i].createdAt <= cs[i].updatedAt
  }

  /** The clock has not gone back behind any timestamp of the list. */
  predicate ClockAhead(cs: seq<Conversation>, now: nat)
  {
    forall i :: 0 <= i < |cs| ==> cs[i].updatedAt <= now
  }

  /** Every id is the decimal rendering of a tick earlier than `now`, as ids
      made by `Date.now().toString()` under a strictly increasing clock are. */
  predicate IdsBefore(cs: seq<Conversation>, now: nat)
  {
    forall i :: 0 <= i < |cs| ==>
      Text.ParseDecimal(cs[i].id).Some? && Text.ParseDecimal(cs[i].id).value < now
  }

  /** Position of the first conversation with that id, or |cs| when there is none. */
  function IndexOf(cs: seq<Conversation>, id: string): (k: nat)
    ensures k <= |cs|
    ensures k < |cs| ==> cs[k].id == id
    ensures forall j :: 0 <= j < k ==> cs[j].id != id
  {
    if cs == [] then 0 else if cs[0].id == id then 0 else 1 + IndexOf(cs[1..], id)
  }

  /** `conversations.find((c) => c.id === currentConversationId)`; a null
      selection matches nothing. */
  function Find(cs: seq<Conversation>, current: Option<string>): (r: Option<Conversation>)
    ensures r.Some? <==> current.Some? && HasId(cs, current.value)
    ensures r.Some? ==> r.value.id == current.value && r.value == cs[IndexOf(cs, current.value)]
  {
    if current.None? then None
    else
      var k := IndexOf(cs, current.value);
      if k < |cs| then Some(cs[k]) else None
  }

  /** `prev.filter((c) => c.id !== id)`. */
  function Without(cs: seq<Conversation>, id: string): (r: seq<Conversation>)
    ensures forall i :: 0 <= i < |r| ==> r[i].id != id && r[i] in cs
    ensures forall i :: 0 <= i < |cs| && cs[i].id != id ==> cs[i] in r
    ensures forall c :: multiset(r)[c] == if c.id != id then multiset(cs)[c] else 0
    ensures Seqs.Subsequence(r, cs)
    ensures !HasId(cs, id) ==> r == cs
  {
    var keep := (c: Conversation) => c.id != id;
    Seqs.FilterIsSubsequence(cs, keep);
    Seqs.FilterMultiset(cs, keep);
    if !HasId(cs, id) then Seqs.FilterKeepsAll(cs, keep); Seqs.Filter(cs, keep)
    else Seqs.Filter(cs, keep)
  }

  /** The selection after deleting `id`, given what remains. */
  function SelectionAfterDelete(current: Option<string>, id: string, remaining: seq<Conversation>): Option<string>
  {
    if current == Some(id) && |remaining| > 0 then Some(remaining[0].id)
    else if |remaining| == 0 then None
    else current
  }

  /** `prev.map((c) => (c.id === id ? { ...c, title, updatedAt: new Date() } : c))`. */
  function Renamed(cs: seq<Conversation>, id: string, title: string, now: nat): (r: seq<Conversation>)
    ensures |r| == |cs|
    ensures forall i :: 0 <= i < |cs| ==>
              r[i].id == cs[i].id && r[i].messages == cs[i].messages && r[i].createdAt == cs[i].createdAt
    ensures forall i :: 0 <= i < |cs| && cs[i].id == id ==> r[i].title == title && r[i].updatedAt == now
    ensures forall i :: 0 <= i < |cs| && cs[i].id != id ==> r[i] == cs[i]
    ensures !HasId(cs, id) ==> r == cs
  {
    Seqs.Update(cs, (c: Conversation) => c.id == id, (c: Conversation) => c.(title := title, updatedAt := now))
  }

  /** One conversation after `message` is appended to it at tick `now`. */
  function WithMessage(c: Conversation, message: Message, now: nat): Conversation
  {
    var title := if |c.messages| == 0 && message.role == User then DerivedTitle(message.content) else c.title;
    c.(messages := c.messages + [message], title := title, updatedAt := now)
  }

  /** The list after `addMessage(id, message)`: every conversation with that id
      gets the message at the end of its thread, a derived title if this was
      its first message and a user one, and a fresh `updatedAt`. */
  function MessageAdded(cs: seq<Conversation>, id: string, message: Message, now: nat): (r: seq<Conversation>)
    ensures |r| == |cs|
    ensures forall i :: 0 <= i < |cs| ==>
              r[i].id == cs[i].id && r[i].createdAt == cs[i].createdAt && cs[i].messages <= r[i].messages
    ensures forall i :: 0 <= i < |cs| && cs[i].id == id ==>
              r[i].messages == cs[i].messages + [message] && r[i].updatedAt == now
              && r[i].title == (if cs[i].messages == [] && message.role == User
                                then DerivedTitle(message.content) else cs[i].title)
    ensures forall i :: 0 <= i < |cs| && cs[i].id != id ==> r[i] == cs[i]
    ensures !HasId(cs, id) ==> r == cs
  {
    Seqs.Update(cs, (c: Conversation) => c.id == id, (c: Conversation) => WithMessage(c, message, now))
  }

  /** Ids stay distinct in any subsequence of a list with distinct ids. */
  lemma {:induction false} SubsequenceKeepsUniqueIds(a: seq<Conversation>, b: seq<Conversation>)
    requires Seqs.Subsequence(a, b) && UniqueIds(b)
    ensures UniqueIds(a)
    ensures forall i :: 0 <= i < |a| ==> a[i] in b
    decreases |b|
  {
    if a != [] {
      assert b != [];
      var b' := b[1..];
      assert UniqueIds(b') by {
        forall i, j | 0 <= i < j < |b'| ensures b'[i].id != b'[j].id {
          assert b'[i] == b[i + 1] && b'[j] == b[j + 1];
        }
      }
      if a[0] == b[0] {
        SubsequenceKeepsUniqueIds(a[1..], b');
        forall i, j | 0 <= i < j < |a| ensures a[i].id != a[j].id {
          assert a[j] == a[1..][j - 1];
          if i == 0 {
            var k :| 0 <= k < |b'| && b'[k] == a[j];
            assert b[0] == a[0] && b[k + 1] == a[j];
          } else {
            assert a[i] == a[1..][i - 1];
          }
        }
        forall i | 0 <= i < |a| ensures a[i] in b {
          if i > 0 { assert a[i] == a[1..][i - 1]; }
        }
      } else {
        SubsequenceKeepsUniqueIds(a, b');
      }
    }
  }

  /** Deleting keeps the selection pointing into the list. */
  lemma DeleteKeepsSelectionSound(cs: seq<Conversation>, current: Option<string>, id: string)
    requires SelectionSound(cs, current)
    ensures SelectionSound(Without(cs, id), SelectionAfterDelete(current, id, Without(cs, id)))
  {
  }

  /** Deleting an id that is not in the list leaves both the list and a sound
      selection as they were. */
  lemma DeleteUnknownIsNoOp(cs: seq<Conversation>, current: Option<string>, id: string)
    requires SelectionSound(cs, current) && !HasId(cs, id)
    ensures Without(cs, id) == cs
    ensures SelectionAfterDelete(current, id, cs) == current
  {
  }

  /** Deleting keeps the ids distinct. */
  lemma DeleteKeepsUniqueIds(cs: seq<Conversation>, id: string)
    requires UniqueIds(cs)
    ensures UniqueIds(Without(cs, id))
  {
    SubsequenceKeepsUniqueIds(Without(cs, id), cs);
  }

  /** Under a strictly increasing clock a new conversation's id is fresh, so
      creating keeps the ids distinct. */
  lemma CreateKeepsUniqueIds(cs: seq<Conversation>, now: nat)
    requires UniqueIds(cs) && IdsBefore(cs, now)
    ensures UniqueIds([NewConversation(now)] + cs)
    ensures IdsBefore([NewConversation(now)] + cs, now + 1)
  {
    var r := [NewConversation(now)] + cs;
    Text.DecimalRoundTrip(now);
    forall i, j | 0 <= i < j < |r| ensures r[i].id != r[j].id {
      if i == 0 {
        assert r[j] == cs[j - 1];
      } else {
        assert r[i] == cs[i - 1] && r[j] == cs[j - 1];
      }
    }
    forall i | 0 <= i < |r|
      ensures Text.ParseDecimal(r[i].id).Some? && Text.ParseDecimal(r[i].id).value < now + 1
    {
      if i > 0 { assert r[i] == cs[i - 1]; }
    }
  }

  /** Renaming and appending keep `createdAt <= updatedAt` when the clock has not
      gone back. */
  lemma UpdatesKeepChronological(cs: seq<Conversation>, id: string, title: string, message: Message, now: nat)
    requires Chronological(cs) && ClockAhead(cs, now)
    ensures Chronological(Renamed(cs, id, title, now)) && ClockAhead(Renamed(cs, id, title, now), now)
    ensures Chronological(MessageAdded(cs, id, message, now)) && ClockAhead(MessageAdded(cs, id, message, now), now)
  {
  }

  /** Sending into a fresh conversation: the new head carries exactly the
      message and, for a user message, the title derived from its content. */
  lemma FirstMessageTitlesNewConversation(cs: seq<Conversation>, message: Message, now: nat, later: nat)
    requires message.role == User
    ensures var r := MessageAdded([NewConversation(now)] + cs, Text.Decimal(now), message, later);
            r[0].messages == [message] && r[0].title == DerivedTitle(message.content)
            && r[0].createdAt == now && r[0].updatedAt == later
  {
  }

  /** A conversation whose first message came from the assistant keeps the
      default title even when a user message follows. */
  lemma AssistantFirstKeepsDefaultTitle(now: nat, reply: Message, question: Message, t1: nat, t2: nat)
    requires reply.role == Assistant
    ensures var id := Text.Decimal(now);
            var once := MessageAdded([NewConversation(now)], id, reply, t1);
            MessageAdded(once, id, question, t2)[0].title == DefaultTitle
  {
  }

  /** The conversation store. `storage` is the durable slot: None while the key
      has never been set. */
  class Store {
    var conversations: seq<Conversation>
    var current: Option<string>
    var storage: Option<Stored>

    /** The write-back effect has run: a non-empty list is what the slot holds. */
    predicate Persisted()
      reads this
    {
      |conversations| > 0 ==> storage == Some(Json(conversations))
    }

    predicate Sound()
      reads this
    {
      SelectionSound(conversations, current)
    }

    /** The conversation the selection refers to, if it refers to one. */
    function CurrentConversation(): (r: Option<Conversation>)
      reads this
      ensures r.Some? <==> current.Some? && HasId(conversations, current.value)
      ensures r.Some? ==> r.value in conversations && r.value.id == current.value
    {
      Find(conversations, current)
    }

    /** Mounting: the state starts empty and unselected; the slot is read once.
        A parsed list is adopted and its first conversation selected; a
        missing key or a parse failure leaves the empty state. Writing the
        adopted list back stores what the slot already held. */
    constructor Mount(slot: Option<Stored>)
      ensures storage == slot
      ensures slot.Some? && slot.value.Json? ==>
                conversations == slot.value.list
                && current == (if |slot.value.list| > 0 then Some(slot.value.list[0].id) else None)
      ensures !(slot.Some? && slot.value.Json?) ==> conversations == [] && current == None
      ensures Persisted() && Sound()
    {
      var adopted := slot.Some? && slot.value.Json?;
      conversations := if adopted then slot.value.list else [];
      current := if adopted && |slot.value.list| > 0 then Some(slot.value.list[0].id) else None;
      storage := slot;
      new;
      if adopted {
        Persist();
      }
    }

    /** The write-back effect: the whole list replaces the snapshot, unless
        the list is empty. */
    method Persist()
      modifies this`storage
      ensures storage == if |conversations| > 0 then Some(Json(conversations)) else old(storage)
    {
      if |conversations| > 0 {
        storage := Some(Json(conversations));
      }
    }

    /** `createConversation`: prepends a new, empty conversation, selects it
        and returns its id. */
    method Create(now: nat) returns (id: string)
      modifies this
      ensures id == Text.Decimal(now)
      ensures conversations == [NewConversation(now)] + old(conversations)
      ensures conversations[0].title == DefaultTitle && conversations[0].messages == []
      ensures current == Some(id) && Sound()
      ensures storage == Some(Json(conversations))
      ensures old(UniqueIds(conversations) && IdsBefore(conversations, now)) ==>
                UniqueIds(conversations) && IdsBefore(conversations, now + 1)
    {
      ghost var before := conversations;
      var c := NewConversation(now);
      conversations := [c] + conversations;
      current := Some(c.id);
      id := c.id;
      Persist();
      assert conversations[0].id == id;
      if UniqueIds(before) && IdsBefore(before, now) {
        CreateKeepsUniqueIds(before, now);
      }
    }

    /** `deleteConversation`: removes every conversation with that id and
        repairs the selection. */
    method Delete(id: string)
      modifies this
      ensures conversations == Without(old(conversations), id)
      ensures old(current) == Some(id) && |conversations| > 0 ==> current == Some(conversations[0].id)
      ensures |conversations| == 0 ==> current == None
      ensures old(current) != Some(id) && |conversations| > 0 ==> current == old(current)
      ensures storage == if |conversations| > 0 then Some(Json(conversations)) else old(storage)
      ensures old(Sound()) ==> Sound()
      ensures old(UniqueIds(conversations)) ==> UniqueIds(conversations)
    {
      ghost var before := conversations;
      ghost var selected := current;
      var filtered := Without(conversations, id);
      if current == Some(id) && |filtered| > 0 {
        current := Some(filtered[0].id);
      } else if |filtered| == 0 {
        current := None;
      }
      conversations := filtered;
      Persist();
      assert current == SelectionAfterDelete(selected, id, filtered);
      if SelectionSound(before, selected) {
        DeleteKeepsSelectionSound(before, selected, id);
      }
      if UniqueIds(before) {
        DeleteKeepsUniqueIds(before, id);
      }
    }

    /** `updateConversationTitle`: sets the title verbatim; no trimming or
        validation happens here. */
    method Rename(id: string, title: string, now: nat)
      modifies this
      ensures conversations == Renamed(old(conversations), id, title, now)
      ensures current == old(current)
      ensures storage == if |conversations| > 0 then Some(Json(conversations)) else old(storage)
      ensures old(Sound()) ==> Sound()
    {
      conversations := Renamed(conversations, id, title, now);
      Persist();
      if current.Some? && HasId(old(conversations), current.value) {
        var k := IndexOf(old(conversations), current.value);
        assert conversations[k].id == current.value;
      }
    }

    /** `addMessage`: appends to the conversation with that id. */
    method AddMessage(id: string, message: Message, now: nat)
      modifies this
      ensures conversations == MessageAdded(old(conversations), id, message, now)
      ensures current == old(current)
      ensures storage == if |conversations| > 0 then Some(Json(conversations)) else old(storage)
      ensures old(Sound()) ==> Sound()
    {
      conversations := MessageAdded(conversations, id, message, now);
      Persist();
      if current.Some? && HasId(old(conversations), current.value) {
        var k := IndexOf(old(conversations), current.value);
        assert conversations[k].id == current.value;
      }
    }

    /** `setCurrentConversationId`: selects unconditionally. */
    method Select(id: string)
      modifies this`current
      ensures current == Some(id)
      ensures Sound() <==> HasId(conversations, id)
    {
      current := Some(id);
    }
  }

  /** Reloading from the slot the store wrote restores the list and selects
      its first conversation. */
  method Reload(s: Store) returns (t: Store)
    requires s.Persisted() && |s.conversations| > 0
    ensures t.conversations == s.conversations
    ensures t.current == Some(s.conversations[0].id)
  {
    t := new Store.Mount(s.storage);
  }

  /** Deleting the last conversation does not clear the slot, so a reload
      brings the deleted conversation back. */
  method ReloadAfterDeletingLast(s: Store) returns (t: Store)
    requires s.Persisted() && |s.conversations| == 1
    modifies s
    ensures s.conversations == [] && s.current == None
    ensures t.conversations == old(s.conversations)
  {
    var id := s.conversations[0].id;
    s.Delete(id);
    t := new Store.Mount(s.storage);
  }
}
