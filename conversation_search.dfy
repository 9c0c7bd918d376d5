/** The conversation search box: a case-insensitive filter over titles and
    message contents, and the result list it drives. */
module ConversationSearch {

  import opened Types
  import opened Text
  import Seqs

  /** Characters of the first message shown under each result. */
  const PreviewLength: nat := 60

  /** Some message of the conversation contains the query, case-insensitively. */
  predicate SomeMessageMatches(msgs: seq<Message>, query: string)
  {
    exists i :: 0 <= i < |msgs| && Contains(Lower(msgs[i].content), Lower(query))
  }

  /** The filter's predicate: the title or some message contains the query,
      both lower-cased. */
  predicate Matches(c: Conversation, query: string)
  {
    Contains(Lower(c.title), Lower(query)) || SomeMessageMatches(c.messages, query)
  }

  /** `filteredConversations`: the matching conversations in list order. */
  function Results(cs: seq<Conversation>, query: string): (r: seq<Conversation>)
    ensures forall i :: 0 <= i < |r| ==> r[i] in cs && Matches(r[i], query)
    ensures forall i :: 0 <= i < |cs| && Matches(cs[i], query) ==> cs[i] in r
    ensures forall c :: multiset(r)[c] == if Matches(c, query) then multiset(cs)[c] else 0
    ensures Seqs.Subsequence(r, cs)
    ensures |r| <= |cs|
  {
    var keep := (c: Conversation) => Matches(c, query);
    Seqs.FilterIsSubsequence(cs, keep);
    Seqs.FilterMultiset(cs, keep);
    Seqs.Filter(cs, keep)
  }

  /** The empty query matches every conversation. */
  lemma EmptyQueryKeepsAll(cs: seq<Conversation>)
    ensures Results(cs, "") == cs
  {
    forall i | 0 <= i < |cs| ensures Matches(cs[i], "") {
      ContainsEmpty(Lower(cs[i].title));
    }
    Seqs.FilterKeepsAll(cs, (c: Conversation) => Matches(c, ""));
  }

  /** The results panel is rendered only for a non-empty query. */
  predicate ShowsResults(query: string)
  {
    query != []
  }

  /** The line under a result: the first 60 characters of the first message
      (nothing when there is none), then a literal "...". */
  function Preview(c: Conversation): (p: string)
    ensures 3 <= |p| <= PreviewLength + 3 && p[|p| - 3..] == "..."
    ensures c.messages == [] ==> p == "..."
    ensures c.messages != [] ==> p[..|p| - 3] <= c.messages[0].content
    ensures c.messages != [] ==>
              |p| == (if |c.messages[0].content| < PreviewLength then |c.messages[0].content| else PreviewLength) + 3
  {
    (if c.messages == [] then "" else Seqs.Take(c.messages[0].content, PreviewLength)) + "..."
  }

  /** The `searchQuery` state of the component. */
  class SearchBox {
    var query: string

    constructor ()
      ensures query == ""
    {
      query := "";
    }

    /** The input's `onChange`. */
    method Type(text: string)
      modifies this
      ensures query == text
    {
      query := text;
    }

    /** Clicking a result: the conversation is reported to `onSelectConversation`
        and the query is cleared, which hides the panel. */
    method Choose(c: Conversation) returns (selected: string)
      modifies this
      ensures selected == c.id
      ensures query == "" && !ShowsResults(query)
    {
      selected := c.id;
      query := "";
    }
  }
}
