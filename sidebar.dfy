/** The sidebar: the rename edit flow, the export file name and the cap on the
    number of listed conversations. */
module Sidebar {

  import opened Wrappers
  import opened Types
  import opened Text
  import Seqs

  /** The sidebar lists at most this many conversations. */
  const ListedLimit: nat := 10

  /** A call of the `onRenameConversation` callback. */
  datatype RenameRequest = RenameRequest(id: string, title: string)

  /** The conversations the sidebar shows: `conversations.slice(0, 10)`. */
  function Listed(cs: seq<Conversation>): (r: seq<Conversation>)
    ensures |r| <= ListedLimit
    ensures |r| == ListedLimit || r == cs
    ensures r <= cs
  {
    Seqs.Take(cs, ListedLimit)
  }

  predicate IsAsciiAlphanumeric(c: char)
  {
    'a' <= c <= 'z' || 'A' <= c <= 'Z' || '0' <= c <= '9'
  }

  function Underscored(s: string): (r: string)
    ensures |r| == |s|
    ensures forall i :: 0 <= i < |s| ==> r[i] == if IsAsciiAlphanumeric(s[i]) then s[i] else '_'
  {
    if s == [] then [] else [if IsAsciiAlphanumeric(s[0]) then s[0] else '_'] + Underscored(s[1..])
  }

  /** `title.replace(/[^a-z0-9]/gi, "_").toLowerCase() + ".json"`: one character
      per title character, each a lower-case letter, a digit or `_`. */
  function ExportFileName(title: string): (name: string)
    ensures |name| == |title| + 5 && name[|title|..] == ".json"
    ensures forall i :: 0 <= i < |title| ==>
              ('a' <= name[i] <= 'z' || '0' <= name[i] <= '9' || name[i] == '_')
    ensures forall i :: 0 <= i < |title| && IsAsciiAlphanumeric(title[i]) ==> name[i] == LowerChar(title[i])
    ensures forall i :: 0 <= i < |title| && !IsAsciiAlphanumeric(title[i]) ==> name[i] == '_'
  {
    Lower(Underscored(title)) + ".json"
  }

  /** The edit state: which conversation is being renamed and the text typed so far. */
  class RenameEditor {
    var editingId: Option<string>
    var editTitle: string

    constructor ()
      ensures editingId == None && editTitle == ""
    {
      editingId := None;
      editTitle := "";
    }

    /** `startEditing`: the field starts from the conversation's current title. */
    method StartEditing(c: Conversation)
      modifies this
      ensures editingId == Some(c.id) && editTitle == c.title
    {
      editingId := Some(c.id);
      editTitle := c.title;
    }

    /** The input's `onChange`. */
    method Type(text: string)
      modifies this`editTitle
      ensures editTitle == text && editingId == old(editingId)
    {
      editTitle := text;
    }

    /** `saveEdit`: asks for a rename, with the trimmed text, only when a
        conversation is being edited and the text is not blank; it leaves edit
        mode in every case and keeps the typed text. */
    method SaveEdit() returns (request: Option<RenameRequest>)
      modifies this`editingId
      ensures request.Some? <==> !Falsy(old(editingId)) && !IsBlank(editTitle)
      ensures request.Some? ==>
                request.value == RenameRequest(old(editingId).value, Trim(editTitle))
                && request.value.title != [] && Trim(request.value.title) == request.value.title
      ensures editingId == None && editTitle == old(editTitle)
    {
      if !Falsy(editingId) && !IsBlank(editTitle) {
        request := Some(RenameRequest(editingId.value, Trim(editTitle)));
        TrimIdempotent(editTitle);
      } else {
        request := None;
      }
      editingId := None;
    }

    /** `cancelEdit`: leaves edit mode and clears the text, renaming nothing. */
    method CancelEdit()
      modifies this
      ensures editingId == None && editTitle == ""
    {
      editingId := None;
      editTitle := "";
    }

    /** The input's `onKeyDown`: Enter saves, Escape cancels, other keys do nothing. */
    method KeyDown(key: string) returns (request: Option<RenameRequest>)
      modifies this
      ensures key == "Enter" ==>
                editingId == None && editTitle == old(editTitle)
                && request == (if !Falsy(old(editingId)) && !IsBlank(old(editTitle))
                               then Some(RenameRequest(old(editingId).value, Trim(old(editTitle)))) else None)
      ensures key == "Escape" ==> editingId == None && editTitle == "" && request == None
      ensures key != "Enter" && key != "Escape" ==>
                editingId == old(editingId) && editTitle == old(editTitle) && request == None
    {
      request := None;
      if key == "Enter" {
        request := SaveEdit();
      }
      if key == "Escape" {
        CancelEdit();
      }
    }
  }
}
