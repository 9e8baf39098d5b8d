/**
 * The chat page: a list of messages edited through one username/message
 * form, which either posts a message or rewrites the one being edited,
 * plus delete. Choosing a message to edit fills the form from it; leaving
 * edit mode clears it.
 */
module ChatPage {
  import opened Collections
  import opened Text

  datatype Message = Message(id: string, username: string, message: string)

  function MessageId(m: Message): string {
    m.id
  }

  /** The rewrite `handleCreateOrUpdate` applies to the message being edited. */
  function WithText(username: string, message: string): Message -> Message {
    (m: Message) => m.(username := username, message := message)
  }

  /** The message a submit posts; its id is `now` in decimal. */
  function NewMessage(now: int, username: string, message: string): Message {
    Message(IntToString(now), username, message)
  }

  /** Deleting a message just posted under a new id gives back the list as it was. */
  lemma DeleteUndoesPost(messages: seq<Message>, now: int, username: string, message: string)
    requires !HasKey(messages, MessageId, IntToString(now))
    ensures RemoveWhere(messages + [NewMessage(now, username, message)], MessageId, IntToString(now)) == messages
  {
    RemoveOne(messages, NewMessage(now, username, message), [], MessageId);
    assert messages + [NewMessage(now, username, message)] + [] == messages + [NewMessage(now, username, message)];
  }

  /** Saving an edit rewrites the username and text of that message only, in place, and keeps every id. */
  lemma UpdateOnlyThatMessage(before: seq<Message>, m: Message, after: seq<Message>, username: string, message: string)
    requires !HasKey(before, MessageId, m.id) && !HasKey(after, MessageId, m.id)
    ensures UpdateWhere(before + [m] + after, MessageId, m.id, WithText(username, message))
            == before + [Message(m.id, username, message)] + after
    ensures DistinctKeys(before + [m] + after, MessageId) ==>
              DistinctKeys(UpdateWhere(before + [m] + after, MessageId, m.id, WithText(username, message)), MessageId)
  {
    UpdateOne(before, m, after, MessageId, WithText(username, message));
    UpdateKeepsKeys(before + [m] + after, MessageId, m.id, WithText(username, message));
  }

  /** Deleting a message takes out that message only and keeps the others in their order. */
  lemma DeleteOnlyThatMessage(before: seq<Message>, m: Message, after: seq<Message>)
    requires !HasKey(before, MessageId, m.id) && !HasKey(after, MessageId, m.id)
    ensures RemoveWhere(before + [m] + after, MessageId, m.id) == before + after
  {
    RemoveOne(before, m, after, MessageId);
  }

  class Page {
    var messages: seq<Message>
    var username: string
    var message: string
    var editing: Option<string>

    constructor ()
      ensures messages == [] && username == "" && message == "" && editing == None
    {
      messages := [];
      username := "";
      message := "";
      editing := None;
    }

    /** Whether the page is editing a message: `if (editing)`, so an empty id counts as none. */
    predicate Editing()
      reads this
    {
      editing.Some? && editing.value != ""
    }

    /** Typing into the form. */
    method EditForm(username: string, message: string)
      modifies this`username, this`message
      ensures this.username == username && this.message == message
    {
      this.username := username;
      this.message := message;
    }

    /**
     * The prefill effect, run after `editing` has changed: a message id
     * fills the form from that message (if it still exists), no id clears
     * the form.
     */
    method EditingChanged()
      modifies this`username, this`message
      ensures !Editing() ==> username == "" && message == ""
      ensures Editing() && !HasKey(messages, MessageId, editing.value) ==>
                username == old(username) && message == old(message)
      ensures Editing() && HasKey(messages, MessageId, editing.value) ==>
                username == Find(messages, MessageId, editing.value).value.username
                && message == Find(messages, MessageId, editing.value).value.message
    {
      if Editing() {
        var found := Find(messages, MessageId, editing.value);
        if found.Some? {
          username := found.value.username;
          message := found.value.message;
        }
      } else {
        username := "";
        message := "";
      }
    }

    /** `handleCreateOrUpdate`; a new message's id is `now` in decimal. */
    method HandleCreateOrUpdate(now: int)
      modifies this`messages, this`username, this`message, this`editing
      ensures IsBlank(old(username)) || IsBlank(old(message)) ==>
                messages == old(messages) && username == old(username) && message == old(message)
                && editing == old(editing)
      ensures !IsBlank(old(username)) && !IsBlank(old(message)) && old(Editing()) ==>
                && messages == UpdateWhere(old(messages), MessageId, old(editing).value, WithText(old(username), old(message)))
                && editing == None && username == "" && message == ""
      ensures !IsBlank(old(username)) && !IsBlank(old(message)) && !old(Editing()) ==>
                && messages == old(messages) + [NewMessage(now, old(username), old(message))]
                && editing == old(editing) && username == "" && message == ""
    {
      if IsBlank(username) || IsBlank(message) {
        return;
      }
      if Editing() {
        messages := UpdateWhere(messages, MessageId, editing.value, WithText(username, message));
        editing := None;
        EditingChanged();
      } else {
        messages := messages + [NewMessage(now, username, message)];
      }
      username := "";
      message := "";
    }

    /** `handleEdit`: choosing a message to edit, followed by the prefill effect when the choice changed. */
    method HandleEdit(id: string)
      modifies this`editing, this`username, this`message
      ensures editing == Some(id)
      ensures old(editing) == Some(id) ==> username == old(username) && message == old(message)
      ensures old(editing) != Some(id) && id != "" && HasKey(messages, MessageId, id) ==>
                username == Find(messages, MessageId, id).value.username
                && message == Find(messages, MessageId, id).value.message
      ensures id != "" && !HasKey(messages, MessageId, id) ==> username == old(username) && message == old(message)
      ensures old(editing) != Some(id) && id == "" ==> username == "" && message == ""
    {
      if editing != Some(id) {
        editing := Some(id);
        EditingChanged();
      }
    }

    /** The Cancel button: leave edit mode; the prefill effect clears the form when that changed `editing`. */
    method HandleCancel()
      modifies this`editing, this`username, this`message
      ensures editing == None
      ensures old(editing).Some? ==> username == "" && message == ""
      ensures old(editing).None? ==> username == old(username) && message == old(message)
    {
      if editing != None {
        editing := None;
        EditingChanged();
      }
    }

    /** `handleDelete`: leaving edit mode on the deleted message clears the form. */
    method HandleDelete(id: string)
      modifies this`messages, this`editing, this`username, this`message
      ensures messages == RemoveWhere(old(messages), MessageId, id)
      ensures !HasKey(messages, MessageId, id)
      ensures old(editing) == Some(id) ==> editing == None && username == "" && message == ""
      ensures old(editing) != Some(id) ==>
                editing == old(editing) && username == old(username) && message == old(message)
    {
      messages := RemoveWhere(messages, MessageId, id);
      if editing == Some(id) {
        editing := None;
        EditingChanged();
      }
    }
  }
}
