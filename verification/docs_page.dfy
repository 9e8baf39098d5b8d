/**
 * The docs page: a list of documents edited through one title/content
 * form, which either creates a document or rewrites the one being edited,
 * and a list of uploaded files that can be renamed and deleted. Choosing a
 * document to edit fills the form from it; leaving edit mode clears it.
 */
module DocsPage {
  import opened Collections
  import opened Text

  datatype Doc = Doc(id: string, title: string, content: string)

  /** An uploaded file; the browser's `File` object behind it is not modelled. */
  datatype DocFile = DocFile(id: string, name: string, url: string)

  function DocId(d: Doc): string {
    d.id
  }

  function FileId(f: DocFile): string {
    f.id
  }

  /** The rewrite `handleCreateOrUpdate` applies to the document being edited. */
  function WithText(title: string, content: string): Doc -> Doc {
    (d: Doc) => d.(title := title, content := content)
  }

  /** The rewrite `handleFileRename` applies to the renamed file. */
  function Renamed(name: string): DocFile -> DocFile {
    (f: DocFile) => f.(name := name)
  }

  /** The document a submit creates; its id is `now` in decimal. */
  function NewDoc(now: int, title: string, content: string): Doc {
    Doc(IntToString(now), title, content)
  }

  /** Deleting a document just created under a new id gives back the list as it was. */
  lemma DeleteUndoesCreate(docs: seq<Doc>, now: int, title: string, content: string)
    requires !HasKey(docs, DocId, IntToString(now))
    ensures RemoveWhere(docs + [NewDoc(now, title, content)], DocId, IntToString(now)) == docs
  {
    RemoveOne(docs, NewDoc(now, title, content), [], DocId);
    assert docs + [NewDoc(now, title, content)] + [] == docs + [NewDoc(now, title, content)];
  }

  /** Saving an edit rewrites the title and content of that document only, in place, and keeps every id. */
  lemma UpdateOnlyThatDoc(before: seq<Doc>, d: Doc, after: seq<Doc>, title: string, content: string)
    requires !HasKey(before, DocId, d.id) && !HasKey(after, DocId, d.id)
    ensures UpdateWhere(before + [d] + after, DocId, d.id, WithText(title, content))
            == before + [Doc(d.id, title, content)] + after
    ensures DistinctKeys(before + [d] + after, DocId) ==>
              DistinctKeys(UpdateWhere(before + [d] + after, DocId, d.id, WithText(title, content)), DocId)
  {
    UpdateOne(before, d, after, DocId, WithText(title, content));
    UpdateKeepsKeys(before + [d] + after, DocId, d.id, WithText(title, content));
  }

  /** Renaming changes the name of that file only, in place. */
  lemma RenameOnlyThatFile(before: seq<DocFile>, f: DocFile, after: seq<DocFile>, name: string)
    requires !HasKey(before, FileId, f.id) && !HasKey(after, FileId, f.id)
    ensures UpdateWhere(before + [f] + after, FileId, f.id, Renamed(name)) == before + [DocFile(f.id, name, f.url)] + after
  {
    UpdateOne(before, f, after, FileId, Renamed(name));
  }

  /** Deleting a file takes out that file only and keeps the others in their order. */
  lemma DeleteOnlyThatFile(before: seq<DocFile>, f: DocFile, after: seq<DocFile>)
    requires !HasKey(before, FileId, f.id) && !HasKey(after, FileId, f.id)
    ensures RemoveWhere(before + [f] + after, FileId, f.id) == before + after
  {
    RemoveOne(before, f, after, FileId);
  }

  class Page {
    var docs: seq<Doc>
    var title: string
    var content: string
    var editing: Option<string>
    var files: seq<DocFile>

    constructor ()
      ensures docs == [] && title == "" && content == "" && editing == None && files == []
    {
      docs := [];
      title := "";
      content := "";
      editing := None;
      files := [];
    }

    /** Whether the page is editing a document: `if (editing)`, so an empty id counts as none. */
    predicate Editing()
      reads this
    {
      editing.Some? && editing.value != ""
    }

    /** Typing into the form. */
    method EditForm(title: string, content: string)
      modifies this`title, this`content
      ensures this.title == title && this.content == content
    {
      this.title := title;
      this.content := content;
    }

    /**
     * The prefill effect, run after `editing` has changed: a document id
     * fills the form from that document (if it still exists), no id clears
     * the form.
     */
    method EditingChanged()
      modifies this`title, this`content
      ensures !Editing() ==> title == "" && content == ""
      ensures Editing() && !HasKey(docs, DocId, editing.value) ==> title == old(title) && content == old(content)
      ensures Editing() && HasKey(docs, DocId, editing.value) ==>
                title == Find(docs, DocId, editing.value).value.title
                && content == Find(docs, DocId, editing.value).value.content
    {
      if Editing() {
        var found := Find(docs, DocId, editing.value);
        if found.Some? {
          title := found.value.title;
          content := found.value.content;
        }
      } else {
        title := "";
        content := "";
      }
    }

    /** `handleCreateOrUpdate`; a new document's id is `now` in decimal. */
    method HandleCreateOrUpdate(now: int)
      modifies this`docs, this`title, this`content, this`editing
      ensures IsBlank(old(title)) || IsBlank(old(content)) ==>
                docs == old(docs) && title == old(title) && content == old(content) && editing == old(editing)
      ensures !IsBlank(old(title)) && !IsBlank(old(content)) && old(Editing()) ==>
                && docs == UpdateWhere(old(docs), DocId, old(editing).value, WithText(old(title), old(content)))
                && editing == None && title == "" && content == ""
      ensures !IsBlank(old(title)) && !IsBlank(old(content)) && !old(Editing()) ==>
                && docs == old(docs) + [NewDoc(now, old(title), old(content))]
                && editing == old(editing) && title == "" && content == ""
    {
      if IsBlank(title) || IsBlank(content) {
        return;
      }
      if Editing() {
        docs := UpdateWhere(docs, DocId, editing.value, WithText(title, content));
        editing := None;
        EditingChanged();
      } else {
        docs := docs + [NewDoc(now, title, content)];
      }
      title := "";
      content := "";
    }

    /** `handleEdit`: choosing a document to edit, followed by the prefill effect when the choice changed. */
    method HandleEdit(id: string)
      modifies this`editing, this`title, this`content
      ensures editing == Some(id)
      ensures old(editing) == Some(id) ==> title == old(title) && content == old(content)
      ensures old(editing) != Some(id) && id != "" && HasKey(docs, DocId, id) ==>
                title == Find(docs, DocId, id).value.title && content == Find(docs, DocId, id).value.content
      ensures id != "" && !HasKey(docs, DocId, id) ==> title == old(title) && content == old(content)
      ensures old(editing) != Some(id) && id == "" ==> title == "" && content == ""
    {
      if editing != Some(id) {
        editing := Some(id);
        EditingChanged();
      }
    }

    /** The Cancel button: leave edit mode; the prefill effect clears the form when that changed `editing`. */
    method HandleCancel()
      modifies this`editing, this`title, this`content
      ensures editing == None
      ensures old(editing).Some? ==> title == "" && content == ""
      ensures old(editing).None? ==> title == old(title) && content == old(content)
    {
      if editing != None {
        editing := None;
        EditingChanged();
      }
    }

    /** `handleDelete`: leaving edit mode on the deleted document clears the form. */
    method HandleDelete(id: string)
      modifies this`docs, this`editing, this`title, this`content
      ensures docs == RemoveWhere(old(docs), DocId, id)
      ensures !HasKey(docs, DocId, id)
      ensures old(editing) == Some(id) ==> editing == None && title == "" && content == ""
      ensures old(editing) != Some(id) ==> editing == old(editing) && title == old(title) && content == old(content)
    {
      docs := RemoveWhere(docs, DocId, id);
      if editing == Some(id) {
        editing := None;
        EditingChanged();
      }
    }

    /** `handleFileRename`. */
    method HandleFileRename(id: string, name: string)
      modifies this`files
      ensures files == UpdateWhere(old(files), FileId, id, Renamed(name))
    {
      files := UpdateWhere(files, FileId, id, Renamed(name));
    }

    /** `handleFileDelete`. */
    method HandleFileDelete(id: string)
      modifies this`files
      ensures files == RemoveWhere(old(files), FileId, id)
      ensures !HasKey(files, FileId, id)
    {
      files := RemoveWhere(files, FileId, id);
    }
  }
}
