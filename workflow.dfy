/**
 * The hiring-workflow document: a markdown text shown read-only, which the
 * recruiter can open in an editor, change, and then save or abandon.
 */
module Workflow {
  import opened Wrappers

  /** How reading the document ended: its text, or the message of the failure. */
  datatype Fetched = Text(text: string) | Failed(message: string)

  class WorkflowView {
    /** The committed document. */
    var markdownContent: string
    /** The editor's draft. */
    var editedContent: string
    var isEditing: bool
    var isLoading: bool
    var error: Option<string>

    constructor ()
      ensures markdownContent == "" && editedContent == "" && !isEditing && isLoading && error == None
    {
      markdownContent, editedContent := "", "";
      isEditing, isLoading, error := false, true, None;
    }

    /** The document arrived or could not be read; either way loading ends. */
    method Load(fetched: Fetched)
      modifies this
      ensures !isLoading && isEditing == old(isEditing)
      ensures fetched.Text? ==> markdownContent == fetched.text && editedContent == fetched.text && error == old(error)
      ensures fetched.Failed? ==> error == Some(fetched.message)
      ensures fetched.Failed? ==> markdownContent == old(markdownContent) && editedContent == old(editedContent)
    {
      match fetched {
        case Text(text) =>
          markdownContent := text;
          editedContent := text;
        case Failed(message) =>
          error := Some(message);
      }
      isLoading := false;
    }

    /** `handleEdit`: the editor opens on the committed document. */
    method Edit()
      modifies this
      ensures isEditing && editedContent == markdownContent
      ensures markdownContent == old(markdownContent) && isLoading == old(isLoading) && error == old(error)
    {
      editedContent := markdownContent;
      isEditing := true;
    }

    /** The textarea's `onChange`: the draft follows the editor. */
    method Type(text: string)
      modifies this
      ensures editedContent == text
      ensures markdownContent == old(markdownContent) && isEditing == old(isEditing)
      ensures isLoading == old(isLoading) && error == old(error)
    {
      editedContent := text;
    }

    /** `handleCancel`: the editor closes and the document stays as it was. */
    method Cancel()
      modifies this
      ensures !isEditing
      ensures markdownContent == old(markdownContent) && editedContent == old(editedContent)
      ensures isLoading == old(isLoading) && error == old(error)
    {
      isEditing := false;
    }

    /** `handleSave`: the draft becomes the document and the editor closes. */
    method Save()
      modifies this
      ensures !isEditing && markdownContent == old(editedContent)
      ensures editedContent == old(editedContent) && isLoading == old(isLoading) && error == old(error)
    {
      markdownContent := editedContent;
      isEditing := false;
    }
  }

  /** Opening the editor and saving straight away leaves the document unchanged. */
  method EditThenSave(view: WorkflowView)
    modifies view
    ensures view.markdownContent == old(view.markdownContent) && !view.isEditing
  {
    view.Edit();
    view.Save();
  }

  /**
   * A draft typed and then abandoned does not come back: opening the editor
   * again shows the committed document.
   */
  method CancelledDraftIsDiscarded(view: WorkflowView, draft: string)
    modifies view
    ensures view.isEditing && view.editedContent == view.markdownContent == old(view.markdownContent)
  {
    view.Edit();
    view.Type(draft);
    view.Cancel();
    view.Edit();
  }

  /** Typing a text and saving makes it the document. */
  method EditTypeSave(view: WorkflowView, text: string)
    modifies view
    ensures view.markdownContent == text && view.editedContent == text && !view.isEditing
  {
    view.Edit();
    view.Type(text);
    view.Save();
  }
}
