/**
 * The comment prompt of components/comment-dialog.tsx: a text field whose
 * "Add Comment" button fires only for text that is not all whitespace.
 */
module CommentBox {
  import opened JsString

  /** The callback an interaction with the dialog fires, if any. */
  datatype Callback = OnSave(text: string) | OnCancel | NoCallback

  /** Clicking "Add Comment", clicking "Cancel", or closing the dialog. */
  datatype DialogEvent = AddClicked | CancelClicked | Closed

  /** Whether `text` holds a character other than whitespace. */
  predicate HasContent(text: string) {
    exists i :: 0 <= i < |text| && !IsWhitespace(text[i])
  }

  class CommentDialog {
    var comment: string

    constructor ()
      ensures comment == ""
    {
      comment := "";
    }

    /** The text area's `onChange`. */
    method OnChange(value: string)
      modifies this
      ensures comment == value
    {
      comment := value;
    }

    /** `disabled={!comment.trim()}` of the "Add Comment" button. */
    predicate AddDisabled(): (disabled: bool)
      reads this
      ensures disabled <==> !HasContent(comment)
    {
      TrimEmptyIffBlank(comment);
      Trim(comment) == ""
    }

    /**
     * `handleSave`: fires `onSave` with the comment as typed (untrimmed)
     * exactly when it has content, which is exactly when the button is enabled.
     */
    method HandleSave() returns (call: Callback)
      ensures call.OnSave? <==> HasContent(comment)
      ensures call.OnSave? <==> !AddDisabled()
      ensures call.OnSave? ==> call.text == comment
      ensures !call.OnSave? ==> call == NoCallback
    {
      TrimEmptyIffBlank(comment);
      if Trim(comment) != "" {
        call := OnSave(comment);
      } else {
        call := NoCallback;
      }
    }

    /**
     * The dialog's wiring: "Cancel" and closing call `onCancel`; "Add Comment"
     * is not clickable while disabled and otherwise runs `handleSave`.
     */
    method Handle(event: DialogEvent) returns (call: Callback)
      ensures event != AddClicked ==> call == OnCancel
      ensures event == AddClicked ==> (call == OnSave(comment) <==> HasContent(comment))
      ensures event == AddClicked ==> call != OnCancel
      ensures call.OnSave? ==> call.text == comment
    {
      if event == AddClicked {
        if AddDisabled() {
          call := NoCallback;
        } else {
          call := HandleSave();
        }
      } else {
        call := OnCancel;
      }
    }
  }
}
