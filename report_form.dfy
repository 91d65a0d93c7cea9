/**
 * The report draft editor (app/dashboard/_components/ReportForm.tsx): the title and summary
 * fields, and the content blocks and attachments appended and removed by index.
 */
module ReportForm {
  import opened Wrappers
  import opened Api
  import opened Seqs

  /** `defaultData`: the draft a form starts from when it is given no initial data. */
  const EmptyPayload := CreateReportPayload("", "", [], [])

  const BlankAttachment := ReportAttachment(Document, "", "")

  const AttachmentRequiredMessage := "Attachment name and URL are required"

  const CreateFailedMessage := "Failed to create report"

  /** The two inputs wired to handleChange, by their `name` attribute. */
  datatype InputName = TitleInput | BodyInput

  /** The block addContentBlock appends for a given text. */
  function TextBlockOf(text: string): ReportContentBlock {
    ReportContentBlock(TextBlock, Some("Section"), None, Some(text))
  }

  /** `{ ...prev, [name]: value }` for the two named inputs. */
  function WithField(data: CreateReportPayload, name: InputName, value: string): (r: CreateReportPayload)
    ensures r.content == data.content && r.attachments == data.attachments
    ensures name == TitleInput ==> r.title == value && r.body == data.body
    ensures name == BodyInput ==> r.body == value && r.title == data.title
  {
    match name
    case TitleInput => data.(title := value)
    case BodyInput => data.(body := value)
  }

  /** Removing by index keeps every other element, in order, and ignores an index out of range. */
  lemma RemoveByIndex<T>(s: seq<T>, index: int)
    ensures 0 <= index < |s| ==> |DropIndex(s, index)| == |s| - 1
    ensures 0 <= index < |s| ==>
              forall k :: 0 <= k < |s| - 1 ==> DropIndex(s, index)[k] == if k < index then s[k] else s[k + 1]
    ensures !(0 <= index < |s|) ==> DropIndex(s, index) == s
  {
    DropIndexSplices(s, index);
  }

  /** The draft being edited: `formData` and the side inputs of the two builders. */
  class ReportForm {
    var formData: CreateReportPayload
    var isSubmitting: bool
    var error: Option<string>
    var newContentText: string
    var newAttachment: ReportAttachment

    constructor (initialData: CreateReportPayload)
      ensures formData == initialData && !isSubmitting && error == None
      ensures newContentText == "" && newAttachment == BlankAttachment
    {
      formData, isSubmitting, error := initialData, false, None;
      newContentText, newAttachment := "", BlankAttachment;
    }

    /** A form rendered without `initialData` starts from the empty draft. */
    constructor Default()
      ensures formData == EmptyPayload && !isSubmitting && error == None
      ensures newContentText == "" && newAttachment == BlankAttachment
    {
      formData, isSubmitting, error := EmptyPayload, false, None;
      newContentText, newAttachment := "", BlankAttachment;
    }

    /** handleChange: one of title or body takes the typed value; nothing else changes. */
    method HandleChange(name: InputName, value: string)
      modifies this`formData
      ensures formData == WithField(old(formData), name, value)
    {
      formData := WithField(formData, name, value);
    }

    /** The attachment builder's inputs. */
    method SetNewAttachment(a: ReportAttachment)
      modifies this`newAttachment
      ensures newAttachment == a
    {
      newAttachment := a;
    }

    /** The content builder's input. */
    method SetNewContentText(text: string)
      modifies this`newContentText
      ensures newContentText == text
    {
      newContentText := text;
    }

    /**
     * addAttachment: a draft with an empty name or url only sets the error; otherwise one copy of
     * the draft is appended, the draft is reset and the error cleared.
     */
    method AddAttachment()
      modifies this`formData, this`newAttachment, this`error
      ensures old(newAttachment).name == "" || old(newAttachment).url == "" ==>
                && error == Some(AttachmentRequiredMessage)
                && formData == old(formData) && newAttachment == old(newAttachment)
      ensures old(newAttachment).name != "" && old(newAttachment).url != "" ==>
                && formData == old(formData).(attachments := old(formData).attachments + [old(newAttachment)])
                && newAttachment == BlankAttachment && error == None
    {
      if newAttachment.name == "" || newAttachment.url == "" {
        error := Some(AttachmentRequiredMessage);
        return;
      }
      formData := formData.(attachments := formData.attachments + [newAttachment]);
      newAttachment := BlankAttachment;
      error := None;
    }

    /** removeAttachment: drop the attachment at index; title, body and content are untouched. */
    method RemoveAttachment(index: int)
      modifies this`formData
      ensures formData == old(formData).(attachments := DropIndex(old(formData).attachments, index))
    {
      formData := formData.(attachments := DropIndex(formData.attachments, index));
    }

    /** addContentBlock: nothing for empty text; otherwise append a "Section" text block and clear the text. */
    method AddContentBlock()
      modifies this`formData, this`newContentText
      ensures old(newContentText) == "" ==> formData == old(formData) && newContentText == old(newContentText)
      ensures old(newContentText) != "" ==>
                && formData == old(formData).(content := old(formData).content + [TextBlockOf(old(newContentText))])
                && newContentText == ""
    {
      if newContentText == "" {
        return;
      }
      formData := formData.(content := formData.content + [TextBlockOf(newContentText)]);
      newContentText := "";
    }

    /** removeContentBlock: drop the block at index; title, body and attachments are untouched. */
    method RemoveContentBlock(index: int)
      modifies this`formData
      ensures formData == old(formData).(content := DropIndex(old(formData).content, index))
    {
      formData := formData.(content := DropIndex(formData.content, index));
    }

    /**
     * handleSubmit: the draft is handed to onSubmit as it stands; a rejection shows its message,
     * or a generic one when it is not an Error. `sent` is the payload passed to onSubmit.
     */
    method HandleSubmit(outcome: RemoteOutcome) returns (sent: CreateReportPayload)
      modifies this`isSubmitting, this`error
      ensures sent == formData
      ensures !isSubmitting
      ensures outcome.Fulfilled? ==> error == None
      ensures outcome.RejectedWithError? ==> error == Some(outcome.message)
      ensures outcome.RejectedWithValue? ==> error == Some(CreateFailedMessage)
    {
      error := None;
      isSubmitting := true;
      sent := formData;
      if outcome.RejectedWithError? {
        error := Some(outcome.message);
      } else if outcome.RejectedWithValue? {
        error := Some(CreateFailedMessage);
      }
      isSubmitting := false;
    }
  }
}
