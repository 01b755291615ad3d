/** The administrator's document form of DocumentFormModal.tsx, used to add a library document
    or to edit one. */
module DocumentFormModal {
  import opened Domain
  import opened Ids

  /** The form's initial state: each field of the edited document, unless it is falsy, in which
      case the default (a fresh id from the clock, the current tab's type, empty text, today's
      date). A new document takes every default. `now` is the clock in milliseconds and `today`
      the current date as YYYYMMDD. */
  function InitialState(documentToEdit: Option<LibraryDocument>, initialType: DocumentType,
                        now: nat, today: int): (r: LibraryDocument)
    ensures documentToEdit.None? ==>
      r == LibraryDocument(DocumentId(now), initialType, "", "", today, "")
    ensures documentToEdit.Some? ==>
      var d := documentToEdit.value;
      && r.id == (if d.id != "" then d.id else DocumentId(now))
      && r.docType == d.docType
      && r.title == d.title && r.description == d.description && r.content == d.content
      && r.date == (if d.date != 0 then d.date else today)
  {
    match documentToEdit
    case None => LibraryDocument(DocumentId(now), initialType, "", "", today, "")
    case Some(d) =>
      LibraryDocument(if d.id != "" then d.id else DocumentId(now), d.docType, d.title,
                      d.description, if d.date != 0 then d.date else today, d.content)
  }

  /** A document with an id and a date opens unchanged, so submitting it untouched hands back
      the very document that was opened. */
  lemma EditOpensUnchanged(d: LibraryDocument, initialType: DocumentType, now: nat, today: int)
    requires d.id != "" && d.date != 0
    ensures InitialState(Some(d), initialType, now, today) == d
  {
  }

  /** The inputs of the form; each sets the field named by its `name` attribute. The type
      `<select>` is disabled, so it sends no change. */
  datatype DocEdit =
    | SetTitle(title: string)
    | SetDate(date: int)
    | SetDescription(description: string)
    | SetContent(content: string)

  function ApplyEdit(d: LibraryDocument, e: DocEdit): (r: LibraryDocument)
    ensures r.id == d.id
    ensures r.docType == d.docType
    ensures r.title == (if e.SetTitle? then e.title else d.title)
    ensures r.date == (if e.SetDate? then e.date else d.date)
    ensures r.description == (if e.SetDescription? then e.description else d.description)
    ensures r.content == (if e.SetContent? then e.content else d.content)
  {
    match e
    case SetTitle(title) => d.(title := title)
    case SetDate(date) => d.(date := date)
    case SetDescription(description) => d.(description := description)
    case SetContent(content) => d.(content := content)
  }

  function ApplyEdits(d: LibraryDocument, edits: seq<DocEdit>): LibraryDocument
    decreases |edits|
  {
    if edits == [] then d else ApplyEdits(ApplyEdit(d, edits[0]), edits[1..])
  }

  /** No input edits the id or the type: whatever is typed, the form submits under the id and
      the type it opened with. */
  lemma {:induction false} EditsKeepId(d: LibraryDocument, edits: seq<DocEdit>)
    ensures ApplyEdits(d, edits).id == d.id
    ensures ApplyEdits(d, edits).docType == d.docType
    decreases |edits|
  {
    if edits != [] {
      EditsKeepId(ApplyEdit(d, edits[0]), edits[1..]);
    }
  }

  class DocumentForm {
    var formData: LibraryDocument

    constructor(documentToEdit: Option<LibraryDocument>, initialType: DocumentType, now: nat, today: int)
      ensures formData == InitialState(documentToEdit, initialType, now, today)
    {
      formData := InitialState(documentToEdit, initialType, now, today);
    }

    /** The effect run when the inputs change: an open form starts over from its initial
        state; a closed one is left alone. */
    method Reinitialize(isOpen: bool, documentToEdit: Option<LibraryDocument>, initialType: DocumentType,
                        now: nat, today: int)
      modifies this
      ensures isOpen ==> formData == InitialState(documentToEdit, initialType, now, today)
      ensures !isOpen ==> formData == old(formData)
    {
      if isOpen {
        formData := InitialState(documentToEdit, initialType, now, today);
      }
    }

    method Change(e: DocEdit)
      modifies this
      ensures formData == ApplyEdit(old(formData), e)
    {
      formData := ApplyEdit(formData, e);
    }

    /** Submitting the form: the browser holds it back while a required input (title, date,
        description, content) is empty; otherwise `handleSubmit` hands the form data over as
        it stands. */
    method Submit() returns (doc: Option<LibraryDocument>)
      ensures doc.Some? <==> RequiredFilled(formData)
      ensures doc.Some? ==> doc.value == formData
    {
      if RequiredFilled(formData) {
        doc := Some(formData);
      } else {
        doc := None;
      }
    }
  }

  /** The inputs marked required: title, date, description and content. */
  predicate RequiredFilled(d: LibraryDocument) {
    d.title != "" && d.date != 0 && d.description != "" && d.content != ""
  }

  /** A new document's form opens with its text inputs empty, so it cannot be submitted before
      they are filled in. */
  lemma NewFormNotSubmittable(initialType: DocumentType, now: nat, today: int)
    ensures !RequiredFilled(InitialState(None, initialType, now, today))
  {
  }

  /** A stored document with every required field filled opens as a form that can be submitted. */
  lemma FilledDocumentSubmittable(d: LibraryDocument, initialType: DocumentType, now: nat, today: int)
    requires RequiredFilled(d)
    ensures RequiredFilled(InitialState(Some(d), initialType, now, today))
  {
  }

  /** Opening a document, editing it and saving returns the edited document under its own id,
      so the update replaces the document that was opened; the save goes through exactly when
      the new title and content and the kept description are non-empty. */
  method EditAndSave(d: LibraryDocument, title: string, content: string, now: nat, today: int)
    returns (doc: Option<LibraryDocument>)
    requires d.id != "" && d.date != 0
    ensures doc.Some? <==> title != "" && content != "" && d.description != ""
    ensures doc.Some? ==> doc.value == d.(title := title, content := content)
  {
    var form := new DocumentForm(Some(d), d.docType, now, today);
    EditOpensUnchanged(d, d.docType, now, today);
    form.Change(SetTitle(title));
    form.Change(SetContent(content));
    doc := form.Submit();
  }
}
