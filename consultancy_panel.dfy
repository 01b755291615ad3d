/** The user's consultancy page of Consultancy.tsx: the query form, the list of the user's cases,
    the case details and the payment that unlocks a solution. */
module ConsultancyPanel {
  import opened Domain
  import opened Text

  /** A fee is payable only when it is truthy: present and not zero. */
  predicate HasPayableFee(c: ConsultancyCase) {
    c.fee.Some? && c.fee.value != 0
  }

  /** The checkout for a case's fee, in paise. */
  function CaseCheckout(c: ConsultancyCase): (r: CheckoutRequest)
    requires HasPayableFee(c)
    ensures r.amountPaise == 100 * c.fee.value && r.amountPaise != 0 && r.currency == "INR"
    ensures r.description == "Payment for case #" + c.id
  {
    CheckoutRequest(c.fee.value * 100, "INR", "Payment for case #" + c.id)
  }

  /** The solution section of the case details: the truthiness tests that decide which blocks
      are rendered. */
  datatype SolutionSection = SolutionSection(
    reviewNotice: bool,       // a pending case
    payPrompt: bool,          // answered and not paid yet
    payEnabled: bool,         // the pay button is enabled
    solution: bool,           // paid: the unlocked solution
    solutionText: bool,
    solutionDocument: bool,
    processedNotice: bool)    // paid, but neither a text nor a document

  function Truthy(s: Option<string>): bool {
    s.Some? && s.value != ""
  }

  function Section(c: ConsultancyCase): (v: SolutionSection)
    ensures v.reviewNotice <==> c.status == Pending
    ensures v.payPrompt <==> c.status != Pending && !c.isPaid
    ensures v.payEnabled <==> HasPayableFee(c)
    ensures v.solution <==> c.isPaid
    ensures v.solutionText <==> c.isPaid && c.solution.Some? && c.solution.value != ""
    ensures v.solutionDocument <==> c.isPaid && c.solutionDocumentName.Some? && c.solutionDocumentName.value != ""
    ensures v.processedNotice <==> c.isPaid && !v.solutionText && !v.solutionDocument
  {
    var paid := c.isPaid;
    SolutionSection(
      c.status == Pending,
      c.status != Pending && !paid,
      HasPayableFee(c),
      paid,
      paid && Truthy(c.solution),
      paid && Truthy(c.solutionDocumentName),
      paid && !Truthy(c.solution) && !Truthy(c.solutionDocumentName))
  }

  /** Exactly one of the review notice, the payment prompt and the solution is shown, and a
      shown solution has at least one block. */
  predicate ShowsOneBlock(v: SolutionSection) {
    && ((v.reviewNotice && !v.payPrompt && !v.solution)
        || (!v.reviewNotice && v.payPrompt && !v.solution)
        || (!v.reviewNotice && !v.payPrompt && v.solution))
    && (v.solution ==> v.solutionText || v.solutionDocument || v.processedNotice)
  }

  /** A case is only ever paid after it was answered, so a paid case is never pending; it may
      be completed, or solution-ready again after a second answer. For every such case the
      details show exactly one block. */
  lemma SectionShowsOneBlock(c: ConsultancyCase)
    requires c.isPaid ==> c.status != Pending
    ensures ShowsOneBlock(Section(c))
  {
  }

  /** The query's attachment line is shown unless the name is the placeholder "N/A". */
  predicate ShowsAttachment(c: ConsultancyCase) {
    c.documentName != Some("N/A")
  }

  class ConsultancyForm {
    var issue: string
    var document: Option<FileRef>
    var fileName: string
    var selectedCase: Option<ConsultancyCase>
    var isSubmitting: bool

    constructor()
      ensures issue == "" && document == None && fileName == "" && selectedCase == None && !isSubmitting
    {
      issue := "";
      document := None;
      fileName := "";
      selectedCase := None;
      isSubmitting := false;
    }

    /** The submit button is disabled for a blank query and while a submission settles. */
    predicate SubmitDisabled()
      reads this
    {
      IsBlank(issue) || isSubmitting
    }

    method SetIssue(value: string)
      modifies this`issue
      ensures issue == value
    {
      issue := value;
    }

    /** `handleFileChange`: a chosen file is attached and its name shown; an empty selection
        changes nothing. */
    method FileChange(file: Option<FileRef>)
      modifies this`document, this`fileName
      ensures file.None? ==> document == old(document) && fileName == old(fileName)
      ensures file.Some? ==> document == file && fileName == file.value.name
    {
      if file.Some? {
        document := file;
        fileName := file.value.name;
      }
    }

    /** `handleSubmit`: a blank query is ignored; otherwise the query and its attachment go to
        the controller and the form is marked as submitting. */
    method Submit() returns (submitted: Option<(string, Option<FileRef>)>)
      modifies this`isSubmitting
      ensures IsBlank(issue) ==> submitted == None && isSubmitting == old(isSubmitting)
      ensures !IsBlank(issue) ==> submitted == Some((issue, document)) && isSubmitting
      ensures !old(SubmitDisabled()) ==> submitted.Some?
    {
      if IsBlank(issue) {
        return None;
      }
      isSubmitting := true;
      submitted := Some((issue, document));
    }

    /** The timer that follows a submission: the form is cleared and enabled again. */
    method SubmitSettled()
      modifies this`issue, this`document, this`fileName, this`isSubmitting
      ensures issue == "" && document == None && fileName == "" && !isSubmitting
    {
      issue := "";
      document := None;
      fileName := "";
      isSubmitting := false;
    }

    method ViewDetails(c: ConsultancyCase)
      modifies this`selectedCase
      ensures selectedCase == Some(c)
    {
      selectedCase := Some(c);
    }

    method CloseDetails()
      modifies this`selectedCase
      ensures selectedCase == None
    {
      selectedCase := None;
    }

    /** `handlePayForSolution`: a case without a payable fee gets no checkout (only an alert).
        Otherwise the checkout asks for the fee in paise; its success reports the paid case id
        and marks the case shown in the details paid and completed, while a failure or a
        dismissal leaves everything as it was. */
    method PayForSolution(c: ConsultancyCase, event: PaymentEvent)
      returns (checkout: Option<CheckoutRequest>, paidCaseId: Option<string>)
      modifies this`selectedCase
      ensures !HasPayableFee(c) ==> checkout == None && paidCaseId == None && selectedCase == old(selectedCase)
      ensures HasPayableFee(c) ==> checkout == Some(CaseCheckout(c))
      ensures HasPayableFee(c) && event.PaymentSucceeded? ==>
        paidCaseId == Some(c.id)
        && selectedCase == (if old(selectedCase).Some?
                            then Some(old(selectedCase).value.(isPaid := true, status := Completed))
                            else None)
      ensures !(HasPayableFee(c) && event.PaymentSucceeded?) ==>
        paidCaseId == None && selectedCase == old(selectedCase)
    {
      if !HasPayableFee(c) {
        return None, None;
      }
      checkout := Some(CaseCheckout(c));
      paidCaseId := None;
      if event.PaymentSucceeded? {
        paidCaseId := Some(c.id);
        if selectedCase.Some? {
          selectedCase := Some(selectedCase.value.(isPaid := true, status := Completed));
        }
      }
    }
  }

  /** Paying from the details of an answered case unlocks its solution in the same view. */
  method PayFromDetails(form: ConsultancyForm, c: ConsultancyCase, paymentId: string)
    returns (checkout: Option<CheckoutRequest>, paidCaseId: Option<string>)
    requires c.status == SolutionReady && !c.isPaid && HasPayableFee(c)
    modifies form
    ensures checkout.Some? && checkout.value.amountPaise == 100 * c.fee.value
    ensures paidCaseId == Some(c.id)
    ensures form.selectedCase.Some? && Section(form.selectedCase.value).solution
    ensures !Section(form.selectedCase.value).payPrompt
  {
    form.ViewDetails(c);
    assert Section(c).payPrompt && Section(c).payEnabled;
    checkout, paidCaseId := form.PayForSolution(c, PaymentSucceeded(paymentId));
  }
}
