/** The administrator's case form of AdminCaseModal.tsx: a text solution, a fee and an optional
    PDF, checked before they are forwarded. */
module AdminCaseModal {
  import opened Domain
  import opened Text
  import opened AdminPanel
  import AppShell
  import Lists

  /** The fee input: empty, or the whole number typed into it. */
  datatype FeeInput = Blank | Entered(amount: int)

  const PDF_MIME_TYPE: string := "application/pdf"

  predicate IsPdf(f: FileRef) {
    f.mimeType == PDF_MIME_TYPE
  }

  /** The form is drawn only while it is open and has a case. */
  predicate Rendered(isOpen: bool, caseToEdit: Option<ConsultancyCase>) {
    isOpen && caseToEdit.Some?
  }

  /** Saving is disabled for a completed case. */
  predicate SubmitDisabled(c: ConsultancyCase) {
    c.status == Completed
  }

  /** With the save button disabled for completed cases, an answer the form forwards keeps
      every paid case completed, as long as no completed case shares the answered case's id. */
  lemma EnabledSaveKeepsPaidCompleted(cases: seq<ConsultancyCase>, call: CaseUpdateCall)
    requires AppShell.PaidCasesCompleted(cases)
    requires forall i :: 0 <= i < |cases| && cases[i].id == call.caseId ==> !SubmitDisabled(cases[i])
    ensures AppShell.PaidCasesCompleted(Lists.MapWhere(cases, HasCaseId(call.caseId),
              AppShell.AttachSolution(call.solution, call.fee, call.solutionFile)))
  {
    AppShell.AnswerKeepsPaidCompleted(cases, call.caseId, call.solution, call.fee, call.solutionFile);
  }

  /** The input values a case opens with: its solution or nothing, and its fee unless that is
      missing or zero (both falsy). */
  function InitialSolution(c: ConsultancyCase): (r: string)
    ensures c.solution.Some? ==> r == c.solution.value
    ensures c.solution.None? ==> r == ""
  {
    if c.solution.Some? then c.solution.value else ""
  }

  function InitialFee(c: ConsultancyCase): (r: FeeInput)
    ensures r.Blank? <==> c.fee.None? || c.fee.value == 0
    ensures r.Entered? ==> c.fee == Some(r.amount)
  {
    if c.fee.Some? && c.fee.value != 0 then Entered(c.fee.value) else Blank
  }

  class CaseForm {
    var solution: string
    var fee: FeeInput
    var solutionFile: Option<FileRef>
    var solutionFileName: string

    constructor()
      ensures solution == "" && fee == Blank && solutionFile == None && solutionFileName == ""
      ensures Valid()
    {
      solution := "";
      fee := Blank;
      solutionFile := None;
      solutionFileName := "";
    }

    /** Only a PDF is ever held as the solution file, and its name is the one shown. */
    predicate Valid()
      reads this
    {
      match solutionFile
      case None => solutionFileName == ""
      case Some(f) => IsPdf(f) && solutionFileName == f.name
    }

    /** The reset effect run whenever a case is handed to the form. */
    method Load(c: ConsultancyCase)
      modifies this
      ensures solution == InitialSolution(c) && fee == InitialFee(c)
      ensures solutionFile == None && solutionFileName == ""
      ensures Valid()
    {
      solution := InitialSolution(c);
      fee := InitialFee(c);
      solutionFile := None;
      solutionFileName := "";
    }

    method SetSolution(value: string)
      modifies this`solution
      ensures solution == value
    {
      solution := value;
    }

    method SetFee(value: FeeInput)
      modifies this`fee
      ensures fee == value
    {
      fee := value;
    }

    /** `handleFileChange`: a PDF is taken; any other file is refused and clears the current
        one; an empty selection changes nothing. */
    method FileChange(file: Option<FileRef>)
      requires Valid()
      modifies this`solutionFile, this`solutionFileName
      ensures Valid()
      ensures file.None? ==> solutionFile == old(solutionFile) && solutionFileName == old(solutionFileName)
      ensures file.Some? && IsPdf(file.value) ==> solutionFile == file && solutionFileName == file.value.name
      ensures file.Some? && !IsPdf(file.value) ==> solutionFile == None && solutionFileName == ""
    {
      if file.Some? {
        if IsPdf(file.value) {
          solutionFile := file;
          solutionFileName := file.value.name;
        } else {
          solutionFile := None;
          solutionFileName := "";
        }
      }
    }

    /** Submitting the form: the browser refuses a negative fee (the input's `min="0"`); then
        `handleSubmit` stops with an alert on no fee, or on neither a non-blank solution nor a
        file; otherwise the case id, the solution as typed, the fee and the file are forwarded. */
    method Submit(c: ConsultancyCase) returns (call: Option<CaseUpdateCall>)
      requires Valid()
      ensures fee.Blank? ==> call == None
      ensures fee.Entered? && fee.amount < 0 ==> call == None
      ensures fee.Entered? && IsBlank(solution) && solutionFile.None? ==> call == None
      ensures fee.Entered? && fee.amount >= 0 && !(IsBlank(solution) && solutionFile.None?) ==>
        call == Some(CaseUpdateCall(c.id, solution, fee.amount, solutionFile))
      ensures call.Some? ==> call.value.fee >= 0
      ensures call.Some? ==> call.value.solutionFile.None? || IsPdf(call.value.solutionFile.value)
      ensures call.Some? ==> !IsBlank(call.value.solution) || call.value.solutionFile.Some?
    {
      if fee.Blank? || fee.amount < 0 {
        return None;
      }
      if IsBlank(solution) && solutionFile.None? {
        return None;
      }
      call := Some(CaseUpdateCall(c.id, solution, fee.amount, solutionFile));
    }
  }

  /** Reopening an answered case and saving it unchanged forwards the stored solution and fee,
      so the application's update writes back what the case already held, apart from the file;
      a stored negative fee is refused by the browser's minimum. */
  method ReopenAndSave(form: CaseForm, c: ConsultancyCase) returns (call: Option<CaseUpdateCall>)
    requires c.solution.Some? && !IsBlank(c.solution.value)
    requires c.fee.Some? && c.fee.value != 0
    modifies form
    ensures c.fee.value > 0 ==> call == Some(CaseUpdateCall(c.id, c.solution.value, c.fee.value, None))
    ensures c.fee.value < 0 ==> call == None
    ensures call.Some? ==> var u := AppShell.AttachSolution(call.value.solution, call.value.fee, call.value.solutionFile)(c);
      u.solution == c.solution && u.fee == c.fee && u.status == SolutionReady
  {
    form.Load(c);
    call := form.Submit(c);
  }

  /** A case whose fee is zero reopens with an empty fee, so it cannot be saved again until a
      fee is typed in. */
  method ZeroFeeCannotBeResaved(form: CaseForm, c: ConsultancyCase) returns (call: Option<CaseUpdateCall>)
    requires c.fee == Some(0)
    modifies form
    ensures call == None
  {
    form.Load(c);
    call := form.Submit(c);
  }
}
