/** The admin screen of Admin.tsx: the document table of one type, newest first, the
    category labels of the user table, and the two modals it opens. */
module AdminPanel {
  import opened Domain
  import opened Lists
  import opened Catalog

  /** `USER_CATEGORIES.find(...)?.label || 'N/A'`. */
  function GetUserCategoryLabel(c: UserCategory): (r: string)
    ensures c == Unknown ==> r == "N/A"
    ensures c != Unknown ==> r == FindCategory(c).value.displayName
  {
    var info := FindCategory(c);
    if info.Some? && info.value.displayName != "" then info.value.displayName else "N/A"
  }

  /** `filteredDocs`: the documents of the active tab, newest first. */
  function FilteredDocs(documents: seq<LibraryDocument>, tab: DocumentType): (r: seq<LibraryDocument>)
    ensures SortedDesc(r, DocDate)
    ensures forall i :: 0 <= i < |r| ==> r[i].docType == tab
  {
    var r := SortNewestFirst(Filter(documents, IsOfType(tab)), DocDate);
    SortNewestFirstSorted(Filter(documents, IsOfType(tab)), DocDate);
    forall i | 0 <= i < |r| ensures r[i].docType == tab {
      assert r[i] in multiset(Filter(documents, IsOfType(tab)));
    }
    r
  }

  /** The table lists each document of the tab as often as the store holds it, and nothing else. */
  lemma FilteredDocsExact(documents: seq<LibraryDocument>, tab: DocumentType, d: LibraryDocument)
    ensures multiset(FilteredDocs(documents, tab))[d] == if d.docType == tab then multiset(documents)[d] else 0
  {
    FilterMultiset(documents, IsOfType(tab), d);
  }

  /** Documents of the same date keep their store order. */
  lemma FilteredDocsStable(documents: seq<LibraryDocument>, tab: DocumentType, date: int)
    ensures Filter(FilteredDocs(documents, tab), KeyIs(DocDate, date))
         == Filter(Filter(documents, IsOfType(tab)), KeyIs(DocDate, date))
  {
    SortStable(Filter(documents, IsOfType(tab)), DocDate, date);
  }

  /** What the document form's submit asks the application to do. */
  datatype DocumentCall = UpdateDocument(doc: LibraryDocument) | AddDocument(doc: LibraryDocument)

  /** What the case form's submit forwards to the application. */
  datatype CaseUpdateCall = CaseUpdateCall(caseId: string, solution: string, fee: int, solutionFile: Option<FileRef>)

  class Panel {
    var activeLibTab: DocumentType
    var isDocModalOpen: bool
    var editingDoc: Option<LibraryDocument>
    var selectedCase: Option<ConsultancyCase>
    var isCaseModalOpen: bool

    constructor()
      ensures activeLibTab == BareAct && !isDocModalOpen && editingDoc == None
      ensures selectedCase == None && !isCaseModalOpen
    {
      activeLibTab := BareAct;
      isDocModalOpen := false;
      editingDoc := None;
      selectedCase := None;
      isCaseModalOpen := false;
    }

    method SelectLibTab(tab: DocumentType)
      modifies this`activeLibTab
      ensures activeLibTab == tab
    {
      activeLibTab := tab;
    }

    method OpenAddDocModal()
      modifies this`editingDoc, this`isDocModalOpen
      ensures editingDoc == None && isDocModalOpen
    {
      editingDoc := None;
      isDocModalOpen := true;
    }

    method OpenEditDocModal(doc: LibraryDocument)
      modifies this`editingDoc, this`isDocModalOpen
      ensures editingDoc == Some(doc) && isDocModalOpen
    {
      editingDoc := Some(doc);
      isDocModalOpen := true;
    }

    method CloseDocModal()
      modifies this`editingDoc, this`isDocModalOpen
      ensures editingDoc == None && !isDocModalOpen
    {
      isDocModalOpen := false;
      editingDoc := None;
    }

    /** `handleDocFormSubmit`: an update while a document is being edited, an addition
        otherwise; either way the modal closes and the edit is forgotten. */
    method DocFormSubmit(doc: LibraryDocument) returns (call: DocumentCall)
      modifies this`editingDoc, this`isDocModalOpen
      ensures call == if old(editingDoc).Some? then UpdateDocument(doc) else AddDocument(doc)
      ensures editingDoc == None && !isDocModalOpen
    {
      if editingDoc.Some? {
        call := UpdateDocument(doc);
      } else {
        call := AddDocument(doc);
      }
      CloseDocModal();
    }

    method OpenCaseModal(c: ConsultancyCase)
      modifies this`selectedCase, this`isCaseModalOpen
      ensures selectedCase == Some(c) && isCaseModalOpen
    {
      selectedCase := Some(c);
      isCaseModalOpen := true;
    }

    method CloseCaseModal()
      modifies this`selectedCase, this`isCaseModalOpen
      ensures selectedCase == None && !isCaseModalOpen
    {
      selectedCase := None;
      isCaseModalOpen := false;
    }

    /** `handleCaseUpdate`: the arguments go to the application unchanged, then the modal closes. */
    method CaseUpdate(caseId: string, solution: string, fee: int, solutionFile: Option<FileRef>)
      returns (call: CaseUpdateCall)
      modifies this`selectedCase, this`isCaseModalOpen
      ensures call.caseId == caseId && call.solution == solution && call.fee == fee
      ensures call.solutionFile == solutionFile
      ensures selectedCase == None && !isCaseModalOpen
    {
      call := CaseUpdateCall(caseId, solution, fee, solutionFile);
      CloseCaseModal();
    }
  }
}
