/** The library browser of Library.tsx: one tab per document type and a search box that
    matches titles and descriptions without regard to case. */
module LibraryView {
  import opened Domain
  import opened Text
  import opened Lists

  /** The test `filteredDocuments` applies to one document, with the search term already
      lower-cased. */
  function Matches(tab: DocumentType, lowerTerm: string): LibraryDocument -> bool {
    (d: LibraryDocument) =>
      d.docType == tab
      && (lowerTerm == [] || Contains(ToLower(d.title), lowerTerm) || Contains(ToLower(d.description), lowerTerm))
  }

  /** `filteredDocuments`: the documents of the active tab that match the search term. */
  function FilteredDocuments(documents: seq<LibraryDocument>, tab: DocumentType, term: string): (r: seq<LibraryDocument>)
    ensures forall i :: 0 <= i < |r| ==> r[i].docType == tab
    ensures IsSubsequence(r, documents)
  {
    FilterIsSubsequence(documents, Matches(tab, ToLower(term)));
    Filter(documents, Matches(tab, ToLower(term)))
  }

  /** A stored document is listed exactly when it has the active type and, for a non-empty
      term, its lower-cased title or description contains the lower-cased term. */
  lemma FilteredDocumentsIff(documents: seq<LibraryDocument>, tab: DocumentType, term: string, i: nat)
    requires i < |documents|
    ensures var d := documents[i];
      d in FilteredDocuments(documents, tab, term) <==>
        d.docType == tab
        && (term == [] || Contains(ToLower(d.title), ToLower(term)) || Contains(ToLower(d.description), ToLower(term)))
  {
    FilterMembers(documents, Matches(tab, ToLower(term)));
  }

  /** With an empty search box the tab shows every document of its type, in store order. */
  lemma EmptyTermShowsWholeTab(documents: seq<LibraryDocument>, tab: DocumentType)
    ensures FilteredDocuments(documents, tab, "") == Filter(documents, IsOfType(tab))
  {
    FilterAgree(documents, Matches(tab, ToLower("")), IsOfType(tab));
  }

  /** Search ignores the case of ASCII letters in the term. */
  lemma SearchIgnoresCase(documents: seq<LibraryDocument>, tab: DocumentType, term: string)
    ensures FilteredDocuments(documents, tab, ToLower(term)) == FilteredDocuments(documents, tab, term)
  {
    ToLowerIdempotent(term);
  }

  lemma ToLowerIdempotent(s: string)
    ensures ToLower(ToLower(s)) == ToLower(s)
  {
  }

  /** The browser's own state; the documents come from the application as a property. */
  class Browser {
    var activeTab: DocumentType
    var searchTerm: string
    var selectedDoc: Option<LibraryDocument>

    constructor()
      ensures activeTab == BareAct && searchTerm == "" && selectedDoc == None
    {
      activeTab := BareAct;
      searchTerm := "";
      selectedDoc := None;
    }

    function Shown(documents: seq<LibraryDocument>): seq<LibraryDocument>
      reads this
    {
      FilteredDocuments(documents, activeTab, searchTerm)
    }

    /** `handleTabClick`: switch tab and clear the search, so the whole new tab shows. */
    method TabClick(tab: DocumentType)
      modifies this
      ensures activeTab == tab && searchTerm == "" && selectedDoc == old(selectedDoc)
      ensures forall documents :: Shown(documents) == Filter(documents, IsOfType(tab))
    {
      activeTab := tab;
      searchTerm := "";
      forall documents: seq<LibraryDocument> ensures Shown(documents) == Filter(documents, IsOfType(tab)) {
        EmptyTermShowsWholeTab(documents, tab);
      }
    }

    method Search(term: string)
      modifies this
      ensures searchTerm == term && activeTab == old(activeTab) && selectedDoc == old(selectedDoc)
    {
      searchTerm := term;
    }
  }
}
