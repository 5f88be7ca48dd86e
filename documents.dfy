/**
 * The documents page: the document list, its search box and category tabs,
 * the status badge of each card and the two-step delete (confirm, then delete).
 */
module Documents {
  import opened Wrappers
  import opened Seqs
  import opened Text

  datatype Status = Active | ExpiringSoon | Expired

  /** The string literal that stands for each status. */
  function StatusText(s: Status): string {
    match s
    case Active => "active"
    case ExpiringSoon => "expiring-soon"
    case Expired => "expired"
  }

  datatype Document = Document(
    id: int,
    name: string,
    category: string,
    uploadDate: string,
    expiryDate: Option<string>,
    status: Status,
    fileType: string,
    fileSize: string,
    url: string,
    color: string)

  // ---------------------------------------------------------------------------
  // The status badge of a document card
  // ---------------------------------------------------------------------------

  datatype Badge = ActiveBadge | ExpiringSoonBadge | ExpiredBadge

  /** The card's conditional on `document.status`: anything else than the first two shows Expired. */
  function BadgeFor(status: string): (b: Badge)
    ensures b == ActiveBadge <==> status == "active"
    ensures b == ExpiringSoonBadge <==> status == "expiring-soon"
    ensures b == ExpiredBadge <==> status != "active" && status != "expiring-soon"
  {
    if status == "active" then ActiveBadge
    else if status == "expiring-soon" then ExpiringSoonBadge
    else ExpiredBadge
  }

  /** Every declared status gets its own badge. */
  lemma BadgeMatchesStatus(s: Status)
    ensures BadgeFor(StatusText(s)) == match s
      case Active => ActiveBadge
      case ExpiringSoon => ExpiringSoonBadge
      case Expired => ExpiredBadge
  {
  }

  // ---------------------------------------------------------------------------
  // Search and tabs
  // ---------------------------------------------------------------------------

  /** The search test: name or category contains the query, ignoring case. */
  predicate MatchesSearch(d: Document, query: string) {
    Includes(Lower(d.name), Lower(query)) || Includes(Lower(d.category), Lower(query))
  }

  /** The filter callback of `filteredDocuments`. */
  predicate Shown(d: Document, query: string, tab: string)
    ensures Shown(d, query, tab) <==>
      MatchesSearch(d, query) && (TabCategory(tab).Some? ==> d.category == TabCategory(tab).value)
  {
    var matchesSearch := MatchesSearch(d, query);
    if tab == "all" then matchesSearch
    else if tab == "certifications" then matchesSearch && d.category == "Certification"
    else if tab == "compliance" then matchesSearch && d.category == "Compliance"
    else if tab == "marketing" then matchesSearch && d.category == "Marketing"
    else matchesSearch
  }

  /** The category a tab restricts to; no restriction for "all" or an unknown tab. */
  function TabCategory(tab: string): Option<string> {
    if tab == "certifications" then Some("Certification")
    else if tab == "compliance" then Some("Compliance")
    else if tab == "marketing" then Some("Marketing")
    else None
  }

  /** `filteredDocuments`. */
  function FilterDocuments(docs: seq<Document>, query: string, tab: string): (r: seq<Document>)
    ensures Subsequence(r, docs)
    ensures forall d :: multiset(r)[d] == if Shown(d, query, tab) then multiset(docs)[d] else 0
  {
    Filter(d => Shown(d, query, tab), docs)
  }

  /**
   * Every shown document matches the search, and in a category tab has exactly
   * that tab's category; a document that does both is shown.
   */
  lemma FilterDocumentsSpec(docs: seq<Document>, query: string, tab: string)
    ensures forall d :: d in FilterDocuments(docs, query, tab) <==>
      d in docs && MatchesSearch(d, query) && (TabCategory(tab).Some? ==> d.category == TabCategory(tab).value)
  {
    var r := FilterDocuments(docs, query, tab);
    forall d ensures d in r <==> d in docs && Shown(d, query, tab) {
      assert d in r <==> multiset(r)[d] > 0;
      assert d in docs <==> multiset(docs)[d] > 0;
    }
  }

  /** The tabs filter the search result further: a tab filter is the category filter after the search filter. */
  lemma TabFiltersSearchResult(docs: seq<Document>, query: string, tab: string)
    requires TabCategory(tab).Some?
    ensures FilterDocuments(docs, query, tab)
         == Filter((d: Document) => d.category == TabCategory(tab).value, FilterDocuments(docs, query, "all"))
  {
    var cat := TabCategory(tab).value;
    FilterFilter((d: Document) => Shown(d, query, "all"), (d: Document) => d.category == cat,
                 (d: Document) => Shown(d, query, tab), docs);
  }

  /** With no query on the "all" tab, every document is shown. */
  lemma EmptySearchAllTabShowsAll(docs: seq<Document>)
    ensures FilterDocuments(docs, "", "all") == docs
  {
    assert forall i :: 0 <= i < |docs| ==> Shown(docs[i], "", "all");
    FilterKeepsAll(d => Shown(d, "", "all"), docs);
  }

  // ---------------------------------------------------------------------------
  // Deleting
  // ---------------------------------------------------------------------------

  function DocumentId(d: Document): int {
    d.id
  }

  /** `documents.filter(doc => doc.id !== id)`. */
  function RemoveById(docs: seq<Document>, id: int): seq<Document> {
    RemoveKey(DocumentId, id, docs)
  }

  class DocumentsPage {
    var documents: seq<Document>
    var isDeleteDialogOpen: bool
    var documentToDelete: Option<int>
    var searchQuery: string
    var activeTab: string

    constructor (initial: seq<Document>)
      ensures documents == initial
      ensures !isDeleteDialogOpen && documentToDelete == None
      ensures searchQuery == "" && activeTab == "all"
    {
      documents := initial;
      isDeleteDialogOpen := false;
      documentToDelete := None;
      searchQuery := "";
      activeTab := "all";
    }

    /** `confirmDelete`: remember the document and open the dialog; nothing is removed yet. */
    method ConfirmDelete(id: int)
      modifies this
      ensures documentToDelete == Some(id) && isDeleteDialogOpen
      ensures documents == old(documents)
      ensures searchQuery == old(searchQuery) && activeTab == old(activeTab)
    {
      documentToDelete := Some(id);
      isDeleteDialogOpen := true;
    }

    /** `handleDelete`: the dialog's Delete button. */
    method HandleDelete()
      modifies this
      ensures old(documentToDelete).None? ==>
        && documents == old(documents) && isDeleteDialogOpen == old(isDeleteDialogOpen)
        && documentToDelete == None
      ensures old(documentToDelete).Some? ==>
        && documents == RemoveById(old(documents), old(documentToDelete).value)
        && !isDeleteDialogOpen && documentToDelete == None
      ensures searchQuery == old(searchQuery) && activeTab == old(activeTab)
    {
      if documentToDelete.Some? {
        documents := RemoveById(documents, documentToDelete.value);
        isDeleteDialogOpen := false;
        documentToDelete := None;
      }
    }

    /** The dialog's `onOpenChange` and its Cancel button (`open == false`): only the flag moves. */
    method SetDeleteDialogOpen(open: bool)
      modifies this`isDeleteDialogOpen
      ensures isDeleteDialogOpen == open
    {
      isDeleteDialogOpen := open;
    }

    method SetSearchQuery(value: string)
      modifies this`searchQuery
      ensures searchQuery == value
    {
      searchQuery := value;
    }

    /** The tab list's `onValueChange` and the filter menu's items. */
    method SetActiveTab(tab: string)
      modifies this`activeTab
      ensures activeTab == tab
    {
      activeTab := tab;
    }

    /** The documents shown on every tab. */
    function Filtered(): (r: seq<Document>)
      reads this
      ensures Subsequence(r, documents)
      ensures forall i :: 0 <= i < |r| ==> Shown(r[i], searchQuery, activeTab)
    {
      FilterDocuments(documents, searchQuery, activeTab)
    }
  }
}
