/**
 * The documents page: uploading a document record, deleting one, who may delete, the search
 * with its category filter, and the counters.
 */
module Documents {
  import opened Common
  import opened Roles
  import opened Text
  import opened Seqs
  import opened Ui
  import AuthContext

  /** A document record. `created` is the instant `created_at` parses to, if it parses. */
  datatype Document = Document(
    id: string,
    title: string,
    description: string,
    filePath: string,
    fileType: string,
    fileSize: int,
    version: int,
    uploadedBy: string,
    category: string,
    created: Option<int>)

  datatype UploadForm = UploadForm(title: string, description: string, category: string, projectId: string)

  const EmptyForm := UploadForm("", "", "general", "")

  /** The row an upload inserts: the form, placeholder file fields and the uploader (if any). */
  datatype DocumentRow = DocumentRow(
    form: UploadForm,
    filePath: string,
    fileType: string,
    fileSize: int,
    uploadedBy: Option<string>)

  function UploadRow(form: UploadForm, userId: Option<string>): (row: DocumentRow)
    ensures row.form == form && row.uploadedBy == userId
    ensures row.filePath == "/path/to/file" && row.fileType == "pdf" && row.fileSize == 0
  {
    DocumentRow(form, "/path/to/file", "pdf", 0, userId)
  }

  datatype DocumentsRequest = SelectDocuments | InsertDocument(row: DocumentRow) | DeleteDocument(id: string)

  /** A document passes when its title contains the query and its category is chosen. */
  predicate DocumentMatches(d: Document, query: string, categoryFilter: string)
    ensures query == "" && categoryFilter == "all" ==> DocumentMatches(d, query, categoryFilter)
    ensures DocumentMatches(d, query, categoryFilter) && categoryFilter != "all" ==> d.category == categoryFilter
  {
    MatchesEmptyTerm(d.title);
    MatchesIgnoringCase(d.title, query) && (categoryFilter == "all" || d.category == categoryFilter)
  }

  /** `filteredDocuments`. */
  function FilterDocuments(documents: seq<Document>, query: string, categoryFilter: string): (r: seq<Document>)
    ensures IsSubsequence(r, documents)
    ensures forall i :: 0 <= i < |r| ==> DocumentMatches(r[i], query, categoryFilter)
    ensures forall i :: 0 <= i < |documents| && DocumentMatches(documents[i], query, categoryFilter) ==> documents[i] in r
    ensures multiset(r) <= multiset(documents)
    ensures forall i :: 0 <= i < |documents| && DocumentMatches(documents[i], query, categoryFilter) ==> multiset(r)[documents[i]] == multiset(documents)[documents[i]]
  {
    var keep := (d: Document) => DocumentMatches(d, query, categoryFilter);
    FilterIsSubsequence(documents, keep);
    FilterMultiset(documents, keep);
    Filter(documents, keep)
  }

  lemma EmptySearchListsAll(documents: seq<Document>)
    ensures FilterDocuments(documents, "", "all") == documents
  {
    forall i | 0 <= i < |documents| ensures DocumentMatches(documents[i], "", "all") {
      MatchesEmptyTerm(documents[i].title);
    }
    FilterAll(documents, (d: Document) => DocumentMatches(d, "", "all"));
  }

  /** The delete button: for the uploader of the document, and for any system administrator. */
  predicate CanDelete(d: Document, user: Option<AuthContext.User>)
    ensures CanDelete(d, user) ==> user.Some?
  {
    user.Some? && (d.uploadedBy == user.value.id || user.value.role == Some(Known(SystemAdmin)))
  }

  /** Without a user nothing can be deleted; an administrator can delete every document. */
  lemma DeleteRights(d: Document, user: Option<AuthContext.User>)
    ensures user.None? ==> !CanDelete(d, user)
    ensures user.Some? && user.value.role == Some(Known(SystemAdmin)) ==> CanDelete(d, user)
    ensures user.Some? && user.value.role != Some(Known(SystemAdmin)) ==> (CanDelete(d, user) <==> d.uploadedBy == user.value.id)
  {
  }

  /** The number of documents of one category. */
  function CountCategory(documents: seq<Document>, category: string): (n: nat)
    ensures n <= |documents|
    ensures n == |Positions(documents, (d: Document) => d.category == category)|
  {
    var inCategory := (d: Document) => d.category == category;
    FilterCount(documents, inCategory);
    |Filter(documents, inCategory)|
  }

  /** The `thisWeek` counter, with `weekAgo` the instant seven days before the page renders. */
  function CountSince(documents: seq<Document>, weekAgo: int): (n: nat)
    ensures n <= |documents|
    ensures n == |Positions(documents, (d: Document) => d.created.Some? && d.created.value > weekAgo)|
  {
    var recent := (d: Document) => d.created.Some? && d.created.value > weekAgo;
    FilterCount(documents, recent);
    |Filter(documents, recent)|
  }

  /** Reports and evidence are different categories, so together they are at most the total. */
  lemma ReportsAndEvidenceWithinTotal(documents: seq<Document>)
    ensures CountCategory(documents, "report") + CountCategory(documents, "evidence") <= |documents|
  {
    ExclusiveCounts2(documents, (d: Document) => d.category == "report", (d: Document) => d.category == "evidence");
  }

  /** The category filter set to one category lists exactly as many documents as that counter. */
  lemma CategoryTabMatchesCounter(documents: seq<Document>, category: string)
    requires category != "all"
    ensures |FilterDocuments(documents, "", category)| == CountCategory(documents, category)
  {
    var a := (d: Document) => DocumentMatches(d, "", category);
    var b := (d: Document) => d.category == category;
    forall d: Document ensures a(d) == b(d) {
      MatchesEmptyTerm(d.title);
    }
    FilterSame(documents, a, b);
  }

  /** The page's state. */
  class DocumentsPage {
    var documents: seq<Document>
    var loading: bool
    var searchQuery: string
    var categoryFilter: string
    var dialogOpen: bool
    var formData: UploadForm

    constructor ()
      ensures documents == [] && loading && searchQuery == "" && categoryFilter == "all"
      ensures !dialogOpen && formData == EmptyForm
    {
      documents, loading, searchQuery, categoryFilter := [], true, "", "all";
      dialogOpen, formData := false, EmptyForm;
    }

    /** `fetchDocuments`: the rows replace the list (null as none); an error keeps it. */
    method FetchDocuments(answer: Loaded<Document>) returns (effects: seq<Effect<DocumentsRequest>>)
      modifies this
      ensures answer.Loaded? ==> documents == RowsOr(answer.data) && effects == [Send(SelectDocuments)]
      ensures answer.LoadFailed? ==> documents == old(documents) && effects == [Send(SelectDocuments), ShowToast(Error("Failed to load documents"))]
      ensures !loading && searchQuery == old(searchQuery) && categoryFilter == old(categoryFilter)
      ensures dialogOpen == old(dialogOpen) && formData == old(formData)
    {
      effects := [Send(SelectDocuments)];
      if answer.Loaded? {
        documents := RowsOr(answer.data);
      } else {
        effects := effects + [ShowToast(Error("Failed to load documents"))];
      }
      loading := false;
    }

    /**
     * `handleUpload`: an empty title stops at a toast; otherwise the record is inserted, and
     * only a successful insert closes the dialog, resets the form and reloads the list.
     */
    method HandleUpload(userId: Option<string>, insertError: Option<string>) returns (effects: seq<Effect<DocumentsRequest>>)
      modifies this
      ensures old(formData).title == "" ==>
        effects == [ShowToast(Error("Please provide a document title"))] && formData == old(formData) && dialogOpen == old(dialogOpen)
      ensures old(formData).title != "" && insertError.Some? ==>
        effects == [Send(InsertDocument(UploadRow(old(formData), userId))), ShowToast(Error("Failed to upload document"))] &&
        formData == old(formData) && dialogOpen == old(dialogOpen)
      ensures old(formData).title != "" && insertError.None? ==>
        effects == [Send(InsertDocument(UploadRow(old(formData), userId))), ShowToast(Success("Document uploaded successfully")), Call("fetchDocuments")] &&
        formData == EmptyForm && !dialogOpen
      ensures documents == old(documents) && loading == old(loading)
      ensures searchQuery == old(searchQuery) && categoryFilter == old(categoryFilter)
    {
      if formData.title == "" {
        effects := [ShowToast(Error("Please provide a document title"))];
        return;
      }
      effects := [Send(InsertDocument(UploadRow(formData, userId)))];
      if insertError.Some? {
        effects := effects + [ShowToast(Error("Failed to upload document"))];
        return;
      }
      effects := effects + [ShowToast(Success("Document uploaded successfully"))];
      dialogOpen := false;
      formData := EmptyForm;
      effects := effects + [Call("fetchDocuments")];
    }

    /** `handleDelete`: one delete by id; a reload follows only a successful one. */
    method HandleDelete(documentId: string, deleteError: Option<string>) returns (effects: seq<Effect<DocumentsRequest>>)
      ensures deleteError.None? ==> effects == [Send(DeleteDocument(documentId)), ShowToast(Success("Document deleted")), Call("fetchDocuments")]
      ensures deleteError.Some? ==> effects == [Send(DeleteDocument(documentId)), ShowToast(Error("Failed to delete document"))]
    {
      effects := [Send(DeleteDocument(documentId))];
      if deleteError.None? {
        effects := effects + [ShowToast(Success("Document deleted")), Call("fetchDocuments")];
      } else {
        effects := effects + [ShowToast(Error("Failed to delete document"))];
      }
    }

    function Shown(): seq<Document>
      reads this
    {
      FilterDocuments(documents, searchQuery, categoryFilter)
    }
  }
}
