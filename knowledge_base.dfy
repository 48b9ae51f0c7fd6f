/** The knowledge-base view (components/KnowledgeBase.tsx): its form state, which a file
    pick and the add and delete buttons update step by step, the filename rule that
    guesses a category, and the folder filter over the listed documents. The browser's
    file reading and confirmation dialog are parameters. */
module KnowledgeBase {
  import opened Types
  import opened Seqs
  import opened Text
  import VS = VectorStore
  import Provider

  /** The folder choice that lists every document. */
  const ALL_DOCS := "ALL"
  /** `originalId` of a document typed in by hand or read from a file. */
  const MANUAL := "manual"

  const BRAND := "brand"
  const MANIFESTO := "manifesto"
  const MD_EXTENSION := ".md"
  const JSON_EXTENSION := ".json"
  const TECH := "tech"
  const POST := "post"
  const BRIEF := "brief"

  datatype IngestStatus = IDLE | READING | VECTORIZING | DONE

  /** A picked file: its name, and its text or `None` when reading it fails. */
  datatype PickedFile = PickedFile(name: string, text: Option<string>)

  /** The category guess of `handleFileSelect`, with the selected category as fallback.
      The word tests run on the lower-cased name, the extension tests on the name as
      given, in priority order: identity, then technical, then marketing. */
  function FileCategory(name: string, current: string): (r: string)
    ensures var lower := Lower(name);
      var identity := Contains(lower, BRAND) || Contains(lower, MANIFESTO);
      var technical := EndsWith(name, MD_EXTENSION) || EndsWith(name, JSON_EXTENSION) || Contains(lower, TECH);
      var marketing := Contains(lower, POST) || Contains(lower, BRIEF);
      (identity ==> r == CORE_IDENTITY) &&
      (!identity && technical ==> r == TECH_DOCS) &&
      (!identity && !technical && marketing ==> r == MARKETING_OPS) &&
      (!identity && !technical && !marketing ==> r == current)
    ensures r == current || r == CORE_IDENTITY || r == TECH_DOCS || r == MARKETING_OPS
  {
    var lower := Lower(name);
    if Contains(lower, BRAND) || Contains(lower, MANIFESTO) then CORE_IDENTITY
    else if EndsWith(name, MD_EXTENSION) || EndsWith(name, JSON_EXTENSION) || Contains(lower, TECH) then TECH_DOCS
    else if Contains(lower, POST) || Contains(lower, BRIEF) then MARKETING_OPS
    else current
  }

  /** The document `handleAdd` upserts. */
  function KnowledgeInput(id: string, title: string, content: string, category: string): (d: DocInput)
    ensures d.id == id && d.kind == KNOWLEDGE && d.content == content
    ensures d.metadata == Metadata(title, MANUAL, Some(category), None)
  {
    DocInput(id, KNOWLEDGE, content, Metadata(title, MANUAL, Some(category), None))
  }

  function InFolder(folder: string): VectorDocument -> bool {
    (d: VectorDocument) => d.metadata.category == Some(folder)
  }

  /** `filteredDocs`: every document for "ALL", otherwise those whose stored category is
      exactly the folder, in order. A document without a category is listed only under
      "ALL": unlike search, this filter does not read a missing category as GENERAL. */
  function FilteredDocs(docs: seq<VectorDocument>, activeCategory: string): (r: seq<VectorDocument>)
    ensures activeCategory == ALL_DOCS ==> r == docs
    ensures activeCategory != ALL_DOCS ==>
      forall d :: d in r <==> d in docs && d.metadata.category == Some(activeCategory)
    ensures activeCategory != ALL_DOCS ==> |r| == Count(docs, InFolder(activeCategory))
    ensures IsSubsequence(r, docs)
  {
    if activeCategory == ALL_DOCS then
      FilterKeepsAll(docs, (d: VectorDocument) => true);
      FilterIsSubsequence(docs, (d: VectorDocument) => true);
      docs
    else
      FilterIsSubsequence(docs, InFolder(activeCategory));
      Filter(docs, InFolder(activeCategory))
  }

  /** The component's state, beside the shared store it reads and writes. */
  class KnowledgeBase {
    var activeCategory: string
    var documents: seq<VectorDocument>
    var isAdding: bool
    var title: string
    var content: string
    var category: string
    var ingestStatus: IngestStatus
    const store: VS.VectorStore

    /** The initial state: every stored document, the "ALL" folder, an empty form with
        the GENERAL category. */
    constructor (store: VS.VectorStore)
      ensures this.store == store && documents == store.documents && activeCategory == ALL_DOCS
      ensures !isAdding && title == "" && content == "" && category == GENERAL && ingestStatus == IDLE
    {
      this.store := store;
      documents := store.GetDocumentsByType(ALL_DOCS);
      activeCategory := ALL_DOCS;
      isAdding := false;
      title := "";
      content := "";
      category := GENERAL;
      ingestStatus := IDLE;
    }

    /** `handleFileSelect`: no file changes nothing. Otherwise the title becomes the file
        name; a readable file also fills the text and lets the filename rule pick the
        category; an unreadable one leaves both as they were. */
    method HandleFileSelect(file: Option<PickedFile>)
      modifies this
      ensures file.None? ==>
        title == old(title) && content == old(content) && category == old(category) && ingestStatus == old(ingestStatus)
      ensures file.Some? ==> title == file.value.name && ingestStatus == IDLE
      ensures file.Some? && file.value.text.Some? ==>
        content == file.value.text.value && category == FileCategory(file.value.name, old(category))
      ensures file.Some? && file.value.text.None? ==> content == old(content) && category == old(category)
      ensures activeCategory == old(activeCategory) && documents == old(documents) && isAdding == old(isAdding)
    {
      if file.None? {
        return;
      }
      var picked := file.value;
      ingestStatus := READING;
      title := picked.name;
      match picked.text {
        case Some(text) =>
          content := text;
          category := FileCategory(picked.name, category);
          ingestStatus := IDLE;
        case None =>
          ingestStatus := IDLE;
      }
    }

    /** `handleAdd`: with an empty title or text nothing happens. Otherwise the typed
        document is upserted under the clock's id, with type KNOWLEDGE, origin "manual"
        and the selected category, and the status shows DONE until `AfterIngest`. */
    method HandleAdd(clockId: string)
      modifies this, store
      ensures old(title) == "" || old(content) == "" ==>
        store.documents == old(store.documents) && store.saved == old(store.saved) &&
        ingestStatus == old(ingestStatus) && title == old(title)
      ensures old(title) != "" && old(content) != "" ==>
        var doc := KnowledgeInput(clockId, old(title), old(content), old(category));
        store.documents == VS.Upserted(old(store.documents), doc, Provider.GetEmbedding(store.provider, doc.content)) &&
        store.saved == Some(store.documents) && ingestStatus == IngestStatus.DONE
      ensures store.initialized == old(store.initialized)
      ensures title == old(title) && content == old(content) && category == old(category)
      ensures documents == old(documents) && activeCategory == old(activeCategory) && isAdding == old(isAdding)
    {
      if title == "" || content == "" {
        return;
      }
      ingestStatus := VECTORIZING;
      store.UpsertDocument(KnowledgeInput(clockId, title, content, category));
      ingestStatus := IngestStatus.DONE;
    }

    /** The timer after a successful add: clear the form, close it, and reread the store. */
    method AfterIngest()
      modifies this
      ensures title == "" && content == "" && !isAdding && ingestStatus == IDLE
      ensures documents == store.documents
      ensures category == old(category) && activeCategory == old(activeCategory)
    {
      title := "";
      content := "";
      isAdding := false;
      ingestStatus := IDLE;
      documents := store.GetDocumentsByType(ALL_DOCS);
    }

    /** `handleDelete`: when the user confirms, the store forgets every document with the
        id and the list is reread; otherwise nothing changes. */
    method HandleDelete(confirmed: bool, id: string)
      modifies this, store
      ensures confirmed ==>
        store.documents == VS.WithoutId(old(store.documents), id) && documents == store.documents &&
        store.saved == Some(store.documents)
      ensures !confirmed ==>
        store.documents == old(store.documents) && documents == old(documents) && store.saved == old(store.saved)
      ensures store.initialized == old(store.initialized)
      ensures title == old(title) && content == old(content) && category == old(category)
      ensures activeCategory == old(activeCategory) && ingestStatus == old(ingestStatus) && isAdding == old(isAdding)
    {
      if confirmed {
        store.RemoveDocument(id);
        documents := store.GetDocumentsByType(ALL_DOCS);
      }
    }

    /** The documents the list shows. */
    function Visible(): (r: seq<VectorDocument>)
      reads this
      ensures IsSubsequence(r, documents)
    {
      FilteredDocs(documents, activeCategory)
    }
  }

  /** A file picked and then added lands in the store under the clock's id with the text
      read and the category the filename rule chose. */
  lemma PickedFileIsStored(docs: seq<VectorDocument>, name: string, text: string, current: string,
                           clockId: string, e: seq<real>)
    requires name != "" && text != ""
    ensures var doc := KnowledgeInput(clockId, name, text, FileCategory(name, current));
      var stored := VS.Upserted(docs, doc, e);
      stored[|stored| - 1] == WithEmbedding(doc, e) &&
      stored[|stored| - 1].metadata.category == Some(FileCategory(name, current))
  {
    var doc := KnowledgeInput(clockId, name, text, FileCategory(name, current));
    VS.UpsertReplaces(docs, doc, e);
  }
}
