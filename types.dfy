/** The records of `types.ts`: tasks with their briefing and attachments, indexed
    documents, chat threads and the agent audit log. */
module Types {

  datatype Option<T> = None | Some(value: T)

  /** `TaskStatus`. Its members are strings in the source; a row read from the database is
      cast to the type unchecked, so a status outside the enumeration is kept as `Other`. */
  datatype TaskStatus = BACKLOG | TODO | IN_PROGRESS | DONE | BLOCKED | ARCHIVED | Other(text: string)

  /** The string each enumeration member stands for. */
  function StatusText(s: TaskStatus): string {
    match s
    case BACKLOG => "Backlog / Planejamento"
    case TODO => "N\U{E3}o iniciado"
    case IN_PROGRESS => "Em progresso"
    case DONE => "Feito"
    case BLOCKED => "Bloqueador"
    case ARCHIVED => "Arquivado"
    case Other(t) => t
  }

  /** Reading a stored status string back (`dbTask.status as TaskStatus`). */
  function ParseStatus(t: string): TaskStatus {
    if t == StatusText(BACKLOG) then BACKLOG
    else if t == StatusText(TODO) then TODO
    else if t == StatusText(IN_PROGRESS) then IN_PROGRESS
    else if t == StatusText(DONE) then DONE
    else if t == StatusText(BLOCKED) then BLOCKED
    else if t == StatusText(ARCHIVED) then ARCHIVED
    else Other(t)
  }

  /** A status value is written the one way `ParseStatus` produces it. */
  predicate CanonicalStatus(s: TaskStatus) {
    s.Other? ==> ParseStatus(s.text) == s
  }

  /** Storing and re-reading a status is lossless, and every string survives the reverse trip. */
  lemma StatusRoundTrip(s: TaskStatus, t: string)
    ensures CanonicalStatus(s) ==> ParseStatus(StatusText(s)) == s
    ensures StatusText(ParseStatus(t)) == t
    ensures CanonicalStatus(ParseStatus(t))
  {
  }

  /** The keys of `BriefingFields`. */
  datatype BriefingKey = IDEA | FORMAT | REFERENCE | ATTACHMENT | COPY | DURATION | SOUNDTRACK | PSD_LINK | SIZE | FILE_LINK

  /** `BriefingFields`: a JavaScript object whose keys may be absent, or present with an
      undefined or null value (`None`), or present with a string. */
  type Briefing = map<BriefingKey, Option<string>>

  /** `briefing.<field> || ''` */
  function FieldOrEmpty(b: Briefing, field: BriefingKey): string {
    if field in b && b[field].Some? then b[field].value else ""
  }

  /** `FileAttachment`; the MIME type is the source's `type` field. */
  datatype FileAttachment = FileAttachment(
    id: string, name: string, mimeType: string, size: int, content: string, previewUrl: Option<string>)

  /** `DemandType` names; the field itself is a string because database rows are cast unchecked. */
  const GENERIC := "GENERIC"

  /** `Task`. A deadline is kept as its date text: date parsing and formatting are not modelled. */
  datatype Task = Task(
    id: string,
    code: string,
    title: string,
    owner: string,
    deadline: Option<string>,
    status: TaskStatus,
    week: string,
    category: string,
    subtasks: seq<string>,
    demandType: string,
    briefing: Briefing,
    attachments: Option<seq<FileAttachment>>)

  /** The knowledge categories ("neural folders"). A document may carry any string. */
  const CORE_IDENTITY := "CORE_IDENTITY"
  const TECH_DOCS := "TECH_DOCS"
  const MARKETING_OPS := "MARKETING_OPS"
  const GENERAL := "GENERAL"

  /** `VectorDocument.type` */
  datatype DocKind = TASK | BRIEFING | KNOWLEDGE | FILE

  function KindName(k: DocKind): string {
    match k
    case TASK => "TASK"
    case BRIEFING => "BRIEFING"
    case KNOWLEDGE => "KNOWLEDGE"
    case FILE => "FILE"
  }

  datatype Metadata = Metadata(title: string, originalId: string, category: Option<string>, status: Option<string>)

  /** What a caller hands to `upsertDocument`: a document without its embedding. */
  datatype DocInput = DocInput(id: string, kind: DocKind, content: string, metadata: Metadata)

  /** A stored `VectorDocument`. A document read back from storage may lack an embedding. */
  datatype VectorDocument = VectorDocument(
    id: string, kind: DocKind, content: string, metadata: Metadata, embedding: Option<seq<real>>)

  /** `{ ...doc, embedding }` */
  function WithEmbedding(d: DocInput, e: seq<real>): (r: VectorDocument)
    ensures r.id == d.id && r.kind == d.kind && r.content == d.content && r.metadata == d.metadata
    ensures r.embedding == Some(e)
  {
    VectorDocument(d.id, d.kind, d.content, d.metadata, Some(e))
  }

  /** `doc.metadata.category || 'GENERAL'`: a missing or empty category counts as GENERAL. */
  function CategoryOf(d: VectorDocument): (c: string)
    ensures c != ""
    ensures d.metadata.category.Some? && d.metadata.category.value != "" ==> c == d.metadata.category.value
    ensures d.metadata.category.None? || d.metadata.category.value == "" ==> c == GENERAL
  {
    match d.metadata.category
    case None => GENERAL
    case Some(c) => if c == "" then GENERAL else c
  }

  datatype AgentRole = SUPERVISOR | GUARDIAN | GROWTH | ARCHITECT

  function RoleName(r: AgentRole): string {
    match r
    case SUPERVISOR => "SUPERVISOR"
    case GUARDIAN => "GUARDIAN"
    case GROWTH => "GROWTH"
    case ARCHITECT => "ARCHITECT"
  }

  /** The tags of `AgentLog.step`. */
  datatype Step = MANUAL_OVERRIDE | INTENT_ANALYSIS | DELEGATION | ERROR | MEMORY_ACCESS
                | CITATION | MEMORY_MISS | EXECUTION_COMPLETE

  datatype AgentLog = AgentLog(step: Step, details: string, agent: AgentRole, timestamp: int)

  datatype MessageRole = User | Assistant

  datatype ChatMessage = ChatMessage(
    id: string, role: MessageRole, content: string, agent: Option<AgentRole>, timestamp: int,
    context: Option<seq<VectorDocument>>)

  datatype ChatThread = ChatThread(
    id: string, title: string, messages: seq<ChatMessage>, createdAt: int, updatedAt: int, agentMode: AgentRole)
}
