/** The pure parts of `src/services/taskService.ts`: decoding a database row (with its
    subtask, briefing and attachment relations) into a `Task`, and the payloads
    `createTask` and `updateTask` write. The remote calls themselves are not modelled. */
module TaskService {
  import opened Types
  import opened Seqs

  /** A `briefings` row; every column may be null. */
  datatype DbBriefing = DbBriefing(
    idea: Option<string>, format: Option<string>, copy: Option<string>, duration: Option<string>,
    soundtrack: Option<string>, reference: Option<string>, psdLink: Option<string>,
    size: Option<string>, fileLink: Option<string>)

  /** A `subtasks` row. */
  datatype DbSubtask = DbSubtask(id: string, description: string, orderIndex: int)

  /** An `attachments` row; `mimeType` is the `type` column. */
  datatype DbAttachment = DbAttachment(id: string, name: string, mimeType: string, size: int, content: string)

  /** A `tasks` row with its relations; a missing column or relation is `None`. */
  datatype DbTask = DbTask(
    id: string, code: Option<string>, title: string, owner: string, status: string,
    category: Option<string>, week: Option<string>, deadline: Option<string>, demandType: Option<string>,
    subtasks: Option<seq<DbSubtask>>, briefings: Option<seq<DbBriefing>>, attachments: Option<seq<DbAttachment>>)

  const DEFAULT_CATEGORY := "General"
  const DEFAULT_WEEK := "Semana 1"

  /** `value || fallback` on a nullable string: null and `''` both give the fallback. */
  function OrDefault(value: Option<string>, fallback: string): (r: string)
    ensures value.Some? && value.value != "" ==> r == value.value
    ensures value.None? || value.value == "" ==> r == fallback
  {
    if value.Some? && value.value != "" then value.value else fallback
  }

  /** The briefing of the first briefing row, with `psd_link` and `file_link` renamed;
      every one of the nine keys is present, possibly with no value. */
  function DecodeBriefing(b: DbBriefing): Briefing {
    map[IDEA := b.idea, FORMAT := b.format, COPY := b.copy, DURATION := b.duration,
        SOUNDTRACK := b.soundtrack, REFERENCE := b.reference, PSD_LINK := b.psdLink,
        SIZE := b.size, FILE_LINK := b.fileLink]
  }

  function DecodeAttachment(a: DbAttachment): FileAttachment {
    FileAttachment(a.id, a.name, a.mimeType, a.size, a.content, None)
  }

  function Description(s: DbSubtask): string {
    s.description
  }

  /** `mapDbToTask` */
  function MapDbToTask(row: DbTask): (t: Task)
    ensures t.id == row.id && t.title == row.title && t.owner == row.owner
    ensures t.status == ParseStatus(row.status) && StatusText(t.status) == row.status
    ensures t.attachments.Some?
  {
    StatusRoundTrip(BACKLOG, row.status);
    Task(
      row.id,
      OrDefault(row.code, ""),
      row.title,
      row.owner,
      if row.deadline.Some? && row.deadline.value != "" then row.deadline else None,
      ParseStatus(row.status),
      OrDefault(row.week, DEFAULT_WEEK),
      OrDefault(row.category, DEFAULT_CATEGORY),
      if row.subtasks.Some? then Map(row.subtasks.value, Description) else [],
      OrDefault(row.demandType, GENERIC),
      if row.briefings.Some? && |row.briefings.value| > 0 then DecodeBriefing(row.briefings.value[0]) else map[],
      Some(if row.attachments.Some? then Map(row.attachments.value, DecodeAttachment) else []))
  }

  /** The `tasks` insert of `createTask`; `id` is left to the database when absent. */
  datatype TaskInsert = TaskInsert(
    id: Option<string>, userId: string, code: string, title: string, status: string, owner: string,
    category: string, demandType: string, deadline: Option<string>, week: string)

  const SHORT_ID_LENGTH := 10

  /** The insert payload: a short mock id (under ten characters) is not sent. */
  function CreatePayload(t: Task, userId: string): (p: TaskInsert)
    ensures p.id.None? <==> |t.id| < SHORT_ID_LENGTH
    ensures p.id.Some? ==> p.id.value == t.id
    ensures p.status == StatusText(t.status) && p.userId == userId
  {
    TaskInsert(if |t.id| < SHORT_ID_LENGTH then None else Some(t.id), userId, t.code, t.title,
      StatusText(t.status), t.owner, t.category, t.demandType, t.deadline, t.week)
  }

  /** A `subtasks` insert row. */
  datatype SubtaskRow = SubtaskRow(taskId: string, description: string, orderIndex: nat)

  /** `subtasks.map((desc, idx) => ({ task_id, description: desc, order_index: idx }))` */
  function SubtaskPayload(taskId: string, subtasks: seq<string>): seq<SubtaskRow> {
    seq(|subtasks|, i requires 0 <= i < |subtasks| => SubtaskRow(taskId, subtasks[i], i))
  }

  /** The subtask payload has one row per subtask, tagged with the task, whose
      `order_index` is its position; reading the descriptions back gives the subtasks. */
  lemma SubtaskPayloadFacts(taskId: string, subtasks: seq<string>)
    ensures var p := SubtaskPayload(taskId, subtasks);
      |p| == |subtasks| &&
      (forall i :: 0 <= i < |p| ==> p[i].orderIndex == i && p[i].taskId == taskId) &&
      (forall i, j :: 0 <= i < j < |p| ==> p[i].orderIndex < p[j].orderIndex) &&
      Map(StoredSubtasks(p), Description) == subtasks
  {
    var p := SubtaskPayload(taskId, subtasks);
    assert forall i :: 0 <= i < |p| ==> Map(StoredSubtasks(p), Description)[i] == subtasks[i];
  }

  /** The subtask rows as the database returns them, in stored order. */
  function StoredSubtasks(p: seq<SubtaskRow>): seq<DbSubtask> {
    Map(p, (r: SubtaskRow) => DbSubtask(r.taskId, r.description, r.orderIndex))
  }

  /** `task.briefing.<field>`: a missing key reads as undefined. */
  function Lookup(b: Briefing, field: BriefingKey): Option<string> {
    if field in b then b[field] else None
  }

  /** The briefing columns written for a briefing; the `attachment` field has no column. */
  function BriefingRow(b: Briefing): DbBriefing {
    DbBriefing(Lookup(b, IDEA), Lookup(b, FORMAT), Lookup(b, COPY), Lookup(b, DURATION),
      Lookup(b, SOUNDTRACK), Lookup(b, REFERENCE), Lookup(b, PSD_LINK), Lookup(b, SIZE), Lookup(b, FILE_LINK))
  }

  /** On create, a briefing row is inserted only when the briefing has a key. */
  predicate InsertsBriefing(b: Briefing) {
    |b| > 0
  }

  /** What `updateTask` does with the briefing. */
  datatype BriefingWrite = UpdateRow(row: DbBriefing) | InsertRow(row: DbBriefing) | NoWrite

  /** An existing row is updated; otherwise a row is inserted only when the briefing has a key. */
  function UpdateBriefingWrite(existing: bool, b: Briefing): (w: BriefingWrite)
    ensures existing ==> w == UpdateRow(BriefingRow(b))
    ensures !existing && InsertsBriefing(b) ==> w == InsertRow(BriefingRow(b))
    ensures !existing && !InsertsBriefing(b) ==> w == NoWrite
  {
    if existing then UpdateRow(BriefingRow(b)) else if |b| > 0 then InsertRow(BriefingRow(b)) else NoWrite
  }

  /** An `attachments` insert row; the database assigns its id. */
  datatype AttachmentRow = AttachmentRow(taskId: string, name: string, mimeType: string, size: int, content: string)

  function AttachmentPayload(taskId: string, atts: seq<FileAttachment>): seq<AttachmentRow> {
    Map(atts, (a: FileAttachment) => AttachmentRow(taskId, a.name, a.mimeType, a.size, a.content))
  }

  /** The attachment rows as read back, with the ids the database gave them. */
  function StoredAttachments(rows: seq<AttachmentRow>, ids: seq<string>): seq<DbAttachment>
    requires |ids| == |rows|
  {
    seq(|rows|, i requires 0 <= i < |rows| => DbAttachment(ids[i], rows[i].name, rows[i].mimeType, rows[i].size, rows[i].content))
  }

  /** The row `getTaskById` reads back after `createTask` wrote `t` under `taskId`. */
  function CreatedRow(t: Task, taskId: string, attachmentIds: seq<string>): DbTask
    requires t.attachments.Some? ==> |attachmentIds| == |t.attachments.value|
  {
    var p := CreatePayload(t, "");
    DbTask(taskId, Some(p.code), p.title, p.owner, p.status, Some(p.category), Some(p.week), p.deadline,
      Some(p.demandType),
      Some(StoredSubtasks(SubtaskPayload(taskId, t.subtasks))),
      Some(if InsertsBriefing(t.briefing) then [BriefingRow(t.briefing)] else []),
      Some(if t.attachments.Some? && |t.attachments.value| > 0
           then StoredAttachments(AttachmentPayload(taskId, t.attachments.value), attachmentIds) else []))
  }

  /** The nine briefing fields that have a column. */
  const BRIEFING_COLUMNS := [IDEA, FORMAT, COPY, DURATION, SOUNDTRACK, REFERENCE, PSD_LINK, SIZE, FILE_LINK]

  /** A row with every optional column and relation missing decodes to the defaults. */
  lemma DecodeDefaults(id: string, title: string, owner: string, status: string)
    ensures var t := MapDbToTask(DbTask(id, None, title, owner, status, None, None, None, None, None, None, None));
      t.code == "" && t.category == DEFAULT_CATEGORY && t.week == DEFAULT_WEEK && t.demandType == GENERIC &&
      t.deadline == None && t.subtasks == [] && t.briefing == map[] && t.attachments == Some([])
  {
  }

  /** Writing a task with `createTask` and reading it back keeps every scalar field the
      schema stores and the subtasks in order; the id is the one the database reports. */
  lemma CreateThenRead(t: Task, taskId: string, attachmentIds: seq<string>)
    requires t.attachments.Some? ==> |attachmentIds| == |t.attachments.value|
    requires t.category != "" && t.week != "" && t.demandType != "" && t.deadline != Some("")
    requires CanonicalStatus(t.status)
    ensures var r := MapDbToTask(CreatedRow(t, taskId, attachmentIds));
      r.id == taskId && r.code == t.code && r.title == t.title && r.owner == t.owner &&
      r.status == t.status && r.category == t.category && r.week == t.week &&
      r.demandType == t.demandType && r.deadline == t.deadline && r.subtasks == t.subtasks
  {
    StatusRoundTrip(t.status, "");
    SubtaskPayloadFacts(taskId, t.subtasks);
  }

  /** The nine briefing columns read back as written; the `attachment` field has no
      column and reads back empty. */
  lemma CreateThenReadBriefing(t: Task, taskId: string, attachmentIds: seq<string>)
    requires t.attachments.Some? ==> |attachmentIds| == |t.attachments.value|
    ensures var r := MapDbToTask(CreatedRow(t, taskId, attachmentIds));
      (forall f :: f in BRIEFING_COLUMNS ==> FieldOrEmpty(r.briefing, f) == FieldOrEmpty(t.briefing, f)) &&
      FieldOrEmpty(r.briefing, ATTACHMENT) == ""
  {
    var r := MapDbToTask(CreatedRow(t, taskId, attachmentIds));
    if InsertsBriefing(t.briefing) {
      assert r.briefing == DecodeBriefing(BriefingRow(t.briefing));
      BriefingColumnsRoundTrip(t.briefing);
    } else {
      assert t.briefing == map[];
    }
  }

  /** Each briefing column decodes to the field it was written from. */
  lemma BriefingColumnsRoundTrip(b: Briefing)
    ensures forall f :: f in BRIEFING_COLUMNS ==> FieldOrEmpty(DecodeBriefing(BriefingRow(b)), f) == FieldOrEmpty(b, f)
    ensures ATTACHMENT !in DecodeBriefing(BriefingRow(b))
  {
    var d := DecodeBriefing(BriefingRow(b));
    forall f | f in BRIEFING_COLUMNS ensures f in d && d[f] == Lookup(b, f) {
    }
  }

  /** Each attachment reads back with its name, type, size and content, under the id the
      database gave it and without its preview. */
  lemma CreateThenReadAttachments(t: Task, taskId: string, attachmentIds: seq<string>)
    requires t.attachments.Some? ==> |attachmentIds| == |t.attachments.value|
    ensures var r := MapDbToTask(CreatedRow(t, taskId, attachmentIds));
      t.attachments.Some? ==> (|r.attachments.value| == |t.attachments.value| &&
        forall i :: 0 <= i < |r.attachments.value| ==>
          r.attachments.value[i] == t.attachments.value[i].(id := attachmentIds[i], previewUrl := None))
  {
    var r := MapDbToTask(CreatedRow(t, taskId, attachmentIds));
    if t.attachments.Some? && |t.attachments.value| > 0 {
      var atts := t.attachments.value;
      var stored := StoredAttachments(AttachmentPayload(taskId, atts), attachmentIds);
      assert r.attachments.value == Map(stored, DecodeAttachment);
      forall i | 0 <= i < |atts| ensures r.attachments.value[i] == atts[i].(id := attachmentIds[i], previewUrl := None) {
        assert stored[i] == DbAttachment(attachmentIds[i], atts[i].name, atts[i].mimeType, atts[i].size, atts[i].content);
      }
    }
  }
}
