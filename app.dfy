/** The task-list state of `App.tsx` and its synchronisation with the vector store: each
    change to the list is paired with an upsert or a removal of the documents that
    describe the task, so the agents can retrieve it. */
module App {
  import opened Types
  import opened Text
  import opened Seqs
  import opened VectorStore
  import Data

  const CONTENT_HEAD := "\n      "
  const TITLE_LABEL := "Title: "
  const CODE_LABEL := "\n      Code: "
  const STATUS_LABEL := "\n      Status: "
  const OWNER_LABEL := "\n      Owner: "
  const CATEGORY_LABEL := "\n      Category: "
  const DEMAND_LABEL := "\n      Demand Type: "
  const IDEA_LABEL := "\n      Briefing Idea: "
  const COPY_LABEL := "\n      Briefing Copy: "
  const SUBTASKS_LABEL := "\n      Subtasks:"
  const CONTENT_TAIL := "\n    "

  /** The lines of the indexed text from the title up to the copy, in template order. */
  function FieldParts(t: Task): seq<string> {
    [t.title, CODE_LABEL, t.code, STATUS_LABEL, StatusText(t.status), OWNER_LABEL, t.owner,
     CATEGORY_LABEL, t.category, DEMAND_LABEL, t.demandType,
     IDEA_LABEL, FieldOrEmpty(t.briefing, IDEA), COPY_LABEL, FieldOrEmpty(t.briefing, COPY)]
  }

  /** The template text from `Title:` to `Subtasks:`. */
  function FieldLines(t: Task): string {
    TITLE_LABEL + Concat(FieldParts(t)) + SUBTASKS_LABEL
  }

  /** The text `indexTask` stores for a task: the filled-in template, trimmed. */
  function TaskContent(t: Task): string {
    Trim(CONTENT_HEAD + FieldLines(t) + (" " + Join(t.subtasks, ", ") + CONTENT_TAIL))
  }

  /** The document `indexTask` upserts for the task itself. */
  function TaskDocument(t: Task): (d: DocInput)
    ensures d.id == t.id && d.kind == TASK && d.content == TaskContent(t)
    ensures d.metadata == Metadata(t.title, t.id, Some(MARKETING_OPS), Some(StatusText(t.status)))
  {
    DocInput(t.id, TASK, TaskContent(t), Metadata(t.title, t.id, Some(MARKETING_OPS), Some(StatusText(t.status))))
  }

  const TEXT_TYPE := "text"
  const MARKDOWN_TYPE := "markdown"
  const INDEXED_CONTENT_LIMIT := 5000

  /** The attachment test of `indexTask`: a textual type, or short content. */
  predicate ShouldIndex(att: FileAttachment) {
    Contains(att.mimeType, TEXT_TYPE) || Contains(att.mimeType, MARKDOWN_TYPE) || |att.content| < INDEXED_CONTENT_LIMIT
  }

  /** The document `indexTask` upserts for one attachment of the task with id `taskId`. */
  function AttachmentDocument(att: FileAttachment, taskId: string): (d: DocInput)
    ensures d.id == att.id && d.kind == FILE && d.content == att.content
    ensures d.metadata == Metadata(att.name, taskId, Some(GENERAL), None)
  {
    DocInput(att.id, FILE, att.content, Metadata(att.name, taskId, Some(GENERAL), None))
  }

  /** The attachment documents `indexTask` upserts, in attachment order. */
  function IndexedAttachments(atts: seq<FileAttachment>, taskId: string): (r: seq<DocInput>)
    ensures |r| <= |atts|
    ensures forall d :: d in r ==> exists att :: att in atts && ShouldIndex(att) && d == AttachmentDocument(att, taskId)
    ensures forall att :: att in atts && ShouldIndex(att) ==> AttachmentDocument(att, taskId) in r
  {
    if atts == [] then []
    else
      var init, last := atts[..|atts| - 1], atts[|atts| - 1];
      assert forall att :: att in atts ==> att in init || att == last;
      IndexedAttachments(init, taskId) + (if ShouldIndex(last) then [AttachmentDocument(last, taskId)] else [])
  }

  /** Everything `indexTask` upserts, in upsert order: the task, then its attachments. */
  function IndexInputs(t: Task): seq<DocInput> {
    [TaskDocument(t)] + (if t.attachments.Some? then IndexedAttachments(t.attachments.value, t.id) else [])
  }

  /** The callback of the edit `map`. */
  function Replacing(updated: Task): Task -> Task {
    (t: Task) => if t.id == updated.id then updated else t
  }

  /** `prev.map(t => t.id === updated.id ? updated : t)` */
  function Edited(tasks: seq<Task>, updated: Task): seq<Task> {
    Map(tasks, Replacing(updated))
  }

  /** The callback of the status `map`, without its indexing. */
  function Restatus(id: string, status: TaskStatus): Task -> Task {
    (t: Task) => if t.id == id then t.(status := status) else t
  }

  /** The list `handleUpdateStatus` builds: each task with the id gets the new status. */
  function StatusUpdated(tasks: seq<Task>, id: string, status: TaskStatus): seq<Task> {
    Map(tasks, Restatus(id, status))
  }

  /** What `handleUpdateStatus` indexes: each re-statused task, in list order. */
  function ReindexInputs(tasks: seq<Task>, id: string, status: TaskStatus): seq<DocInput> {
    if tasks == [] then []
    else
      var last := tasks[|tasks| - 1];
      ReindexInputs(tasks[..|tasks| - 1], id, status) + (if last.id == id then IndexInputs(last.(status := status)) else [])
  }

  function OtherTask(id: string): Task -> bool {
    (t: Task) => t.id != id
  }

  /** `prev.filter(t => t.id !== id)` */
  function WithoutTask(tasks: seq<Task>, id: string): seq<Task> {
    Filter(tasks, OtherTask(id))
  }

  /** The saved task list: absent, unparsable, or parsed. */
  datatype SavedTasks = NothingSaved | SavedUnparsable | Saved(tasks: seq<Task>)

  /** The state of `App`: the task list, the pending delete and the shared store. */
  class App {
    var tasks: seq<Task>
    var deleteConfirmId: Option<string>
    const store: VectorStore

    /** Hydration: the saved list, or the seed tasks when nothing usable is saved. */
    constructor(saved: SavedTasks, store: VectorStore)
      ensures saved.Saved? ==> tasks == saved.tasks
      ensures !saved.Saved? ==> tasks == Data.INITIAL_TASKS
      ensures deleteConfirmId == None && this.store == store
    {
      tasks := if saved.Saved? then saved.tasks else Data.INITIAL_TASKS;
      deleteConfirmId := None;
      this.store := store;
    }

    /** `indexTask`: upserts the task's document, then its attachments. */
    method IndexTask(task: Task)
      modifies store
      ensures store.documents == UpsertAll(old(store.documents), IndexInputs(task), Embedder(store.provider))
      ensures store.saved == Some(store.documents) && store.initialized == old(store.initialized)
    {
      ghost var start := store.documents;
      var doc := TaskDocument(task);
      store.UpsertDocument(doc);
      assert store.documents == UpsertAll(start, [doc], Embedder(store.provider)) by {
        UpsertAllSnoc(start, [], doc, Embedder(store.provider));
        assert [] + [doc] == [doc];
      }
      if task.attachments.Some? {
        IndexAttachments(task.attachments.value, task.id);
        UpsertAllConcat(start, [doc], IndexedAttachments(task.attachments.value, task.id), Embedder(store.provider));
      } else {
        assert IndexInputs(task) == [doc];
      }
    }

    /** The `forEach` of `indexTask`: each attachment that passes the test is upserted, in order. */
    method IndexAttachments(atts: seq<FileAttachment>, taskId: string)
      modifies store
      ensures store.documents == UpsertAll(old(store.documents), IndexedAttachments(atts, taskId), Embedder(store.provider))
      ensures store.saved == Some(store.documents) || (store.saved == old(store.saved) && store.documents == old(store.documents))
      ensures store.initialized == old(store.initialized)
    {
      for i := 0 to |atts|
        invariant store.documents == UpsertAll(old(store.documents), IndexedAttachments(atts[..i], taskId), Embedder(store.provider))
        invariant store.saved == Some(store.documents) || (store.saved == old(store.saved) && store.documents == old(store.documents))
        invariant store.initialized == old(store.initialized)
      {
        var att := atts[i];
        ghost var indexed := IndexedAttachments(atts[..i], taskId);
        assert atts[..i + 1] == atts[..i] + [att];
        assert IndexedAttachments(atts[..i + 1], taskId) ==
          indexed + (if ShouldIndex(att) then [AttachmentDocument(att, taskId)] else []);
        if ShouldIndex(att) {
          store.UpsertDocument(AttachmentDocument(att, taskId));
          UpsertAllSnoc(old(store.documents), indexed, AttachmentDocument(att, taskId), Embedder(store.provider));
        } else {
          assert indexed + [] == indexed;
        }
      }
      assert atts[..|atts|] == atts;
    }

    /** `handleAddTask`: the task goes last and is indexed. */
    method HandleAddTask(newTask: Task)
      modifies this, store
      ensures tasks == old(tasks) + [newTask] && deleteConfirmId == old(deleteConfirmId)
      ensures store.documents == UpsertAll(old(store.documents), IndexInputs(newTask), Embedder(store.provider))
      ensures store.saved == Some(store.documents) && store.initialized == old(store.initialized)
    {
      tasks := tasks + [newTask];
      IndexTask(newTask);
    }

    /** `handleEditTask`: every task with the id is replaced and the new version indexed. */
    method HandleEditTask(updatedTask: Task)
      modifies this, store
      ensures tasks == Edited(old(tasks), updatedTask) && deleteConfirmId == old(deleteConfirmId)
      ensures store.documents == UpsertAll(old(store.documents), IndexInputs(updatedTask), Embedder(store.provider))
      ensures store.saved == Some(store.documents) && store.initialized == old(store.initialized)
    {
      tasks := Edited(tasks, updatedTask);
      IndexTask(updatedTask);
    }

    /** `handleDeleteTask`: only records which task waits for confirmation. */
    method HandleDeleteTask(id: string)
      modifies this
      ensures deleteConfirmId == Some(id) && tasks == old(tasks)
    {
      deleteConfirmId := Some(id);
    }

    /** `confirmDelete`: with a pending non-empty id, the task and the document with its
        id are removed and the pending id cleared; otherwise nothing happens. */
    method ConfirmDelete()
      modifies this, store
      ensures old(deleteConfirmId).Some? && old(deleteConfirmId).value != "" ==>
        var id := old(deleteConfirmId).value;
        tasks == WithoutTask(old(tasks), id) && store.documents == WithoutId(old(store.documents), id) &&
        store.saved == Some(store.documents) && deleteConfirmId == None
      ensures old(deleteConfirmId).None? || old(deleteConfirmId).value == "" ==>
        tasks == old(tasks) && deleteConfirmId == old(deleteConfirmId) && store.documents == old(store.documents) &&
        store.saved == old(store.saved)
      ensures store.initialized == old(store.initialized)
    {
      if deleteConfirmId.Some? && deleteConfirmId.value != "" {
        var id := deleteConfirmId.value;
        tasks := WithoutTask(tasks, id);
        store.RemoveDocument(id);
        deleteConfirmId := None;
      }
    }

    /** `cancelDelete` */
    method CancelDelete()
      modifies this
      ensures deleteConfirmId == None && tasks == old(tasks)
    {
      deleteConfirmId := None;
    }

    /** `handleUpdateStatus`: each task with the id gets the status and is re-indexed as
        the list is rebuilt. */
    method HandleUpdateStatus(id: string, newStatus: TaskStatus)
      modifies this, store
      ensures tasks == StatusUpdated(old(tasks), id, newStatus) && deleteConfirmId == old(deleteConfirmId)
      ensures store.documents == UpsertAll(old(store.documents), ReindexInputs(old(tasks), id, newStatus), Embedder(store.provider))
      ensures ReindexInputs(old(tasks), id, newStatus) != [] ==> store.saved == Some(store.documents)
      ensures ReindexInputs(old(tasks), id, newStatus) == [] ==> store.saved == old(store.saved)
      ensures store.initialized == old(store.initialized)
    {
      var next := RestatusAll(tasks, id, newStatus);
      tasks := next;
    }

    /** The `map` of `handleUpdateStatus`: the callback indexes each task it changes. */
    method RestatusAll(prev: seq<Task>, id: string, newStatus: TaskStatus) returns (next: seq<Task>)
      modifies store
      ensures next == StatusUpdated(prev, id, newStatus)
      ensures store.documents == UpsertAll(old(store.documents), ReindexInputs(prev, id, newStatus), Embedder(store.provider))
      ensures ReindexInputs(prev, id, newStatus) != [] ==> store.saved == Some(store.documents)
      ensures ReindexInputs(prev, id, newStatus) == [] ==> store.saved == old(store.saved)
      ensures store.initialized == old(store.initialized)
    {
      next := [];
      for i := 0 to |prev|
        invariant next == StatusUpdated(prev[..i], id, newStatus)
        invariant store.documents == UpsertAll(old(store.documents), ReindexInputs(prev[..i], id, newStatus), Embedder(store.provider))
        invariant ReindexInputs(prev[..i], id, newStatus) != [] ==> store.saved == Some(store.documents)
        invariant ReindexInputs(prev[..i], id, newStatus) == [] ==> store.saved == old(store.saved)
        invariant store.initialized == old(store.initialized)
      {
        ghost var reindexed := ReindexInputs(prev[..i], id, newStatus);
        RestatusStep(prev, i, id, newStatus);
        var t := RestatusOne(prev[i], id, newStatus);
        UpsertAllConcat(old(store.documents), reindexed, if prev[i].id == id then IndexInputs(t) else [], Embedder(store.provider));
        next := next + [t];
      }
      assert prev[..|prev|] == prev;
    }

    /** The `map` callback of `handleUpdateStatus`: a task with the id gets the status and
        is indexed; any other task is returned as it is. */
    method RestatusOne(task: Task, id: string, newStatus: TaskStatus) returns (r: Task)
      modifies store
      ensures r == Restatus(id, newStatus)(task)
      ensures store.documents ==
        UpsertAll(old(store.documents), if task.id == id then IndexInputs(r) else [], Embedder(store.provider))
      ensures task.id == id ==> store.saved == Some(store.documents)
      ensures task.id != id ==> store.saved == old(store.saved)
      ensures store.initialized == old(store.initialized)
    {
      if task.id == id {
        r := task.(status := newStatus);
        IndexTask(r);
      } else {
        r := task;
      }
    }

    /** `handleRestoreTask`: back to "not started". */
    method HandleRestoreTask(id: string)
      modifies this, store
      ensures tasks == StatusUpdated(old(tasks), id, TODO) && deleteConfirmId == old(deleteConfirmId)
      ensures store.documents == UpsertAll(old(store.documents), ReindexInputs(old(tasks), id, TODO), Embedder(store.provider))
      ensures ReindexInputs(old(tasks), id, TODO) != [] ==> store.saved == Some(store.documents)
      ensures ReindexInputs(old(tasks), id, TODO) == [] ==> store.saved == old(store.saved)
      ensures store.initialized == old(store.initialized)
    {
      HandleUpdateStatus(id, TODO);
    }
  }

  /** One more step of the status `map`: the list and the re-indexed documents grow by
      what the callback does to the next task. */
  lemma RestatusStep(prev: seq<Task>, i: nat, id: string, s: TaskStatus)
    requires i < |prev|
    ensures StatusUpdated(prev[..i + 1], id, s) == StatusUpdated(prev[..i], id, s) + [Restatus(id, s)(prev[i])]
    ensures ReindexInputs(prev[..i + 1], id, s) ==
      ReindexInputs(prev[..i], id, s) + (if prev[i].id == id then IndexInputs(prev[i].(status := s)) else [])
  {
    assert prev[..i + 1][..i] == prev[..i];
    assert prev[..i + 1] == prev[..i] + [prev[i]];
    MapConcat(prev[..i], [prev[i]], Restatus(id, s));
  }

  /** Trimming the template removes only its indentation and what trails the subtasks, so
      the text begins with the title line. */
  lemma TaskContentShape(t: Task)
    ensures TaskContent(t) == FieldLines(t) + TrimEnd(" " + Join(t.subtasks, ", ") + CONTENT_TAIL)
    ensures TITLE_LABEL + t.title <= TaskContent(t)
  {
    var lines := FieldLines(t);
    assert AllSpace(CONTENT_HEAD) by {
      assert forall i :: 0 <= i < |CONTENT_HEAD| ==> CONTENT_HEAD[i] == '\n' || CONTENT_HEAD[i] == ' ';
    }
    var parts := FieldParts(t);
    assert Concat(parts) == t.title + Concat(parts[1..]);
    assert lines == TITLE_LABEL + t.title + (Concat(parts[1..]) + SUBTASKS_LABEL);
    assert lines[0] == 'T' && lines[|lines| - 1] == ':';
    TrimAround(CONTENT_HEAD, lines, " " + Join(t.subtasks, ", ") + CONTENT_TAIL);
  }

  /** The indexed text carries the task's title, code, status, owner, category, demand
      type and briefing idea and copy. */
  lemma TaskContentCarriesFields(t: Task)
    ensures forall i :: 0 <= i < |FieldParts(t)| ==> Contains(TaskContent(t), FieldParts(t)[i])
    ensures Contains(TaskContent(t), t.title) && Contains(TaskContent(t), StatusText(t.status)) &&
            Contains(TaskContent(t), t.owner) && Contains(TaskContent(t), t.category)
  {
    TaskContentShape(t);
    var parts := FieldParts(t);
    var tail := SUBTASKS_LABEL + TrimEnd(" " + Join(t.subtasks, ", ") + CONTENT_TAIL);
    ContainsPart(TITLE_LABEL, Concat(parts), tail);
    assert TITLE_LABEL + Concat(parts) + tail == TaskContent(t);
    ContainsEveryPart(TaskContent(t), parts);
    assert parts[0] == t.title && parts[4] == StatusText(t.status) && parts[6] == t.owner && parts[8] == t.category;
  }

  /** What indexing a task upserts: its own document first, then exactly the attachments
      that pass the test, each tied to the task. */
  lemma IndexInputsFacts(t: Task)
    ensures IndexInputs(t)[0] == TaskDocument(t)
    ensures forall d :: d in IndexInputs(t)[1..] ==>
      t.attachments.Some? && d.kind == FILE && d.metadata.originalId == t.id && d.metadata.category == Some(GENERAL)
    ensures t.attachments.Some? ==>
      forall att :: att in t.attachments.value && ShouldIndex(att) ==> AttachmentDocument(att, t.id) in IndexInputs(t)
    ensures t.attachments.None? ==> IndexInputs(t) == [TaskDocument(t)]
  {
    assert IndexInputs(t)[1..] == if t.attachments.Some? then IndexedAttachments(t.attachments.value, t.id) else [];
  }

  /** After indexing, the task's document is stored unless an indexed attachment reuses the
      task's id; every stored document with another id than those upserted stays. */
  lemma IndexedTaskStored(docs: seq<VectorDocument>, t: Task, embed: string -> seq<real>)
    requires forall i :: 1 <= i < |IndexInputs(t)| ==> IndexInputs(t)[i].id != t.id
    ensures WithEmbedding(TaskDocument(t), embed(TaskContent(t))) in UpsertAll(docs, IndexInputs(t), embed)
  {
    var inputs := IndexInputs(t);
    var rest := inputs[1..];
    assert inputs == [TaskDocument(t)] + rest;
    UpsertAllConcat(docs, [TaskDocument(t)], rest, embed);
    var first := UpsertAll(docs, [TaskDocument(t)], embed);
    assert [TaskDocument(t)][..0] == [];
    assert first == Upserted(docs, TaskDocument(t), embed(TaskContent(t)));
    assert forall i :: 0 <= i < |rest| ==> rest[i] == inputs[i + 1];
    UpsertAllKeeps(first, rest, embed, WithEmbedding(TaskDocument(t), embed(TaskContent(t))));
  }

  /** Editing replaces exactly the tasks with the id and keeps the rest; it is
      idempotent, and editing an id no task has changes nothing. */
  lemma EditFacts(tasks: seq<Task>, u: Task)
    ensures |Edited(tasks, u)| == |tasks|
    ensures forall i :: 0 <= i < |tasks| ==>
      (tasks[i].id == u.id ==> Edited(tasks, u)[i] == u) && (tasks[i].id != u.id ==> Edited(tasks, u)[i] == tasks[i])
    ensures Edited(Edited(tasks, u), u) == Edited(tasks, u)
    ensures (forall i :: 0 <= i < |tasks| ==> tasks[i].id != u.id) ==> Edited(tasks, u) == tasks
  {
  }

  /** A status change touches only the status of the tasks with the id; with no such task
      neither the list nor the store changes. */
  lemma StatusUpdateFacts(tasks: seq<Task>, id: string, s: TaskStatus)
    ensures |StatusUpdated(tasks, id, s)| == |tasks|
    ensures forall i :: 0 <= i < |tasks| ==>
      (tasks[i].id == id ==> StatusUpdated(tasks, id, s)[i] == tasks[i].(status := s)) &&
      (tasks[i].id != id ==> StatusUpdated(tasks, id, s)[i] == tasks[i])
    ensures (forall i :: 0 <= i < |tasks| ==> tasks[i].id != id) ==>
      StatusUpdated(tasks, id, s) == tasks && ReindexInputs(tasks, id, s) == []
  {
    if forall i :: 0 <= i < |tasks| ==> tasks[i].id != id {
      ReindexNothing(tasks, id, s);
    }
  }

  lemma {:induction false} ReindexNothing(tasks: seq<Task>, id: string, s: TaskStatus)
    requires forall i :: 0 <= i < |tasks| ==> tasks[i].id != id
    ensures ReindexInputs(tasks, id, s) == []
  {
    if tasks != [] {
      ReindexNothing(tasks[..|tasks| - 1], id, s);
    }
  }

  /** With exactly one task carrying the id, a status change re-indexes that task alone. */
  lemma {:induction false} ReindexSingle(tasks: seq<Task>, id: string, s: TaskStatus, k: nat)
    requires k < |tasks| && tasks[k].id == id
    requires forall i :: 0 <= i < |tasks| && i != k ==> tasks[i].id != id
    ensures ReindexInputs(tasks, id, s) == IndexInputs(tasks[k].(status := s))
  {
    var init := tasks[..|tasks| - 1];
    if k == |tasks| - 1 {
      ReindexNothing(init, id, s);
      assert ReindexInputs(tasks, id, s) == [] + IndexInputs(tasks[k].(status := s));
    } else {
      ReindexSingle(init, id, s, k);
      assert ReindexInputs(tasks, id, s) == ReindexInputs(init, id, s) + [];
    }
  }

  /** Confirming a delete drops exactly the tasks with the id and keeps the others in
      order; the store loses only the document with that id, so attachment documents of
      the task stay. */
  lemma ConfirmDeleteFacts(tasks: seq<Task>, docs: seq<VectorDocument>, id: string)
    ensures forall t :: t in WithoutTask(tasks, id) ==> t.id != id
    ensures forall t :: t in tasks && t.id != id ==> t in WithoutTask(tasks, id)
    ensures IsSubsequence(WithoutTask(tasks, id), tasks)
    ensures forall d :: d in docs && d.id != id ==> d in WithoutId(docs, id)
    ensures forall d :: d in WithoutId(docs, id) ==> d.id != id
  {
    FilterIsSubsequence(tasks, OtherTask(id));
  }
}
