/** The task editor (components/TaskFormModal.tsx): the form it opens with, the task its
    save button builds from the form, and the briefing and attachment updaters. The form
    state is held as a `Task` whose fields the inputs edit; the id of a saved new task
    comes from the clock and is a parameter. */
module TaskForm {
  import opened Types
  import opened Seqs
  import opened Text

  const DEFAULT_CODE := "N/A"
  const DEFAULT_WEEK := "Semana 1"
  /** The category an empty form opens with. */
  const FORM_CATEGORY := "Conteúdo"
  /** The category a save uses when the category input was cleared. */
  const DEFAULT_CATEGORY := "Geral"
  const NEWLINE := '\n'

  /** The empty form for a new task. It carries no id: a save takes the id elsewhere. */
  const EMPTY_FORM := Task("", "", "", "", None, TODO, DEFAULT_WEEK, FORM_CATEGORY, [], GENERIC, map[], Some([]))

  /** What the modal holds once opened: the form and the subtask text area. */
  datatype Opened = Opened(form: Task, subtasksInput: string)

  /** The reset when the modal opens: the edited task and its subtasks one per line, or
      the empty form and an empty text area. */
  function Open(taskToEdit: Option<Task>): (r: Opened)
    ensures taskToEdit.Some? ==> r.form == taskToEdit.value
    ensures taskToEdit.Some? ==> r.subtasksInput == Join(taskToEdit.value.subtasks, [NEWLINE])
    ensures taskToEdit.None? ==> r == Opened(EMPTY_FORM, "")
  {
    match taskToEdit
    case Some(t) => Opened(t, Join(t.subtasks, [NEWLINE]))
    case None => Opened(EMPTY_FORM, "")
  }

  /** `value || fallback` on a string. */
  function OrElse(value: string, fallback: string): (r: string)
    ensures value != "" ==> r == value
    ensures value == "" ==> r == fallback
  {
    if value == "" then fallback else value
  }

  predicate NonBlank(line: string) {
    Trim(line) != ""
  }

  /** `subtasksInput.split('\n').filter(line => line.trim() !== '')`: the lines that are
      not blank, in order. */
  function SubtaskLines(input: string): (r: seq<string>)
    ensures forall line :: line in r <==> line in Split(input, NEWLINE) && NonBlank(line)
    ensures forall line :: line in r ==> NEWLINE !in line
    ensures IsSubsequence(r, Split(input, NEWLINE))
  {
    SplitPiecesClean(input, NEWLINE);
    FilterIsSubsequence(Split(input, NEWLINE), NonBlank);
    Filter(Split(input, NEWLINE), NonBlank)
  }

  /** `formData.status || TaskStatus.TODO`: only an empty status text is falsy. */
  function StatusOrTodo(s: TaskStatus): (r: TaskStatus)
    ensures s != Other("") ==> r == s
    ensures r != Other("")
  {
    if s == Other("") then TODO else s
  }

  /** `handleSave`: nothing is saved while the title or the owner is empty. Otherwise the
      task keeps the edited task's id (a new one gets the clock's), takes the title, owner,
      deadline and briefing as typed, falls back to the defaults for an empty code, week,
      category or type and a missing attachment list, and takes its subtasks from the
      non-blank lines of the text area. */
  function HandleSave(form: Task, subtasksInput: string, taskToEdit: Option<Task>, clockId: string): (r: Option<Task>)
    ensures r.None? <==> form.title == "" || form.owner == ""
    ensures r.Some? ==> r.value.id == if taskToEdit.Some? then taskToEdit.value.id else clockId
    ensures r.Some? ==> r.value.title == form.title && r.value.owner == form.owner
    ensures r.Some? ==> r.value.code != "" && r.value.week != "" && r.value.category != "" && r.value.demandType != ""
    ensures r.Some? ==> r.value.code == OrElse(form.code, DEFAULT_CODE) && r.value.week == OrElse(form.week, DEFAULT_WEEK)
    ensures r.Some? ==> r.value.category == OrElse(form.category, DEFAULT_CATEGORY)
    ensures r.Some? ==> r.value.demandType == OrElse(form.demandType, GENERIC)
    ensures r.Some? ==> r.value.deadline == form.deadline && r.value.briefing == form.briefing
    ensures r.Some? ==> r.value.status == StatusOrTodo(form.status)
    ensures r.Some? ==> r.value.subtasks == SubtaskLines(subtasksInput)
    ensures r.Some? ==> r.value.attachments == Some(if form.attachments.Some? then form.attachments.value else [])
  {
    if form.title == "" || form.owner == "" then None
    else
      Some(Task(
        id := if taskToEdit.Some? then taskToEdit.value.id else clockId,
        code := OrElse(form.code, DEFAULT_CODE),
        title := form.title,
        owner := form.owner,
        deadline := form.deadline,
        status := StatusOrTodo(form.status),
        week := OrElse(form.week, DEFAULT_WEEK),
        category := OrElse(form.category, DEFAULT_CATEGORY),
        subtasks := SubtaskLines(subtasksInput),
        demandType := OrElse(form.demandType, GENERIC),
        briefing := form.briefing,
        attachments := Some(if form.attachments.Some? then form.attachments.value else [])))
  }

  /** Writing the subtasks one per line and reading back the non-blank lines gives them
      back, as long as none is blank or spans lines. */
  lemma SubtaskLinesRoundTrip(subtasks: seq<string>)
    requires forall i :: 0 <= i < |subtasks| ==> NEWLINE !in subtasks[i] && NonBlank(subtasks[i])
    ensures SubtaskLines(Join(subtasks, [NEWLINE])) == subtasks
  {
    if subtasks == [] {
      assert Split("", NEWLINE) == [""];
      assert Trim("") == "";
    } else {
      SplitJoin(subtasks, NEWLINE);
      FilterKeepsAll(subtasks, NonBlank);
    }
  }

  /** Opening a task and saving it untouched gives the same task back, for a task whose
      text fields are filled in, whose subtasks are clean lines and whose attachment list
      is present. */
  lemma EditRoundTrip(t: Task, clockId: string)
    requires t.title != "" && t.owner != "" && t.code != "" && t.week != "" && t.category != "" && t.demandType != ""
    requires t.status != Other("") && t.attachments.Some?
    requires forall i :: 0 <= i < |t.subtasks| ==> NEWLINE !in t.subtasks[i] && NonBlank(t.subtasks[i])
    ensures var o := Open(Some(t)); HandleSave(o.form, o.subtasksInput, Some(t), clockId) == Some(t)
  {
    SubtaskLinesRoundTrip(t.subtasks);
  }

  /** A new task saved with only a title and an owner typed in: code "N/A", the first
      week, the form's own category (not the save's "Geral" fallback), status TODO, the
      generic type, no subtasks, an empty briefing and no attachments. */
  lemma NewTaskDefaults(title: string, owner: string, clockId: string)
    requires title != "" && owner != ""
    ensures var r := HandleSave(EMPTY_FORM.(title := title, owner := owner), "", None, clockId);
      r == Some(Task(clockId, DEFAULT_CODE, title, owner, None, TODO, DEFAULT_WEEK, FORM_CATEGORY, [], GENERIC, map[], Some([])))
  {
    assert Split("", NEWLINE) == [""];
    assert Trim("") == "";
  }

  /** `updateBriefing(field, value)`: sets one briefing field and leaves every other form
      field and every other briefing field as it was. */
  function UpdateBriefing(form: Task, field: BriefingKey, value: string): (r: Task)
    ensures field in r.briefing && r.briefing[field] == Some(value)
    ensures forall k :: k != field ==> (k in r.briefing <==> k in form.briefing)
    ensures forall k :: k != field && k in form.briefing ==> r.briefing[k] == form.briefing[k]
    ensures r.(briefing := form.briefing) == form
    ensures FieldOrEmpty(r.briefing, field) == value
  {
    form.(briefing := form.briefing[field := Some(value)])
  }

  /** `a.id !== id` */
  function NotId(id: string): FileAttachment -> bool {
    (a: FileAttachment) => a.id != id
  }

  /** `removeAttachment(id)`: drops the attachments with that id and keeps the others in
      order; a missing list stays missing, and nothing else in the form changes. */
  function RemoveAttachment(form: Task, id: string): (r: Task)
    ensures r.(attachments := form.attachments) == form
    ensures r.attachments.Some? <==> form.attachments.Some?
    ensures r.attachments.Some? ==>
      (forall a :: a in r.attachments.value <==> a in form.attachments.value && a.id != id) &&
      IsSubsequence(r.attachments.value, form.attachments.value)
  {
    match form.attachments
    case None => form
    case Some(atts) =>
      FilterIsSubsequence(atts, NotId(id));
      form.(attachments := Some(Filter(atts, NotId(id))))
  }

  /** The upload handler's `[...(prev.attachments || []), newAttachment]`, once the file
      has been read. */
  function AddAttachment(form: Task, att: FileAttachment): (r: Task)
    ensures r.(attachments := form.attachments) == form
    ensures r.attachments == Some((if form.attachments.Some? then form.attachments.value else []) + [att])
  {
    form.(attachments := Some((if form.attachments.Some? then form.attachments.value else []) + [att]))
  }

  /** Removing an attachment that was just added, under an id no other attachment has,
      undoes the addition. */
  lemma AddThenRemove(form: Task, att: FileAttachment)
    requires form.attachments.Some? ==> forall a :: a in form.attachments.value ==> a.id != att.id
    ensures RemoveAttachment(AddAttachment(form, att), att.id) ==
      form.(attachments := Some(if form.attachments.Some? then form.attachments.value else []))
  {
    var before := if form.attachments.Some? then form.attachments.value else [];
    assert forall a :: a in before ==> NotId(att.id)(a);
    FilterKeepsAll(before, NotId(att.id));
    FilterAppend(before, att, NotId(att.id));
    assert Filter(before + [att], NotId(att.id)) == before;
  }
}
