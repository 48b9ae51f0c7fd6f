/** The production board (components/KanbanBoard.tsx): the arrow and block controls that
    move a card between columns, the active-task and owner filters, and the four status
    columns. Every value here is recomputed from the task list on each render. */
module Kanban {
  import opened Types
  import opened Seqs
  import opened Filters

  /** The statuses that have a column on the board. */
  predicate OnBoard(s: TaskStatus) {
    s == TODO || s == IN_PROGRESS || s == BLOCKED || s == DONE
  }

  /** `getPrevStatus`: the left arrow. */
  function PrevStatus(s: TaskStatus): (r: Option<TaskStatus>)
    ensures r.Some? <==> s == DONE || s == IN_PROGRESS || s == BLOCKED
    ensures r.Some? ==> OnBoard(r.value) && r.value != BLOCKED && r.value != DONE
  {
    if s == DONE then Some(IN_PROGRESS)
    else if s == IN_PROGRESS then Some(TODO)
    else if s == BLOCKED then Some(IN_PROGRESS)
    else None
  }

  /** `getNextStatus`: the right arrow. Going right and then left is a round trip. */
  function NextStatus(s: TaskStatus): (r: Option<TaskStatus>)
    ensures r.Some? <==> s == TODO || s == IN_PROGRESS
    ensures r.Some? ==> OnBoard(r.value) && r.value != TODO && r.value != BLOCKED
    ensures r.Some? ==> PrevStatus(r.value) == Some(s)
  {
    if s == TODO then Some(IN_PROGRESS)
    else if s == IN_PROGRESS then Some(DONE)
    else None
  }

  /** The block control: a card that is not blocked is sent to BLOCKED, a blocked one back
      to IN_PROGRESS. It always moves the card, and keeps it on the board. */
  function BlockToggle(s: TaskStatus): (r: TaskStatus)
    ensures r != s
    ensures r == BLOCKED <==> s != BLOCKED
    ensures OnBoard(r) && r != TODO && r != DONE
  {
    if s != BLOCKED then BLOCKED else IN_PROGRESS
  }

  /** Blocking and then unblocking returns a card to where it was exactly when it was
      in production. */
  lemma BlockThenUnblock(s: TaskStatus)
    ensures BlockToggle(BlockToggle(s)) == s <==> s == IN_PROGRESS || s == BLOCKED
  {
  }

  /** No control on a card ever sends it off the board: a card leaves for BACKLOG or
      ARCHIVED only through other views. */
  lemma ControlsStayOnBoard(s: TaskStatus)
    ensures NextStatus(s).Some? ==> NextStatus(s).value != BACKLOG && NextStatus(s).value != ARCHIVED
    ensures PrevStatus(s).Some? ==> PrevStatus(s).value != BACKLOG && PrevStatus(s).value != ARCHIVED
    ensures BlockToggle(s) != BACKLOG && BlockToggle(s) != ARCHIVED
  {
  }

  /** `handleSaveTask`: an edit when the modal was opened on a card, an addition otherwise;
      the task is passed on untouched. */
  function SaveTask(editing: bool, task: Task): (r: SaveRequest)
    ensures r.task == task
    ensures r.EditTask? <==> editing
  {
    if editing then EditTask(task) else AddTask(task)
  }

  /** `t.status !== BACKLOG && t.status !== ARCHIVED` */
  predicate IsActive(t: Task) {
    t.status != BACKLOG && t.status != ARCHIVED
  }

  /** `activeTasks` */
  function ActiveTasks(tasks: seq<Task>): (r: seq<Task>)
    ensures forall t :: t in r <==> t in tasks && IsActive(t)
    ensures IsSubsequence(r, tasks)
    ensures |r| == Count(tasks, IsActive)
  {
    FilterIsSubsequence(tasks, IsActive);
    Filter(tasks, IsActive)
  }

  /** `activeTasks.map(t => t.owner)`: the owners of the active tasks, in list order. */
  function ActiveOwners(tasks: seq<Task>): (r: seq<string>)
    ensures forall t :: t in tasks && IsActive(t) ==> t.owner in r
    ensures forall o :: o in r ==> exists t :: t in tasks && IsActive(t) && t.owner == o
  {
    var active := ActiveTasks(tasks);
    var owners := Map(active, OwnerOf);
    assert forall o :: o in owners ==> exists t :: t in active && t.owner == o by {
      forall o | o in owners ensures exists t :: t in active && t.owner == o {
        var k :| 0 <= k < |owners| && owners[k] == o;
        assert active[k] in active;
      }
    }
    assert forall t :: t in active ==> t.owner in owners by {
      forall t | t in active ensures t.owner in owners {
        var k :| 0 <= k < |active| && active[k] == t;
        assert owners[k] == t.owner;
      }
    }
    owners
  }

  /** `owners`: "All", then each owner of an active task once, in first-appearance order. */
  function Owners(tasks: seq<Task>): (r: seq<string>)
    ensures |r| >= 1 && r[0] == ALL
    ensures forall o :: o in ActiveOwners(tasks) <==> exists i :: 1 <= i < |r| && r[i] == o
    ensures forall i, j :: 1 <= i < j < |r| ==> r[i] != r[j]
    ensures forall i, j :: 1 <= i < j < |r| ==>
      FirstIndex(ActiveOwners(tasks), r[i]) < FirstIndex(ActiveOwners(tasks), r[j])
  {
    OptionList(ActiveOwners(tasks))
  }

  /** `t => t.owner === o` */
  function OwnedBy(o: string): Task -> bool {
    (t: Task) => t.owner == o
  }

  /** `filteredTasks`: the active tasks, narrowed to one owner unless "All" is chosen. */
  function FilteredTasks(tasks: seq<Task>, filterOwner: string): (r: seq<Task>)
    ensures forall t :: t in r <==> t in tasks && IsActive(t) && (filterOwner == ALL || t.owner == filterOwner)
    ensures filterOwner == ALL ==> r == ActiveTasks(tasks)
    ensures filterOwner != ALL ==> |r| == Count(ActiveTasks(tasks), OwnedBy(filterOwner))
    ensures IsSubsequence(r, tasks)
  {
    if filterOwner == ALL then ActiveTasks(tasks)
    else
      FilterFilter(tasks, IsActive, OwnedBy(filterOwner));
      FilterIsSubsequence(tasks, Both(IsActive, OwnedBy(filterOwner)));
      Filter(ActiveTasks(tasks), OwnedBy(filterOwner))
  }

  /** Every owner offered in the drop-down selects at least one card. */
  lemma OwnerChoicesSelectCards(tasks: seq<Task>, i: int)
    requires 1 <= i < |Owners(tasks)|
    ensures FilteredTasks(tasks, Owners(tasks)[i]) != []
  {
    var o := Owners(tasks)[i];
    assert o in ActiveOwners(tasks);
    var t :| t in tasks && IsActive(t) && t.owner == o;
    assert t in FilteredTasks(tasks, o);
  }

  /** `colTasks` for a column with status `c`. */
  function Column(tasks: seq<Task>, c: TaskStatus): (r: seq<Task>)
    ensures forall t :: t in r <==> t in tasks && t.status == c
    ensures IsSubsequence(r, tasks)
    ensures |r| == Count(tasks, HasStatus(c))
  {
    FilterIsSubsequence(tasks, HasStatus(c));
    Filter(tasks, HasStatus(c))
  }

  /** The number of cards the four columns show together. */
  function ColumnTotal(tasks: seq<Task>): nat {
    |Column(tasks, TODO)| + |Column(tasks, IN_PROGRESS)| + |Column(tasks, BLOCKED)| + |Column(tasks, DONE)|
  }

  function OffBoard(t: Task): bool {
    !OnBoard(t.status)
  }

  /** The columns split a list by status: each card lands in the one column of its status,
      and only cards whose status has no column are not shown. */
  lemma {:induction false} ColumnsPartition(tasks: seq<Task>)
    ensures ColumnTotal(tasks) + Count(tasks, OffBoard) == |tasks|
  {
    if tasks != [] {
      var init := tasks[..|tasks| - 1];
      ColumnsPartition(init);
    }
  }

  /** An active card is off the board only when its status is a value outside the
      enumeration (a database row is cast unchecked). So when every status is one of the
      enumeration's, the columns show every filtered card exactly once. */
  lemma BoardShowsFilteredTasks(tasks: seq<Task>, filterOwner: string)
    requires forall t :: t in tasks ==> !t.status.Other?
    ensures ColumnTotal(FilteredTasks(tasks, filterOwner)) == |FilteredTasks(tasks, filterOwner)|
  {
    var shown := FilteredTasks(tasks, filterOwner);
    ColumnsPartition(shown);
    forall t | t in shown ensures !OffBoard(t) {
      assert t in tasks && IsActive(t);
    }
    FilterKeepsNone(shown, OffBoard);
  }
}
