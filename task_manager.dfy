/** The task table (components/TaskManager.tsx): the category and week drop-downs and
    the list they narrow. */
module TaskManager {
  import opened Types
  import opened Seqs
  import opened Filters

  function CategoryName(t: Task): string {
    t.category
  }

  function WeekName(t: Task): string {
    t.week
  }

  /** `categories`: "All", then each task category once, in first-appearance order. */
  function Categories(tasks: seq<Task>): (r: seq<string>)
    ensures |r| >= 1 && r[0] == ALL
    ensures forall c :: c in Map(tasks, CategoryName) <==> exists i :: 1 <= i < |r| && r[i] == c
    ensures forall i, j :: 1 <= i < j < |r| ==> r[i] != r[j]
    ensures forall i, j :: 1 <= i < j < |r| ==>
      FirstIndex(Map(tasks, CategoryName), r[i]) < FirstIndex(Map(tasks, CategoryName), r[j])
  {
    OptionList(Map(tasks, CategoryName))
  }

  /** `weeks`: "All", then each task week once, in first-appearance order. */
  function Weeks(tasks: seq<Task>): (r: seq<string>)
    ensures |r| >= 1 && r[0] == ALL
    ensures forall w :: w in Map(tasks, WeekName) <==> exists i :: 1 <= i < |r| && r[i] == w
    ensures forall i, j :: 1 <= i < j < |r| ==> r[i] != r[j]
    ensures forall i, j :: 1 <= i < j < |r| ==>
      FirstIndex(Map(tasks, WeekName), r[i]) < FirstIndex(Map(tasks, WeekName), r[j])
  {
    OptionList(Map(tasks, WeekName))
  }

  /** `catMatch && weekMatch` */
  predicate Shown(t: Task, filterCategory: string, filterWeek: string) {
    (filterCategory == ALL || t.category == filterCategory) && (filterWeek == ALL || t.week == filterWeek)
  }

  function ShownBy(filterCategory: string, filterWeek: string): Task -> bool {
    (t: Task) => Shown(t, filterCategory, filterWeek)
  }

  /** `filteredTasks`: the tasks both filters let through, in order; with both filters on
      "All" it is the whole list. */
  function FilteredTasks(tasks: seq<Task>, filterCategory: string, filterWeek: string): (r: seq<Task>)
    ensures forall t :: t in r <==> t in tasks && Shown(t, filterCategory, filterWeek)
    ensures IsSubsequence(r, tasks)
    ensures |r| == Count(tasks, ShownBy(filterCategory, filterWeek))
    ensures filterCategory == ALL && filterWeek == ALL ==> r == tasks
  {
    FilterIsSubsequence(tasks, ShownBy(filterCategory, filterWeek));
    if filterCategory == ALL && filterWeek == ALL then
      FilterKeepsAll(tasks, ShownBy(filterCategory, filterWeek));
      Filter(tasks, ShownBy(filterCategory, filterWeek))
    else
      Filter(tasks, ShownBy(filterCategory, filterWeek))
  }

  /** The two filters compose: choosing a week narrows the category's list further, and
      the order of narrowing does not matter. */
  lemma FiltersCompose(tasks: seq<Task>, filterCategory: string, filterWeek: string)
    ensures FilteredTasks(tasks, filterCategory, filterWeek) ==
      Filter(FilteredTasks(tasks, filterCategory, ALL), ShownBy(ALL, filterWeek))
    ensures FilteredTasks(tasks, filterCategory, filterWeek) ==
      Filter(FilteredTasks(tasks, ALL, filterWeek), ShownBy(filterCategory, ALL))
  {
    var both := ShownBy(filterCategory, filterWeek);
    FilterFilter(tasks, ShownBy(filterCategory, ALL), ShownBy(ALL, filterWeek));
    FilterCongruent(tasks, Both(ShownBy(filterCategory, ALL), ShownBy(ALL, filterWeek)), both);
    FilterFilter(tasks, ShownBy(ALL, filterWeek), ShownBy(filterCategory, ALL));
    FilterCongruent(tasks, Both(ShownBy(ALL, filterWeek), ShownBy(filterCategory, ALL)), both);
  }

  /** Every category offered selects at least one task while the week filter is "All". */
  lemma CategoryChoicesSelectTasks(tasks: seq<Task>, i: int)
    requires 1 <= i < |Categories(tasks)|
    ensures FilteredTasks(tasks, Categories(tasks)[i], ALL) != []
  {
    var c := Categories(tasks)[i];
    var names := Map(tasks, CategoryName);
    assert c in names;
    var k :| 0 <= k < |names| && names[k] == c;
    assert tasks[k] in FilteredTasks(tasks, c, ALL);
  }
}
