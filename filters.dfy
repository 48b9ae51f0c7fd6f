/** Pieces shared by the list views: the "All" choice of a filter drop-down, the option
    list built from a column's distinct values, and the by-status test. */
module Filters {
  import opened Types
  import opened Seqs

  /** The drop-down choice that switches a filter off. */
  const ALL := "All"

  /** `t => t.status === c` */
  function HasStatus(c: TaskStatus): Task -> bool {
    (t: Task) => t.status == c
  }

  /** What a view's save handler asks of the app: `onAddTask(task)` or `onEditTask(task)`. */
  datatype SaveRequest = AddTask(task: Task) | EditTask(task: Task)

  /** `t => t.owner` */
  function OwnerOf(t: Task): string {
    t.owner
  }

  /** `['All', ...Array.from(new Set(values))]`: "All", then each value once, in the order
      in which it first appears. */
  function OptionList(values: seq<string>): (r: seq<string>)
    ensures |r| >= 1 && r[0] == ALL
    ensures forall v :: v in values <==> exists i :: 1 <= i < |r| && r[i] == v
    ensures forall i, j :: 1 <= i < j < |r| ==> r[i] != r[j]
    ensures forall i, j :: 1 <= i < j < |r| ==> FirstIndex(values, r[i]) < FirstIndex(values, r[j])
  {
    var d := Distinct(values);
    DistinctFirstAppearance(values);
    var r := [ALL] + d;
    assert forall i :: 1 <= i < |r| ==> r[i] == d[i - 1];
    assert forall v :: v in d ==> exists i :: 1 <= i < |r| && r[i] == v by {
      forall v | v in d ensures exists i :: 1 <= i < |r| && r[i] == v {
        var k :| 0 <= k < |d| && d[k] == v;
        assert r[k + 1] == v;
      }
    }
    r
  }
}
