/** The command-centre figures (components/Dashboard.tsx): the per-status counts, the
    totals and the work-in-progress figure, the per-owner tally behind the bar chart, and
    the blocked-task alert list. Chart rendering is not modelled. */
module Dashboard {
  import opened Types
  import opened Seqs
  import opened Filters

  /** `tasks.filter(t => t.status === s).length` */
  function StatusCount(tasks: seq<Task>, s: TaskStatus): (n: nat)
    ensures n == |Filter(tasks, HasStatus(s))|
    ensures n <= |tasks|
  {
    Count(tasks, HasStatus(s))
  }

  function UnknownStatus(t: Task): bool {
    t.status.Other?
  }

  /** Every task has exactly one status, so the six status counts and the tasks with a
      status outside the enumeration add up to the whole list. */
  lemma {:induction false} StatusCountsPartition(tasks: seq<Task>)
    ensures StatusCount(tasks, BACKLOG) + StatusCount(tasks, TODO) + StatusCount(tasks, IN_PROGRESS) +
      StatusCount(tasks, DONE) + StatusCount(tasks, BLOCKED) + StatusCount(tasks, ARCHIVED) +
      Count(tasks, UnknownStatus) == |tasks|
  {
    if tasks != [] {
      var init, last := tasks[..|tasks| - 1], tasks[|tasks| - 1];
      StatusCountsPartition(init);
      StatusCountStep(tasks, BACKLOG);
      StatusCountStep(tasks, TODO);
      StatusCountStep(tasks, IN_PROGRESS);
      StatusCountStep(tasks, DONE);
      StatusCountStep(tasks, BLOCKED);
      StatusCountStep(tasks, ARCHIVED);
      assert Count(tasks, UnknownStatus) == Count(init, UnknownStatus) + if last.status.Other? then 1 else 0;
    }
  }

  lemma StatusCountStep(tasks: seq<Task>, c: TaskStatus)
    requires tasks != []
    ensures StatusCount(tasks, c) ==
      StatusCount(tasks[..|tasks| - 1], c) + if tasks[|tasks| - 1].status == c then 1 else 0
  {
    assert HasStatus(c)(tasks[|tasks| - 1]) == (tasks[|tasks| - 1].status == c);
  }

  /** The figures of the pipeline cards. */
  datatype Stats = Stats(
    backlog: nat, done: nat, inProgress: nat, blocked: nat, todo: nat,
    totalActive: nat, totalAll: nat, wip: nat)

  /** The counts, `totalActive`, `totalAll` and the WIP card (`inProgress + todo`).
      Archived tasks are in neither total: the totals and the archived and unknown-status
      tasks together are exactly the list. */
  function ComputeStats(tasks: seq<Task>): (r: Stats)
    ensures r.backlog == StatusCount(tasks, BACKLOG) && r.done == StatusCount(tasks, DONE)
    ensures r.inProgress == StatusCount(tasks, IN_PROGRESS) && r.blocked == StatusCount(tasks, BLOCKED)
    ensures r.todo == StatusCount(tasks, TODO)
    ensures r.totalAll + StatusCount(tasks, ARCHIVED) + Count(tasks, UnknownStatus) == |tasks|
    ensures r.totalAll == r.totalActive + r.backlog
    ensures r.totalActive == r.done + r.inProgress + r.blocked + r.todo
    ensures r.wip == r.inProgress + r.todo
    ensures r.wip <= r.totalActive <= r.totalAll <= |tasks|
  {
    StatusCountsPartition(tasks);
    var backlog := StatusCount(tasks, BACKLOG);
    var done := StatusCount(tasks, DONE);
    var inProgress := StatusCount(tasks, IN_PROGRESS);
    var blocked := StatusCount(tasks, BLOCKED);
    var todo := StatusCount(tasks, TODO);
    var totalActive := done + inProgress + blocked + todo;
    Stats(backlog, done, inProgress, blocked, todo, totalActive, totalActive + backlog, inProgress + todo)
  }

  /** One bar of the owner chart: `{ name, count }`. */
  datatype OwnerCount = OwnerCount(name: string, count: nat)

  /** The record's keys, in insertion order. */
  function Names(acc: seq<OwnerCount>): seq<string> {
    if acc == [] then [] else [acc[0].name] + Names(acc[1..])
  }

  /** The sum of the counts. */
  function Total(acc: seq<OwnerCount>): nat {
    if acc == [] then 0 else acc[0].count + Total(acc[1..])
  }

  /** `acc[o] || 0` */
  function CountFor(acc: seq<OwnerCount>, o: string): nat {
    if acc == [] then 0 else if acc[0].name == o then acc[0].count else CountFor(acc[1..], o)
  }

  /** `acc[o] = (acc[o] || 0) + 1` on a record whose keys keep insertion order. */
  function Bump(acc: seq<OwnerCount>, o: string): (r: seq<OwnerCount>)
    ensures forall n :: CountFor(r, n) == CountFor(acc, n) + (if n == o then 1 else 0)
    ensures Names(r) == if o in Names(acc) then Names(acc) else Names(acc) + [o]
    ensures Total(r) == Total(acc) + 1
  {
    if acc == [] then [OwnerCount(o, 1)]
    else if acc[0].name == o then
      var r := [OwnerCount(o, acc[0].count + 1)] + acc[1..];
      assert r[1..] == acc[1..];
      r
    else
      var r := [acc[0]] + Bump(acc[1..], o);
      assert r[1..] == Bump(acc[1..], o);
      assert Names(acc) == [acc[0].name] + Names(acc[1..]);
      r
  }

  /** The `reduce` fold over a list of owners. */
  function Tally(owners: seq<string>): (r: seq<OwnerCount>)
    ensures forall n :: CountFor(r, n) == Occurrences(owners, n)
    ensures Names(r) == Distinct(owners)
    ensures Total(r) == |owners|
  {
    if owners == [] then []
    else Bump(Tally(owners[..|owners| - 1]), owners[|owners| - 1])
  }

  function NotBacklog(t: Task): bool {
    t.status != BACKLOG
  }

  /** `t => t.status !== BACKLOG && t.owner === o` */
  function CountedFor(o: string): Task -> bool {
    (t: Task) => t.status != BACKLOG && t.owner == o
  }

  /** Counting an owner among the non-backlog owners counts that owner's non-backlog tasks. */
  lemma {:induction false} OwnerOccurrences(tasks: seq<Task>, o: string)
    ensures Occurrences(Map(Filter(tasks, NotBacklog), OwnerOf), o) == Count(tasks, CountedFor(o))
  {
    if tasks != [] {
      var init, last := tasks[..|tasks| - 1], tasks[|tasks| - 1];
      OwnerOccurrences(init, o);
      var f := Filter(init, NotBacklog);
      if NotBacklog(last) {
        assert Filter(tasks, NotBacklog) == f + [last];
        MapConcat(f, [last], OwnerOf);
        var m := Map(f, OwnerOf) + [last.owner];
        assert m[..|m| - 1] == Map(f, OwnerOf);
      } else {
        assert Filter(tasks, NotBacklog) == f;
      }
    }
  }

  /** `ownerData`: one bar per owner of a non-backlog task (archived ones included), in
      first-appearance order, counting that owner's non-backlog tasks; the bars add up to
      the number of non-backlog tasks. */
  function OwnerData(tasks: seq<Task>): (r: seq<OwnerCount>)
    ensures Names(r) == Distinct(Map(Filter(tasks, NotBacklog), OwnerOf))
    ensures forall o :: CountFor(r, o) == Count(tasks, CountedFor(o))
    ensures Total(r) == Count(tasks, NotBacklog)
  {
    forall o ensures Occurrences(Map(Filter(tasks, NotBacklog), OwnerOf), o) == Count(tasks, CountedFor(o)) {
      OwnerOccurrences(tasks, o);
    }
    Tally(Map(Filter(tasks, NotBacklog), OwnerOf))
  }

  /** The alert list: exactly the blocked tasks, in list order. It is shown iff the
      blocked count is positive. */
  function BlockedTasks(tasks: seq<Task>): (r: seq<Task>)
    ensures forall t :: t in r <==> t in tasks && t.status == BLOCKED
    ensures IsSubsequence(r, tasks)
    ensures |r| == ComputeStats(tasks).blocked
  {
    FilterIsSubsequence(tasks, HasStatus(BLOCKED));
    Filter(tasks, HasStatus(BLOCKED))
  }
}
