/** The archive (components/ArchiveRepository.tsx): the archived tasks, the search box
    that narrows them, and the short type label of each row. */
module Archive {
  import opened Types
  import opened Seqs
  import opened Text
  import opened Filters

  /** `archivedTasks` */
  function ArchivedTasks(tasks: seq<Task>): (r: seq<Task>)
    ensures forall t :: t in r <==> t in tasks && t.status == ARCHIVED
    ensures IsSubsequence(r, tasks)
    ensures |r| == Count(tasks, HasStatus(ARCHIVED))
  {
    FilterIsSubsequence(tasks, HasStatus(ARCHIVED));
    Filter(tasks, HasStatus(ARCHIVED))
  }

  /** A task matches a search term when the lower-cased term occurs in its lower-cased
      title, code or owner. */
  predicate Matches(t: Task, term: string) {
    var needle := Lower(term);
    Contains(Lower(t.title), needle) || Contains(Lower(t.code), needle) || Contains(Lower(t.owner), needle)
  }

  function MatchesTerm(term: string): Task -> bool {
    (t: Task) => Matches(t, term)
  }

  /** `filteredTasks`: the archived tasks that match, in order; an empty term keeps them all. */
  function SearchArchive(tasks: seq<Task>, term: string): (r: seq<Task>)
    ensures forall t :: t in r <==> t in tasks && t.status == ARCHIVED && Matches(t, term)
    ensures IsSubsequence(r, ArchivedTasks(tasks))
    ensures |r| == Count(ArchivedTasks(tasks), MatchesTerm(term))
    ensures term == "" ==> r == ArchivedTasks(tasks)
  {
    var archived := ArchivedTasks(tasks);
    FilterIsSubsequence(archived, MatchesTerm(term));
    EmptyTermMatchesAll(archived);
    Filter(archived, MatchesTerm(term))
  }

  /** The empty term occurs in every title. */
  lemma EmptyTermMatchesAll(tasks: seq<Task>)
    ensures Filter(tasks, MatchesTerm("")) == tasks
  {
    forall t | t in tasks ensures Matches(t, "") {
      assert Lower("") <= Lower(t.title);
    }
    FilterKeepsAll(tasks, MatchesTerm(""));
  }

  /** The search ignores the case of the term. */
  lemma SearchIgnoresCase(tasks: seq<Task>, term: string)
    ensures SearchArchive(tasks, Lower(term)) == SearchArchive(tasks, term)
  {
    LowerIdempotent(term);
    FilterCongruent(ArchivedTasks(tasks), MatchesTerm(Lower(term)), MatchesTerm(term));
  }

  /** Typing more narrows the list: a term whose lower-cased form contains another's
      finds no task the shorter term misses. */
  lemma LongerTermNarrows(tasks: seq<Task>, short: string, long: string)
    requires Contains(Lower(long), Lower(short))
    ensures forall t :: t in SearchArchive(tasks, long) ==> t in SearchArchive(tasks, short)
  {
    forall t | t in SearchArchive(tasks, long) ensures Matches(t, short) {
      var needle := Lower(long);
      if Contains(Lower(t.title), needle) {
        ContainsTransitive(Lower(t.title), needle, Lower(short));
      } else if Contains(Lower(t.code), needle) {
        ContainsTransitive(Lower(t.code), needle, Lower(short));
      } else {
        ContainsTransitive(Lower(t.owner), needle, Lower(short));
      }
    }
  }

  const GENERIC_LABEL := "TASK"

  /** The type column: "TASK" for the generic type, otherwise the first four characters
      of the type name (all of it when shorter). */
  function TypeLabel(demandType: string): (r: string)
    ensures demandType == GENERIC ==> r == GENERIC_LABEL
    ensures demandType != GENERIC ==> r <= demandType && |r| == if |demandType| < 4 then |demandType| else 4
  {
    if demandType == GENERIC then GENERIC_LABEL else SliceTo(demandType, 4)
  }

  /** The six demand types get six different labels. */
  lemma TypeLabelsDistinct()
    ensures var labels := [TypeLabel(GENERIC), TypeLabel("CREATIVE"), TypeLabel("CAROUSEL"),
      TypeLabel("REELS"), TypeLabel("ANIMATION"), TypeLabel("PRINT")];
      labels == ["TASK", "CREA", "CARO", "REEL", "ANIM", "PRIN"] && NoDuplicates(labels)
  {
    assert TypeLabel("CREATIVE") == "CREA";
    assert TypeLabel("CAROUSEL") == "CARO";
    assert TypeLabel("REELS") == "REEL";
    assert TypeLabel("ANIMATION") == "ANIM";
    assert TypeLabel("PRINT") == "PRIN";
  }
}
