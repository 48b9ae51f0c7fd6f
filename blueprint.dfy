/** The planning view (components/StrategicBlueprint.tsx): the backlog, grouped by
    category; saving a new item into the backlog; promoting an item to TODO; and the
    category icon chosen from the category name. */
module Blueprint {
  import opened Types
  import opened Seqs
  import opened Text
  import opened Filters
  import App
  import Kanban

  /** The group key of an item without a category. */
  const GROUP_FALLBACK := "Geral"

  /** `backlogItems` */
  function BacklogItems(tasks: seq<Task>): (r: seq<Task>)
    ensures forall t :: t in r <==> t in tasks && t.status == BACKLOG
    ensures IsSubsequence(r, tasks)
    ensures |r| == Count(tasks, HasStatus(BACKLOG))
  {
    FilterIsSubsequence(tasks, HasStatus(BACKLOG));
    Filter(tasks, HasStatus(BACKLOG))
  }

  /** `item.category || 'Geral'` */
  function GroupKey(t: Task): (k: string)
    ensures k != ""
    ensures t.category != "" ==> k == t.category
  {
    if t.category == "" then GROUP_FALLBACK else t.category
  }

  /** One entry of `Object.entries(groupedItems)`. */
  datatype Group = Group(category: string, items: seq<Task>)

  /** The group keys, in insertion order. */
  function Keys(groups: seq<Group>): (r: seq<string>)
    ensures |r| == |groups| && forall i :: 0 <= i < |groups| ==> r[i] == groups[i].category
  {
    if groups == [] then [] else [groups[0].category] + Keys(groups[1..])
  }

  /** The number of items over all groups. */
  function Size(groups: seq<Group>): nat {
    if groups == [] then 0 else |groups[0].items| + Size(groups[1..])
  }

  /** `acc[k] || []` */
  function ItemsFor(groups: seq<Group>, k: string): seq<Task> {
    if groups == [] then [] else if groups[0].category == k then groups[0].items else ItemsFor(groups[1..], k)
  }

  /** One step of the `reduce`: create the item's group if it is missing, then push the item. */
  function AddToGroup(groups: seq<Group>, item: Task): (r: seq<Group>)
    ensures forall k :: ItemsFor(r, k) == ItemsFor(groups, k) + (if GroupKey(item) == k then [item] else [])
    ensures Keys(r) == if GroupKey(item) in Keys(groups) then Keys(groups) else Keys(groups) + [GroupKey(item)]
    ensures Size(r) == Size(groups) + 1
  {
    var key := GroupKey(item);
    if groups == [] then
      var r := [Group(key, [item])];
      assert forall k :: ItemsFor(r, k) == if key == k then [item] else [];
      r
    else if groups[0].category == key then
      var r := [Group(key, groups[0].items + [item])] + groups[1..];
      assert r[1..] == groups[1..];
      assert key in Keys(groups) by { assert Keys(groups)[0] == key; }
      forall k ensures ItemsFor(r, k) == ItemsFor(groups, k) + (if key == k then [item] else []) {
        if k != key {
          assert ItemsFor(r, k) == ItemsFor(groups[1..], k);
        }
      }
      AppendKeys(r);
      AppendKeys(groups);
      r
    else
      var rest := AddToGroup(groups[1..], item);
      var r := [groups[0]] + rest;
      assert r[1..] == rest;
      forall k ensures ItemsFor(r, k) == ItemsFor(groups, k) + (if key == k then [item] else []) {
        if k == groups[0].category {
          assert ItemsFor(r, k) == groups[0].items;
        } else {
          assert ItemsFor(r, k) == ItemsFor(rest, k);
        }
      }
      assert Keys(groups) == [groups[0].category] + Keys(groups[1..]);
      assert Keys(r) == [groups[0].category] + Keys(rest);
      assert key in Keys(groups) <==> key in Keys(groups[1..]);
      r
  }

  lemma AppendKeys(groups: seq<Group>)
    requires groups != []
    ensures Keys(groups) == [groups[0].category] + Keys(groups[1..])
  {
  }

  /** `t => (t.category || 'Geral') === k` */
  function WithKey(k: string): Task -> bool {
    (t: Task) => GroupKey(t) == k
  }

  /** The `reduce` over a list of items. */
  function Grouped(items: seq<Task>): (r: seq<Group>)
    ensures forall k :: ItemsFor(r, k) == Filter(items, WithKey(k))
    ensures Keys(r) == Distinct(Map(items, GroupKey))
    ensures Size(r) == |items|
  {
    if items == [] then []
    else
      var init, last := items[..|items| - 1], items[|items| - 1];
      assert items == init + [last];
      GroupedStep(init, last, Grouped(init));
      AddToGroup(Grouped(init), last)
  }

  /** One more item keeps the grouping's three properties. */
  lemma GroupedStep(init: seq<Task>, last: Task, prev: seq<Group>)
    requires forall k :: ItemsFor(prev, k) == Filter(init, WithKey(k))
    requires Keys(prev) == Distinct(Map(init, GroupKey))
    requires Size(prev) == |init|
    ensures var r := AddToGroup(prev, last);
      (forall k :: ItemsFor(r, k) == Filter(init + [last], WithKey(k))) &&
      Keys(r) == Distinct(Map(init + [last], GroupKey)) &&
      Size(r) == |init| + 1
  {
    var r := AddToGroup(prev, last);
    forall k ensures ItemsFor(r, k) == Filter(init + [last], WithKey(k)) {
      FilterAppend(init, last, WithKey(k));
    }
    MapConcat(init, [last], GroupKey);
    DistinctAppend(Map(init, GroupKey), GroupKey(last));
  }

  /** With distinct keys, looking a group's own key up finds that group. */
  lemma {:induction false} ItemsForOwnKey(groups: seq<Group>, i: nat)
    requires i < |groups| && NoDuplicates(Keys(groups))
    ensures ItemsFor(groups, groups[i].category) == groups[i].items
  {
    if i > 0 {
      assert Keys(groups[1..])[i - 1] == Keys(groups)[i];
      assert groups[0].category == Keys(groups)[0];
      ItemsForOwnKey(groups[1..], i - 1);
    }
  }

  /** `groupedItems`: one group per distinct key, in first-appearance order; each group
      holds exactly the backlog items with its key, in list order, so every item lands in
      exactly one group and the group sizes add up to the backlog count. */
  function GroupedItems(tasks: seq<Task>): (r: seq<Group>)
    ensures Keys(r) == Distinct(Map(BacklogItems(tasks), GroupKey))
    ensures forall i :: 0 <= i < |r| ==> r[i].items == Filter(BacklogItems(tasks), WithKey(r[i].category))
    ensures forall i, t :: 0 <= i < |r| && t in BacklogItems(tasks) ==> (t in r[i].items <==> r[i].category == GroupKey(t))
    ensures forall i, j :: 0 <= i < j < |r| ==> r[i].category != r[j].category
    ensures Size(r) == |BacklogItems(tasks)|
  {
    var items := BacklogItems(tasks);
    var r := Grouped(items);
    forall i | 0 <= i < |r| ensures r[i].items == Filter(items, WithKey(r[i].category)) {
      ItemsForOwnKey(r, i);
    }
    r
  }

  /** Every backlog item's key has a group. */
  lemma EveryItemGrouped(tasks: seq<Task>, t: Task)
    requires t in BacklogItems(tasks)
    ensures exists i :: 0 <= i < |GroupedItems(tasks)| && t in GroupedItems(tasks)[i].items
  {
    GroupedItemsIsGrouped(tasks);
    ItemGrouped(BacklogItems(tasks), t);
  }

  lemma GroupedItemsIsGrouped(tasks: seq<Task>)
    ensures GroupedItems(tasks) == Grouped(BacklogItems(tasks))
  {
  }

  lemma ItemGrouped(items: seq<Task>, t: Task)
    requires t in items
    ensures exists i :: 0 <= i < |Grouped(items)| && t in Grouped(items)[i].items
  {
    var r := Grouped(items);
    assert WithKey(GroupKey(t))(t);
    assert t in ItemsFor(r, GroupKey(t));
    ItemsForFound(r, GroupKey(t), t);
  }

  /** What the lookup of a key finds belongs to one of the groups. */
  lemma {:induction false} ItemsForFound(groups: seq<Group>, k: string, t: Task)
    requires t in ItemsFor(groups, k)
    ensures exists i :: 0 <= i < |groups| && t in groups[i].items
  {
    if groups[0].category != k {
      ItemsForFound(groups[1..], k, t);
      var i :| 0 <= i < |groups[1..]| && t in groups[1..][i].items;
      assert groups[i + 1] == groups[1..][i];
    }
  }

  /** `handleSave`: a new item is forced into the backlog; an edit keeps the status given. */
  function HandleSave(editing: bool, task: Task): (r: SaveRequest)
    ensures r.EditTask? <==> editing
    ensures editing ==> r.task == task
    ensures !editing ==> r.task == task.(status := BACKLOG)
  {
    if !editing then AddTask(task.(status := BACKLOG)) else EditTask(task)
  }

  /** A new item, once the app appends it, is the last backlog item. */
  lemma NewItemJoinsBacklog(tasks: seq<Task>, task: Task)
    ensures BacklogItems(tasks + [HandleSave(false, task).task]) == BacklogItems(tasks) + [HandleSave(false, task).task]
  {
    FilterAppend(tasks, task.(status := BACKLOG), HasStatus(BACKLOG));
  }

  /** `activateTask(id)`: the status change the view asks for. */
  function ActivateTask(id: string): (r: (string, TaskStatus))
    ensures r.0 == id && r.1 == TODO
  {
    (id, TODO)
  }

  /** Once the app applies an activation, the item has left the backlog and is on the
      production board. */
  lemma ActivationLeavesBacklog(tasks: seq<Task>, id: string)
    ensures var next := App.StatusUpdated(tasks, ActivateTask(id).0, ActivateTask(id).1);
      (forall t :: t in BacklogItems(next) ==> t.id != id) &&
      (forall t :: t in tasks && t.id == id ==> t.(status := TODO) in Kanban.ActiveTasks(next))
  {
    var next := App.StatusUpdated(tasks, id, TODO);
    App.StatusUpdateFacts(tasks, id, TODO);
    forall t | t in BacklogItems(next) ensures t.id != id {
      var k :| 0 <= k < |next| && next[k] == t;
    }
    forall t | t in tasks && t.id == id ensures t.(status := TODO) in Kanban.ActiveTasks(next) {
      var k :| 0 <= k < |tasks| && tasks[k] == t;
      assert next[k] == t.(status := TODO);
    }
  }

  const TECH := "tech"
  const INFRA := "infra"
  const MARKET := "market"
  const BRAND := "brand"
  const CONTENT := "conteúdo"
  const STRATEGY := "strat"

  /** The icon of a group header. */
  datatype CategoryIcon = DatabaseIcon | MegaphoneIcon | CrosshairIcon | LayersIcon

  /** `getCategoryIcon`: the tests run on the lower-cased name in a fixed priority order,
      technology first, then marketing, then strategy. */
  function GetCategoryIcon(cat: string): (r: CategoryIcon)
    ensures var lower := Lower(cat);
      (r == DatabaseIcon <==> Contains(lower, TECH) || Contains(lower, INFRA)) &&
      (r == MegaphoneIcon <==> (!Contains(lower, TECH) && !Contains(lower, INFRA) &&
        (Contains(lower, MARKET) || Contains(lower, BRAND) || Contains(lower, CONTENT)))) &&
      (r == CrosshairIcon <==> (!Contains(lower, TECH) && !Contains(lower, INFRA) &&
        !Contains(lower, MARKET) && !Contains(lower, BRAND) && !Contains(lower, CONTENT) &&
        Contains(lower, STRATEGY))) &&
      (r == LayersIcon <==> (!Contains(lower, TECH) && !Contains(lower, INFRA) &&
        !Contains(lower, MARKET) && !Contains(lower, BRAND) && !Contains(lower, CONTENT) &&
        !Contains(lower, STRATEGY)))
  {
    var lower := Lower(cat);
    if Contains(lower, TECH) || Contains(lower, INFRA) then DatabaseIcon
    else if Contains(lower, MARKET) || Contains(lower, BRAND) || Contains(lower, CONTENT) then MegaphoneIcon
    else if Contains(lower, STRATEGY) then CrosshairIcon
    else LayersIcon
  }

  /** The icon does not depend on letter case. */
  lemma IconIgnoresCase(cat: string)
    ensures GetCategoryIcon(Lower(cat)) == GetCategoryIcon(cat)
  {
    LowerIdempotent(cat);
  }
}
