/**
 * The pure list logic of the frontend's root component: the filter and
 * search applied to the loaded tasks, the per-tab counts, and the updaters
 * that fold a server answer into the local list after create, update,
 * delete and toggle.
 */
module App {
  import opened JsValues
  import opened Sequences
  import opened TaskStore

  predicate IsCompleted(t: Task) {
    t.completed
  }

  predicate IsPending(t: Task) {
    !t.completed
  }

  /** The status tab a task shows under: `'completed'`, `'pending'`, or
      anything else (`'all'`), which shows every task. */
  predicate PassesStatus(t: Task, filter: string)
    ensures PassesStatus(t, filter) <==>
      (filter == "completed" ==> t.completed) && (filter == "pending" ==> !t.completed)
  {
    if filter == "completed" then t.completed
    else if filter == "pending" then !t.completed
    else true
  }

  /** The search test: a non-empty title or description contains the term,
      both lowered. The term itself is not trimmed. */
  predicate MatchesSearch(t: Task, term: string)
    ensures term == "" ==>
      (MatchesSearch(t, term) <==> t.title != "" || (t.description.Some? && t.description.value != ""))
  {
    || (t.title != "" && Contains(Lower(t.title), Lower(term)))
    || (t.description.Some? && t.description.value != ""
        && Contains(Lower(t.description.value), Lower(term)))
  }

  /** The search ignores the case of the term. */
  lemma SearchIgnoresTermCase(t: Task, term: string)
    ensures MatchesSearch(t, term) <==> MatchesSearch(t, Lower(term))
  {
    LowerIdempotent(term);
  }

  function SearchHit(term: string): Task -> bool {
    (t: Task) => MatchesSearch(t, term)
  }

  function StatusFiltered(tasks: seq<Task>, filter: string): (r: seq<Task>)
    ensures IsSubsequence(r, tasks)
    ensures forall i :: 0 <= i < |r| ==> r[i] in tasks && PassesStatus(r[i], filter)
    ensures forall i :: 0 <= i < |tasks| && PassesStatus(tasks[i], filter) ==> tasks[i] in r
    ensures forall t :: multiset(r)[t] == if PassesStatus(t, filter) then multiset(tasks)[t] else 0
  {
    if filter == "completed" then Filter(IsCompleted, tasks)
    else if filter == "pending" then Filter(IsPending, tasks)
    else SubsequenceReflexive(tasks); tasks
  }

  /** `applyFilter`: the status filter, then the search when the trimmed
      term is not empty. The result keeps exactly the tasks that pass both,
      in their original order. */
  function ApplyFilter(tasks: seq<Task>, filter: string, searchTerm: string): (r: seq<Task>)
    ensures IsSubsequence(r, tasks)
    ensures forall i :: 0 <= i < |r| ==>
      r[i] in tasks && PassesStatus(r[i], filter) && (IsBlank(searchTerm) || MatchesSearch(r[i], searchTerm))
    ensures forall i :: 0 <= i < |tasks| ==>
      (PassesStatus(tasks[i], filter) && (IsBlank(searchTerm) || MatchesSearch(tasks[i], searchTerm)) ==> tasks[i] in r)
    ensures forall t ::
      multiset(r)[t] == if PassesStatus(t, filter) && (IsBlank(searchTerm) || MatchesSearch(t, searchTerm))
        then multiset(tasks)[t] else 0
  {
    var filtered := StatusFiltered(tasks, filter);
    TrimEmptyIffBlank(searchTerm);
    if Trim(searchTerm) != "" then
      var r := Filter(SearchHit(searchTerm), filtered);
      SubsequenceTransitive(r, filtered, tasks);
      r
    else
      filtered
  }

  datatype Counts = Counts(all: nat, completed: nat, pending: nat)

  /** `taskCounts`: the numbers shown on the three tabs. */
  function TaskCounts(tasks: seq<Task>): (c: Counts)
    ensures c.all == |tasks| && c.completed + c.pending == c.all
    ensures c.completed == |ApplyFilter(tasks, "completed", "")|
    ensures c.pending == |ApplyFilter(tasks, "pending", "")|
  {
    FilterPartition(IsCompleted, IsPending, tasks);
    Counts(|tasks|, |Filter(IsCompleted, tasks)|, |Filter(IsPending, tasks)|)
  }

  /** The create updater: the new task goes at the end. */
  function Appended(prev: seq<Task>, created: Task): (r: seq<Task>)
    ensures |r| == |prev| + 1 && r[..|prev|] == prev && r[|prev|] == created
  {
    prev + [created]
  }

  /** The update and toggle updater: every task with that id is replaced by
      the server's answer, the others stay where they are. */
  function ReplacedById(prev: seq<Task>, id: int, data: Task): (r: seq<Task>)
    ensures |r| == |prev|
    ensures forall i :: 0 <= i < |prev| && prev[i].id != id ==> r[i] == prev[i]
    ensures forall i :: 0 <= i < |prev| && prev[i].id == id ==> r[i] == data
  {
    if prev == [] then []
    else [if prev[0].id == id then data else prev[0]] + ReplacedById(prev[1..], id, data)
  }

  function IdIsNot(id: int): Task -> bool {
    (t: Task) => t.id != id
  }

  /** The delete updater: every task with that id goes, the rest keep their order. */
  function RemovedById(prev: seq<Task>, id: int): (r: seq<Task>)
    ensures IsSubsequence(r, prev)
    ensures forall i :: 0 <= i < |r| ==> r[i] in prev && r[i].id != id
    ensures forall i :: 0 <= i < |prev| && prev[i].id != id ==> prev[i] in r
    ensures forall t :: multiset(r)[t] == if t.id != id then multiset(prev)[t] else 0
  {
    Filter(IdIsNot(id), prev)
  }

  /** With the store's unique ids, the local update/toggle updater produces
      the store's own new list: the one task replaced in place. */
  lemma ReplacedMirrorsStore(prev: seq<Task>, k: nat, data: Task)
    requires IdsUnique(prev) && k < |prev|
    ensures ReplacedById(prev, prev[k].id, data) == prev[k := data]
  {
  }

  /** With the store's unique ids, the local delete updater produces the
      store's own new list: the one task spliced out. */
  lemma RemovedMirrorsStore(prev: seq<Task>, k: nat)
    requires IdsUnique(prev) && k < |prev|
    ensures RemovedById(prev, prev[k].id) == prev[..k] + prev[k + 1..]
  {
    var keep := IdIsNot(prev[k].id);
    forall i | 0 <= i < |prev| && i != k
      ensures keep(prev[i])
    {
      assert i < k ==> prev[i].id != prev[k].id;
    }
    FilterDropsOne(keep, prev, k);
  }

  /** With no status restriction and a blank term the list is shown as is. */
  lemma {:induction false} ShowAllIsIdentity(tasks: seq<Task>, searchTerm: string)
    requires IsBlank(searchTerm)
    ensures ApplyFilter(tasks, "all", searchTerm) == tasks
  {
    TrimEmptyIffBlank(searchTerm);
  }
}
