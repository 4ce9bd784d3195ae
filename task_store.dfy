/**
 * The in-memory task store behind the REST routes: an ordered array of tasks
 * and the counter that hands out ids, changed in place by the create,
 * update, delete and toggle handlers.
 */
module TaskStore {
  import opened JsValues
  import opened Validation
  import Sequences

  /** `createdAt` is read from the clock; the model takes the instant as a
      parameter and can only store and compare it. */
  type Timestamp(==, !new)

  datatype Task = Task(
    id: int,
    title: string,
    description: Option<string>,
    completed: bool,
    createdAt: Timestamp,
    priority: Value)

  /** What a handler answers: the gate's 400, the 400 "Invalid task id", the
      404 "Task not found", or success with the task as `data`. */
  datatype Outcome =
    | Rejected(error: string, details: Option<seq<Message>>)
    | InvalidId
    | NotFound
    | Done(task: Task)

  const InvalidIdMessage := "Invalid task id"
  const NotFoundMessage := "Task not found"

  /** The destructuring default of the create handler. */
  const DefaultPriority := Str("medium")

  /** The shared guard of update, delete and toggle: `parseInt` produced a
      number (not `NaN`) that is at least 1. */
  predicate ValidId(id: Option<int>) {
    id.Some? && id.value >= 1
  }

  /** The guard turns away only ids no stored task can carry: every id the
      counter hands out is at least 1. */
  lemma InvalidIdIsNeverStored(tasks: seq<Task>, issued: set<int>, nextId: int, id: Option<int>)
    requires StoredWell(tasks, issued) && forall i :: i in issued <==> 1 <= i < nextId
    requires id.Some? && !ValidId(id)
    ensures !HasId(tasks, id.value)
  {
  }

  predicate HasId(tasks: seq<Task>, id: int) {
    exists i :: 0 <= i < |tasks| && tasks[i].id == id
  }

  predicate IdsUnique(tasks: seq<Task>) {
    forall i, j :: 0 <= i < j < |tasks| ==> tasks[i].id != tasks[j].id
  }

  /** What the gates guarantee of every stored task: a clean title and a
      priority that is falsy or in the enumeration. A falsy priority (`''`,
      `null`, `0`, `false`) is kept as sent, so the enumeration alone is not
      an invariant. */
  predicate WellFormed(t: Task) {
    IsCleanTitle(t.title) && IsAdmittedPriority(t.priority)
  }

  /** The invariant of the stored list on its own: ids unique and issued,
      every task well formed. */
  predicate StoredWell(tasks: seq<Task>, issued: set<int>) {
    && (forall i :: 0 <= i < |tasks| ==> tasks[i].id in issued && WellFormed(tasks[i]))
    && IdsUnique(tasks)
  }

  /** Replacing a task by a well-formed one with the same id keeps the invariant. */
  lemma ReplaceKeepsStoredWell(tasks: seq<Task>, issued: set<int>, k: int, t: Task)
    requires StoredWell(tasks, issued) && 0 <= k < |tasks|
    requires t.id == tasks[k].id && WellFormed(t)
    ensures StoredWell(tasks[k := t], issued)
  {
    var after := tasks[k := t];
    forall i, j | 0 <= i < j < |after|
      ensures after[i].id != after[j].id
    {
      assert after[i].id == tasks[i].id && after[j].id == tasks[j].id;
    }
  }

  /** Splicing a task out keeps the invariant. */
  lemma RemoveKeepsStoredWell(tasks: seq<Task>, issued: set<int>, k: int)
    requires StoredWell(tasks, issued) && 0 <= k < |tasks|
    ensures StoredWell(tasks[..k] + tasks[k + 1..], issued)
    ensures !HasId(tasks[..k] + tasks[k + 1..], tasks[k].id)
  {
    var after := tasks[..k] + tasks[k + 1..];
    assert forall i :: 0 <= i < |after| ==> after[i] == tasks[if i < k then i else i + 1];
  }

  /** A normalised create body, as `validateTask` hands it on. */
  predicate AdmittedNewTask(input: NewTask) {
    IsCleanTitle(input.title) && (input.priority.Some? ==> IsAdmittedPriority(input.priority.value))
  }

  /** A normalised patch, as `validateTaskUpdate` hands it on. */
  predicate AdmittedPatch(p: Patch) {
    (p.title.Some? ==> IsCleanTitle(p.title.value)) && (p.priority.Some? ==> p.priority.value in Priorities)
  }

  /** The update merge: every field the patch carries replaces the stored
      one; `id` and `createdAt` are never touched. */
  function Merge(t: Task, p: Patch): (r: Task)
    ensures r.id == t.id && r.createdAt == t.createdAt
  {
    t.(title := if p.title.Some? then p.title.value else t.title,
       description := if p.description.Some? then p.description else t.description,
       completed := if p.completed.Some? then p.completed.value else t.completed,
       priority := if p.priority.Some? then Str(p.priority.value) else t.priority)
  }

  /** The toggle: `completed` negated, nothing else. */
  function Flip(t: Task): (r: Task)
    ensures r.completed != t.completed
    ensures r.(completed := t.completed) == t
  {
    t.(completed := !t.completed)
  }

  /** Toggling is its own inverse. */
  lemma FlipInvolution(t: Task)
    ensures Flip(Flip(t)) == t
  {
  }

  /** The success message of the toggle route. */
  function ToggleMessage(t: Task): (m: string)
    ensures t.completed <==> m == "Task marked as completed"
  {
    "Task marked as " + if t.completed then "completed" else "incomplete"
  }

  /** The position of the first task with that id, or -1. */
  function IndexOf(tasks: seq<Task>, id: int): (k: int)
    ensures -1 <= k < |tasks|
    ensures k == -1 <==> !HasId(tasks, id)
    ensures k >= 0 ==> tasks[k].id == id && forall i :: 0 <= i < k ==> tasks[i].id != id
  {
    if tasks == [] then -1
    else if tasks[0].id == id then 0
    else
      var k := IndexOf(tasks[1..], id);
      if k == -1 then -1 else k + 1
  }

  /** `tasks.findIndex(task => task.id === id)`. */
  method FindIndex(tasks: seq<Task>, id: int) returns (k: int)
    ensures k == IndexOf(tasks, id)
  {
    k := 0;
    while k < |tasks|
      invariant 0 <= k <= |tasks|
      invariant forall i :: 0 <= i < k ==> tasks[i].id != id
    {
      if tasks[k].id == id {
        return;
      }
      k := k + 1;
    }
    k := -1;
  }

  /** With unique ids, the search finds the one task carrying that id. */
  lemma IndexOfOnlyMatch(tasks: seq<Task>, id: int, i: int)
    requires IdsUnique(tasks) && 0 <= i < |tasks| && tasks[i].id == id
    ensures IndexOf(tasks, id) == i
  {
  }

  class Store {
    var tasks: seq<Task>
    var nextId: int
    /** Every id the store has ever handed out. */
    ghost var Issued: set<int>

    /** Ids are unique and positive, every stored id was issued, and exactly
        the ids below `nextId` have been issued. */
    ghost predicate Valid()
      reads this
    {
      && 1 <= nextId
      && (forall i :: i in Issued <==> 1 <= i < nextId)
      && StoredWell(tasks, Issued)
    }

    constructor ()
      ensures Valid() && tasks == [] && nextId == 1 && Issued == {}
    {
      tasks, nextId := [], 1;
      Issued := {};
    }

    /** GET /: the tasks in insertion order and their count. */
    method List() returns (data: seq<Task>, count: nat)
      ensures data == tasks && count == |data|
    {
      data, count := tasks, |tasks|;
    }

    /** The POST handler body, on a body the create gate let through. */
    method Create(input: NewTask, now: Timestamp) returns (created: Task)
      requires Valid() && AdmittedNewTask(input)
      modifies this
      ensures Valid()
      ensures created.id == old(nextId) && created.id !in old(Issued)
      ensures forall i :: 0 <= i < |old(tasks)| ==> old(tasks)[i].id < created.id
      ensures created.title == input.title && created.description == input.description
      ensures !created.completed && created.createdAt == now
      ensures created.priority == if input.priority.None? then DefaultPriority else input.priority.value
      ensures tasks == old(tasks) + [created]
      ensures nextId == old(nextId) + 1 && Issued == old(Issued) + {created.id}
    {
      var priority := if input.priority.None? then DefaultPriority else input.priority.value;
      created := Task(nextId, input.title, input.description, false, now, priority);
      nextId := nextId + 1;
      Issued := Issued + {created.id};
      tasks := tasks + [created];
    }

    /** POST /: the create gate, then the handler. */
    method Post(body: Body, now: Timestamp) returns (r: Outcome)
      requires Valid()
      modifies this
      ensures Valid()
      ensures CreateErrors(body) != [] ==>
        r == Rejected(ValidationFailed, Some(CreateErrors(body)))
        && tasks == old(tasks) && nextId == old(nextId) && Issued == old(Issued)
      ensures CreateErrors(body) == [] ==>
        && r.Done? && r.task.id == old(nextId) && r.task.id !in old(Issued)
        && r.task.title == Trim(body.title.value.s) && !r.task.completed && r.task.createdAt == now
        && (body.description.None? ==> r.task.description.None?)
        && (body.description.Some? ==> r.task.description == Some(Trim(body.description.value.s)))
        && r.task.priority == (if body.priority.None? then DefaultPriority else body.priority.value)
        && tasks == old(tasks) + [r.task]
        && nextId == old(nextId) + 1 && Issued == old(Issued) + {r.task.id}
    {
      var v := ValidateTask(body);
      if v.Reject? {
        return Rejected(v.error, v.details);
      }
      var created := Create(v.body, now);
      r := Done(created);
    }

    /** `tasks[taskIndex].x = …`: the task at `k` is replaced by one with
        the same id. */
    method ReplaceAt(k: int, t: Task)
      requires Valid() && 0 <= k < |tasks| && t.id == tasks[k].id && WellFormed(t)
      modifies this
      ensures Valid() && tasks == old(tasks)[k := t]
      ensures nextId == old(nextId) && Issued == old(Issued)
    {
      ReplaceKeepsStoredWell(tasks, Issued, k, t);
      tasks := tasks[k := t];
    }

    /** `tasks.splice(k, 1)`. */
    method SpliceAt(k: int)
      requires Valid() && 0 <= k < |tasks|
      modifies this
      ensures Valid() && tasks == old(tasks)[..k] + old(tasks)[k + 1..]
      ensures nextId == old(nextId) && Issued == old(Issued)
    {
      RemoveKeepsStoredWell(tasks, Issued, k);
      tasks := tasks[..k] + tasks[k + 1..];
    }

    /** The PUT handler body, on a patch the update gate let through. */
    method Update(id: Option<int>, patch: Patch) returns (r: Outcome)
      requires Valid() && AdmittedPatch(patch)
      modifies this
      ensures Valid() && nextId == old(nextId) && Issued == old(Issued)
      ensures r.InvalidId? || r.NotFound? || r.Done?
      ensures r.InvalidId? <==> !ValidId(id)
      ensures r.NotFound? <==> ValidId(id) && !HasId(old(tasks), id.value)
      ensures !r.Done? ==> tasks == old(tasks)
      ensures r.Done? ==>
        var k := IndexOf(old(tasks), id.value);
        0 <= k && r.task == Merge(old(tasks)[k], patch) && tasks == old(tasks)[k := r.task]
    {
      if id.None? || id.value < 1 {
        return InvalidId;
      }
      var k := FindIndex(tasks, id.value);
      if k == -1 {
        return NotFound;
      }
      var updated := Merge(tasks[k], patch);
      ReplaceAt(k, updated);
      r := Done(updated);
    }

    /** PUT /:id: the update gate runs first, so a bad body is reported even
        for an invalid or unknown id. */
    method Put(id: Option<int>, body: Body) returns (r: Outcome)
      requires Valid()
      modifies this
      ensures Valid() && nextId == old(nextId) && Issued == old(Issued)
      ensures NoFieldPresent(body) ==> r == Rejected(NoFieldsGiven, None)
      ensures !NoFieldPresent(body) && UpdateErrors(body) != [] ==>
        r == Rejected(ValidationFailed, Some(UpdateErrors(body)))
      ensures !NoFieldPresent(body) && UpdateErrors(body) == [] ==>
        && (r.InvalidId? || r.NotFound? || r.Done?)
        && (r.InvalidId? <==> !ValidId(id)) && (r.NotFound? <==> ValidId(id) && !HasId(old(tasks), id.value))
      ensures !r.Done? ==> tasks == old(tasks)
      ensures r.Done? ==>
        var k := IndexOf(old(tasks), id.value);
        0 <= k && PutApplied(old(tasks)[k], body, r.task) && tasks == old(tasks)[k := r.task]
    {
      var v := ValidateTaskUpdate(body);
      if v.Reject? {
        return Rejected(v.error, v.details);
      }
      r := Update(id, v.body);
    }

    /** The DELETE handler. */
    method Delete(id: Option<int>) returns (r: Outcome)
      requires Valid()
      modifies this
      ensures Valid() && nextId == old(nextId) && Issued == old(Issued)
      ensures r.InvalidId? || r.NotFound? || r.Done?
      ensures r.InvalidId? <==> !ValidId(id)
      ensures r.NotFound? <==> ValidId(id) && !HasId(old(tasks), id.value)
      ensures !r.Done? ==> tasks == old(tasks)
      ensures r.Done? ==>
        var k := IndexOf(old(tasks), id.value);
        0 <= k && r.task == old(tasks)[k] && tasks == old(tasks)[..k] + old(tasks)[k + 1..]
      ensures r.Done? ==> !HasId(tasks, id.value) && Sequences.IsSubsequence(tasks, old(tasks))
    {
      if id.None? || id.value < 1 {
        return InvalidId;
      }
      var k := FindIndex(tasks, id.value);
      if k == -1 {
        return NotFound;
      }
      var deleted := tasks[k];
      Sequences.RemoveAtIsSubsequence(tasks, k);
      RemoveKeepsStoredWell(tasks, Issued, k);
      SpliceAt(k);
      r := Done(deleted);
    }

    /** The PATCH /:id/toggle handler. */
    method Toggle(id: Option<int>) returns (r: Outcome)
      requires Valid()
      modifies this
      ensures Valid() && nextId == old(nextId) && Issued == old(Issued)
      ensures r.InvalidId? || r.NotFound? || r.Done?
      ensures r.InvalidId? <==> !ValidId(id)
      ensures r.NotFound? <==> ValidId(id) && !HasId(old(tasks), id.value)
      ensures !r.Done? ==> tasks == old(tasks)
      ensures r.Done? ==>
        var k := IndexOf(old(tasks), id.value);
        0 <= k && r.task == Flip(old(tasks)[k]) && tasks == old(tasks)[k := r.task]
    {
      if id.None? || id.value < 1 {
        return InvalidId;
      }
      var k := FindIndex(tasks, id.value);
      if k == -1 {
        return NotFound;
      }
      var toggled := Flip(tasks[k]);
      ReplaceAt(k, toggled);
      r := Done(toggled);
    }
  }

  /** A patch changes nothing when it carries no field. */
  lemma EmptyPatchKeepsTask(t: Task)
    ensures Merge(t, Patch(None, None, None, None)) == t
  {
  }

  /** Applying the same patch twice is applying it once. */
  lemma MergeIdempotent(t: Task, p: Patch)
    ensures Merge(Merge(t, p), p) == Merge(t, p)
  {
  }

  /** What PUT does to the matched task: each field present in the body
      replaces the stored one (title and description trimmed), absent fields
      and `id`, `createdAt` stay. */
  predicate PutApplied(before: Task, b: Body, after: Task) {
    && after.id == before.id
    && after.createdAt == before.createdAt
    && (if b.title.Some? then b.title.value.Str? && after.title == Trim(b.title.value.s)
        else after.title == before.title)
    && (if b.description.Some? then b.description.value.Str? && after.description == Some(Trim(b.description.value.s))
        else after.description == before.description)
    && (if b.completed.Some? then b.completed.value == Bool(after.completed)
        else after.completed == before.completed)
    && (if b.priority.Some? then b.priority.value == after.priority && IsPriority(after.priority)
        else after.priority == before.priority)
  }

  /** After a toggle the task is still found at the same position, and
      toggling it there again gives back the original list. */
  lemma ToggleBack(before: seq<Task>, id: int)
    requires HasId(before, id)
    ensures var k := IndexOf(before, id);
      var middle := before[k := Flip(before[k])];
      && IndexOf(middle, id) == k
      && middle[k := Flip(middle[k])] == before
  {
    var k := IndexOf(before, id);
    var middle := before[k := Flip(before[k])];
    assert middle[k].id == id;
    FlipInvolution(before[k]);
  }

  /** Toggling the same id twice leaves the store as it was. */
  method ToggleTwice(s: Store, id: Option<int>)
    requires s.Valid()
    modifies s
    ensures s.Valid() && s.tasks == old(s.tasks) && s.nextId == old(s.nextId)
  {
    if ValidId(id) && HasId(s.tasks, id.value) {
      ToggleBack(s.tasks, id.value);
    }
    var first := s.Toggle(id);
    var second := s.Toggle(id);
  }

  /** Creating a task with priority `''` stores `''`: the stored priority is
      not always one of the three levels. */
  method EmptyPriorityIsStored(now: Timestamp) returns (t: Task)
    ensures t.priority == Str("") && !IsPriority(t.priority)
    ensures t.title == "Buy milk" && t.id == 1 && t.createdAt == now
  {
    var title := "Buy milk";
    assert !IsSpace(title[0]);
    var body := Body(Some(Str(title)), None, None, Some(Str("")));
    JsLengthOfBmp(title);
    EmptyPriorityOnlyPassesCreate(title);
    TrimFixedIff(title);
    assert !IsPriority(Str(""));
    var store := new Store();
    var r := store.Post(body, now);
    t := r.task;
  }
}
