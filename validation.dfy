/**
 * The request-body validation middleware of the task API: `validateTask`
 * guards task creation and `validateTaskUpdate` guards partial updates.
 *
 * Each gate collects error messages field by field (at most one per field, in
 * a fixed field order) and either rejects the request with the whole list or
 * lets it through with `title` and `description` trimmed. The error lists are
 * specified by the functions `CreateErrors` and `UpdateErrors`; the methods
 * build them step by step, as the middleware does.
 */
module Validation {
  import opened JsValues

  /** The fields of a request body the gates look at. */
  datatype Body = Body(
    title: Option<Value>,
    description: Option<Value>,
    completed: Option<Value>,
    priority: Option<Value>)

  /** What the create handler reads from a body that passed `validateTask`:
      the title trimmed, the description trimmed when present, the priority
      as it was sent. */
  datatype NewTask = NewTask(title: string, description: Option<string>, priority: Option<Value>)

  /** What the update handler reads from a body that passed
      `validateTaskUpdate`: exactly the fields that were present. */
  datatype Patch = Patch(
    title: Option<string>,
    description: Option<string>,
    completed: Option<bool>,
    priority: Option<string>)

  /** A gate either calls `next()` with the normalised body or answers 400
      with an `error` and, for field violations, the `details` list. */
  datatype Verdict<T> = Next(body: T) | Reject(error: string, details: Option<seq<Message>>)

  const MaxTitleLength := 100

  /** The per-field messages the gates push onto `errors`. */
  datatype Message =
    | TitleRequired | TitleNotString | TitleEmpty | TitleTooLong
    | DescriptionNotString | CompletedNotBoolean | PriorityInvalid

  /** The text each message carries in the `details` of a 400 answer; it
      opens with the initial of the field it is about. */
  function Text(m: Message): (r: string)
    ensures r != [] && r[0] == FieldName(FieldRank(m))[0]
  {
    match m
    case TitleRequired => "Title is required and must be a string"
    case TitleNotString => "Title must be a string"
    case TitleEmpty => "Title cannot be empty"
    case TitleTooLong => "Title must be less than 100 characters"
    case DescriptionNotString => "Description must be a string"
    case CompletedNotBoolean => "Completed must be a boolean"
    case PriorityInvalid => "Priority must be one of: low, medium, high"
  }

  const ValidationFailed := "Validation failed"
  const NoFieldsGiven := "At least one field must be provided for update"

  const Priorities: seq<string> := ["low", "medium", "high"]

  /** `['low', 'medium', 'high'].includes(v)`. */
  predicate IsPriority(v: Value) {
    v.Str? && v.s in Priorities
  }

  /** A present, truthy string: what passes `!title || typeof title !== 'string'`. */
  predicate IsNonEmptyString(v: Option<Value>) {
    v.Some? && v.value.Str? && v.value.s != ""
  }

  /** A title as the gates leave it: not empty, no whitespace at either end
      (so trimming leaves it alone), at most 100 UTF-16 code units. */
  predicate IsCleanTitle(s: string) {
    s != "" && !IsSpace(s[0]) && !IsSpace(s[|s| - 1]) && JsLength(s) <= MaxTitleLength
  }

  /** A priority the create gate lets through: falsy, or in the enumeration. */
  predicate IsAdmittedPriority(v: Value) {
    !Truthy(v) || IsPriority(v)
  }

  /** Trimming a title that passed the title checks makes it clean. */
  lemma TrimmedTitleIsClean(s: string)
    requires !IsBlank(s) && JsLength(s) <= MaxTitleLength
    ensures IsCleanTitle(Trim(s))
  {
    TrimEmptyIffBlank(s);
    TrimJsLength(s);
  }

  /** A clean title is not blank, and trimming it changes nothing. */
  lemma CleanTitleIsNotBlank(s: string)
    requires IsCleanTitle(s)
    ensures !IsBlank(s) && Trim(s) == s
  {
    TrimFixedIff(s);
  }

  /** The field a message is about: title, description, completed, priority. */
  function FieldRank(m: Message): nat {
    match m
    case TitleRequired | TitleNotString | TitleEmpty | TitleTooLong => 0
    case DescriptionNotString => 1
    case CompletedNotBoolean => 2
    case PriorityInvalid => 3
  }

  /** The capitalised field names, by field rank. */
  function FieldName(rank: nat): (name: string)
    ensures name != []
  {
    if rank == 0 then "Title"
    else if rank == 1 then "Description"
    else if rank == 2 then "Completed"
    else "Priority"
  }

  /** At most one message per field, fields in the order the gates check them. */
  predicate InFieldOrder(errors: seq<Message>) {
    forall i, j :: 0 <= i < j < |errors| ==> FieldRank(errors[i]) < FieldRank(errors[j])
  }

  /** The `else if` chain both gates apply to a title that is a string; the
      length bound is on the untrimmed title, counted in UTF-16 code units. */
  function TitleStringErrors(s: string): (e: seq<Message>)
    ensures e == [] <==> !IsBlank(s) && JsLength(s) <= MaxTitleLength
    ensures e == [TitleEmpty] <==> IsBlank(s)
    ensures e == [TitleTooLong] <==> !IsBlank(s) && JsLength(s) > MaxTitleLength
  {
    TrimEmptyIffBlank(s);
    if Trim(s) == [] then [TitleEmpty]
    else if JsLength(s) > MaxTitleLength then [TitleTooLong]
    else []
  }

  function CreateTitleErrors(title: Option<Value>): (e: seq<Message>)
    ensures AboutField(e, 0)
    ensures e == [] || e == [TitleRequired] || e == [TitleEmpty] || e == [TitleTooLong]
    ensures e == [TitleRequired] <==> !IsNonEmptyString(title)
    ensures e == [] <==> IsNonEmptyString(title) && !IsBlank(title.value.s) && JsLength(title.value.s) <= MaxTitleLength
    ensures IsNonEmptyString(title) ==> e == TitleStringErrors(title.value.s)
  {
    if title.None? || !Truthy(title.value) || !title.value.Str? then [TitleRequired]
    else TitleStringErrors(title.value.s)
  }

  function UpdateTitleErrors(title: Option<Value>): (e: seq<Message>)
    ensures AboutField(e, 0)
    ensures e == [] || e == [TitleNotString] || e == [TitleEmpty] || e == [TitleTooLong]
    ensures e == [TitleNotString] <==> title.Some? && !title.value.Str?
    ensures e == [] <==> title.None? || (title.value.Str? && !IsBlank(title.value.s) && JsLength(title.value.s) <= MaxTitleLength)
    ensures title.Some? && title.value.Str? ==> e == TitleStringErrors(title.value.s)
  {
    if title.None? then []
    else if !title.value.Str? then [TitleNotString]
    else TitleStringErrors(title.value.s)
  }

  function DescriptionErrors(description: Option<Value>): (e: seq<Message>)
    ensures AboutField(e, 1)
    ensures e == [] || e == [DescriptionNotString]
    ensures e == [] <==> description.None? || description.value.Str?
  {
    if description.Some? && !description.value.Str? then [DescriptionNotString] else []
  }

  function CompletedErrors(completed: Option<Value>): (e: seq<Message>)
    ensures AboutField(e, 2)
    ensures e == [] || e == [CompletedNotBoolean]
    ensures e == [] <==> completed.None? || completed.value.Bool?
  {
    if completed.Some? && !completed.value.Bool? then [CompletedNotBoolean] else []
  }

  /** On create the priority is only checked when truthy, so `''` passes. */
  function CreatePriorityErrors(priority: Option<Value>): (e: seq<Message>)
    ensures AboutField(e, 3)
    ensures e == [] || e == [PriorityInvalid]
    ensures e == [] <==> priority.None? || !Truthy(priority.value) || IsPriority(priority.value)
  {
    if priority.Some? && Truthy(priority.value) && !IsPriority(priority.value) then [PriorityInvalid] else []
  }

  /** On update any present priority must be in the enumeration. */
  function UpdatePriorityErrors(priority: Option<Value>): (e: seq<Message>)
    ensures AboutField(e, 3)
    ensures e == [] || e == [PriorityInvalid]
    ensures e == [] <==> priority.None? || IsPriority(priority.value)
  {
    if priority.Some? && !IsPriority(priority.value) then [PriorityInvalid] else []
  }

  /** Every message `validateTask` collects for `b`. */
  function CreateErrors(b: Body): (e: seq<Message>)
    ensures |e| <= 3
    ensures e == [] <==>
      && IsNonEmptyString(b.title)
      && !IsBlank(b.title.value.s)
      && JsLength(b.title.value.s) <= MaxTitleLength
      && (b.description.None? || b.description.value.Str?)
      && (b.priority.None? || !Truthy(b.priority.value) || IsPriority(b.priority.value))
  {
    CreateTitleErrors(b.title) + DescriptionErrors(b.description) + CreatePriorityErrors(b.priority)
  }

  /** The update gate's early exit: none of the four fields is present. */
  predicate NoFieldPresent(b: Body) {
    b.title.None? && b.description.None? && b.completed.None? && b.priority.None?
  }

  /** Every message `validateTaskUpdate` collects for `b` once some field is present. */
  function UpdateErrors(b: Body): (e: seq<Message>)
    ensures |e| <= 4
    ensures e == [] <==>
      && (b.title.None? || (b.title.value.Str? && !IsBlank(b.title.value.s) && JsLength(b.title.value.s) <= MaxTitleLength))
      && (b.description.None? || b.description.value.Str?)
      && (b.completed.None? || b.completed.value.Bool?)
      && (b.priority.None? || IsPriority(b.priority.value))
  {
    UpdateTitleErrors(b.title) + DescriptionErrors(b.description)
      + CompletedErrors(b.completed) + UpdatePriorityErrors(b.priority)
  }

  /** The per-field checks of `validateTask`, pushing onto `errors` in
      field order. */
  method CollectCreateErrors(body: Body) returns (errors: seq<Message>)
    ensures errors == CreateErrors(body)
  {
    errors := [];
    var title := body.title;
    if title.None? || !Truthy(title.value) || !title.value.Str? {
      errors := errors + [TitleRequired];
    } else if Trim(title.value.s) == [] {
      errors := errors + [TitleEmpty];
    } else if JsLength(title.value.s) > MaxTitleLength {
      errors := errors + [TitleTooLong];
    }
    assert errors == CreateTitleErrors(title);

    var description := body.description;
    if description.Some? {
      if !description.value.Str? {
        errors := errors + [DescriptionNotString];
      }
    }

    assert errors == CreateTitleErrors(title) + DescriptionErrors(description);

    var priority := body.priority;
    if priority.Some? && Truthy(priority.value) && !IsPriority(priority.value) {
      errors := errors + [PriorityInvalid];
    }
    assert errors == CreateErrors(body);
  }

  /** `validateTask`: reject with every violation, or pass on the trimmed body. */
  method ValidateTask(body: Body) returns (v: Verdict<NewTask>)
    ensures v.Reject? <==> CreateErrors(body) != []
    ensures v.Reject? ==> v == Reject(ValidationFailed, Some(CreateErrors(body)))
    ensures v.Next? ==> IsNonEmptyString(body.title) && v.body.title == Trim(body.title.value.s)
    ensures v.Next? ==> IsCleanTitle(v.body.title)
    ensures v.Next? ==> (v.body.description.Some? <==> body.description.Some?)
    ensures v.Next? && body.description.Some? ==>
      body.description.value.Str? && v.body.description.value == Trim(body.description.value.s)
    ensures v.Next? ==> v.body.priority == body.priority
    ensures v.Next? && v.body.priority.Some? ==> IsAdmittedPriority(v.body.priority.value)
  {
    var errors := CollectCreateErrors(body);
    var title, description, priority := body.title, body.description, body.priority;

    if |errors| > 0 {
      return Reject(ValidationFailed, Some(errors));
    }

    TrimmedTitleIsClean(title.value.s);
    var trimmedDescription := if description.Some? then Some(Trim(description.value.s)) else None;
    v := Next(NewTask(Trim(title.value.s), trimmedDescription, priority));
  }

  /** The per-field checks of `validateTaskUpdate`, pushing onto `errors`
      in field order. */
  method CollectUpdateErrors(body: Body) returns (errors: seq<Message>)
    ensures errors == UpdateErrors(body)
  {
    var title, description, completed, priority :=
      body.title, body.description, body.completed, body.priority;
    errors := [];
    if title.Some? {
      if !title.value.Str? {
        errors := errors + [TitleNotString];
      } else if Trim(title.value.s) == [] {
        errors := errors + [TitleEmpty];
      } else if JsLength(title.value.s) > MaxTitleLength {
        errors := errors + [TitleTooLong];
      }
    }
    assert errors == UpdateTitleErrors(title);

    if description.Some? {
      if !description.value.Str? {
        errors := errors + [DescriptionNotString];
      }
    }

    assert errors == UpdateTitleErrors(title) + DescriptionErrors(description);

    if completed.Some? && !completed.value.Bool? {
      errors := errors + [CompletedNotBoolean];
    }
    assert errors == UpdateTitleErrors(title) + DescriptionErrors(description) + CompletedErrors(completed);

    if priority.Some? && !IsPriority(priority.value) {
      errors := errors + [PriorityInvalid];
    }
    assert errors == UpdateErrors(body);
  }

  /** `validateTaskUpdate`: the "no field" exit, then per-field checks. */
  method ValidateTaskUpdate(body: Body) returns (v: Verdict<Patch>)
    ensures NoFieldPresent(body) ==> v == Reject(NoFieldsGiven, None)
    ensures !NoFieldPresent(body) ==> (v.Reject? <==> UpdateErrors(body) != [])
    ensures !NoFieldPresent(body) && v.Reject? ==> v == Reject(ValidationFailed, Some(UpdateErrors(body)))
    ensures v.Next? ==> (v.body.title.Some? <==> body.title.Some?)
    ensures v.Next? && body.title.Some? ==>
      body.title.value.Str? && v.body.title.value == Trim(body.title.value.s)
      && IsCleanTitle(v.body.title.value)
    ensures v.Next? ==> (v.body.description.Some? <==> body.description.Some?)
    ensures v.Next? && body.description.Some? ==>
      body.description.value.Str? && v.body.description.value == Trim(body.description.value.s)
    ensures v.Next? ==> (v.body.completed.Some? <==> body.completed.Some?)
    ensures v.Next? && body.completed.Some? ==> body.completed.value == Bool(v.body.completed.value)
    ensures v.Next? ==> (v.body.priority.Some? <==> body.priority.Some?)
    ensures v.Next? && body.priority.Some? ==>
      body.priority.value == Str(v.body.priority.value) && v.body.priority.value in Priorities
  {
    var title, description, completed, priority :=
      body.title, body.description, body.completed, body.priority;
    if title.None? && description.None? && completed.None? && priority.None? {
      return Reject(NoFieldsGiven, None);
    }

    var errors := CollectUpdateErrors(body);
    if |errors| > 0 {
      return Reject(ValidationFailed, Some(errors));
    }

    assert title.Some? ==> title.value.Str? && !IsBlank(title.value.s) && JsLength(title.value.s) <= MaxTitleLength;
    assert priority.Some? ==> IsPriority(priority.value);
    if title.Some? {
      TrimmedTitleIsClean(title.value.s);
    }
    v := Next(Patch(
      if title.Some? then Some(Trim(title.value.s)) else None,
      if description.Some? then Some(Trim(description.value.s)) else None,
      if completed.Some? then Some(completed.value.b) else None,
      if priority.Some? then Some(priority.value.s) else None));
  }

  /** Every message of `errors` is about a field checked before field `r`. */
  predicate RanksBelow(errors: seq<Message>, r: nat) {
    forall i :: 0 <= i < |errors| ==> FieldRank(errors[i]) < r
  }

  /** Appending the at most one message of field `r` to messages about
      earlier fields keeps the field order. */
  lemma AppendFieldMessages(errors: seq<Message>, field: seq<Message>, r: nat)
    requires InFieldOrder(errors) && RanksBelow(errors, r)
    requires |field| <= 1 && forall i :: 0 <= i < |field| ==> FieldRank(field[i]) == r
    ensures InFieldOrder(errors + field) && RanksBelow(errors + field, r + 1)
  {
    var e := errors + field;
    forall i, j | 0 <= i < j < |e|
      ensures FieldRank(e[i]) < FieldRank(e[j])
    {
      assert j < |errors| || (i < |errors| && j == |errors|);
    }
  }

  /** At most one message, and it is about field `r`. */
  predicate AboutField(field: seq<Message>, r: nat) {
    |field| <= 1 && forall i :: 0 <= i < |field| ==> FieldRank(field[i]) == r
  }

  /** The messages of the four fields, concatenated in field order, are in
      field order. */
  lemma FourFieldsInOrder(t: seq<Message>, d: seq<Message>, c: seq<Message>, p: seq<Message>)
    requires AboutField(t, 0) && AboutField(d, 1) && AboutField(c, 2) && AboutField(p, 3)
    ensures InFieldOrder(t + d + c + p)
  {
    AppendFieldMessages([], t, 0);
    assert [] + t == t;
    AppendFieldMessages(t, d, 1);
    AppendFieldMessages(t + d, c, 2);
    AppendFieldMessages(t + d + c, p, 3);
  }

  /** Different messages have different texts, so a client can tell every
      violation apart from its text alone. */
  lemma TextsDistinct(m1: Message, m2: Message)
    requires m1 != m2
    ensures Text(m1) != Text(m2)
  {
  }

  /** The create gate's messages come one per field, in field order. */
  lemma CreateErrorsInFieldOrder(b: Body)
    ensures InFieldOrder(CreateErrors(b))
  {
    var t, d, p := CreateTitleErrors(b.title), DescriptionErrors(b.description), CreatePriorityErrors(b.priority);
    FourFieldsInOrder(t, d, [], p);
    assert t + d + [] + p == CreateErrors(b);
  }

  /** The title, description and priority messages of the create gate
      appear exactly when those fields fail their checks. */
  lemma CreateErrorsPerField(b: Body)
    ensures TitleRequired in CreateErrors(b) <==> !IsNonEmptyString(b.title)
    ensures DescriptionNotString in CreateErrors(b) <==> b.description.Some? && !b.description.value.Str?
    ensures PriorityInvalid in CreateErrors(b) <==>
      b.priority.Some? && Truthy(b.priority.value) && !IsPriority(b.priority.value)
  {
    var t, d, p := CreateTitleErrors(b.title), DescriptionErrors(b.description), CreatePriorityErrors(b.priority);
    assert CreateErrors(b) == t + d + p;
    assert TitleRequired in t <==> !IsNonEmptyString(b.title);
    assert TitleRequired !in d + p && DescriptionNotString !in t + p && PriorityInvalid !in t + d;
  }

  /** The update gate's messages come one per field, in field order. */
  lemma UpdateErrorsInFieldOrder(b: Body)
    ensures InFieldOrder(UpdateErrors(b))
  {
    var t, d := UpdateTitleErrors(b.title), DescriptionErrors(b.description);
    var c, p := CompletedErrors(b.completed), UpdatePriorityErrors(b.priority);
    FourFieldsInOrder(t, d, c, p);
  }

  /** Each field's message of the update gate appears exactly when that field
      fails; a present priority outside the enumeration is always reported. */
  lemma UpdateErrorsPerField(b: Body)
    ensures TitleNotString in UpdateErrors(b) <==> b.title.Some? && !b.title.value.Str?
    ensures DescriptionNotString in UpdateErrors(b) <==> b.description.Some? && !b.description.value.Str?
    ensures CompletedNotBoolean in UpdateErrors(b) <==> b.completed.Some? && !b.completed.value.Bool?
    ensures PriorityInvalid in UpdateErrors(b) <==> b.priority.Some? && !IsPriority(b.priority.value)
  {
    var t, d := UpdateTitleErrors(b.title), DescriptionErrors(b.description);
    var c, p := CompletedErrors(b.completed), UpdatePriorityErrors(b.priority);
    assert UpdateErrors(b) == t + d + c + p;
    assert TitleNotString in t <==> b.title.Some? && !b.title.value.Str?;
    assert TitleNotString !in d + c + p && DescriptionNotString !in t + c + p;
    assert CompletedNotBoolean !in t + d + p && PriorityInvalid !in t + d + c;
  }

  /** A title the create gate accepts is stored non-empty and at most 100
      characters long once trimmed. */
  lemma AcceptedTitleIsStorable(b: Body)
    requires CreateErrors(b) == []
    ensures Trim(b.title.value.s) != [] && JsLength(Trim(b.title.value.s)) <= MaxTitleLength
  {
    TrimEmptyIffBlank(b.title.value.s);
    TrimJsLength(b.title.value.s);
  }

  /** The bound counts UTF-16 code units: 51 characters from outside the
      Basic Multilingual Plane are 102 units, too long for a title. */
  lemma AstralTitleIsTooLong()
    ensures var s := seq(51, _ => '\U{1F600}');
      |s| <= MaxTitleLength && JsLength(s) == 102 && TitleStringErrors(s) == [TitleTooLong]
  {
    var s := seq(51, _ => '\U{1F600}');
    assert !IsSpace(s[0]);
    JsLengthOfAstral(s);
  }

  /** An empty-string priority passes the create gate but not the update gate. */
  lemma EmptyPriorityOnlyPassesCreate(title: string)
    requires !IsBlank(title) && 0 < JsLength(title) <= MaxTitleLength
    ensures CreateErrors(Body(Some(Str(title)), None, None, Some(Str("")))) == []
    ensures UpdateErrors(Body(None, None, None, Some(Str("")))) == [PriorityInvalid]
  {
    assert !IsPriority(Str(""));
    assert UpdateErrors(Body(None, None, None, Some(Str("")))) == [] + [] + [] + [PriorityInvalid];
  }
}
