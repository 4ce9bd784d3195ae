/**
 * The task form of the frontend: its `formData` record, the initialisation
 * run when the edited task changes, the per-field hints `validateForm`
 * collects, `handleChange`, and the trimmed payload `handleSubmit` sends.
 */
module TaskForm {
  import opened JsValues
  import opened Validation
  import opened TaskStore

  const MaxDescriptionLength := 500

  /** The named inputs of the form. */
  datatype Field = Title | Description | Priority

  /** `formData`: the title and description inputs and the priority select.
      The priority is a value because an edited task's stored priority is
      copied in as it is. */
  datatype FormData = FormData(title: string, description: string, priority: Value)

  const DefaultForm := FormData("", "", Str("medium"))

  /** The hints `validateForm` puts in the `errors` object. */
  datatype Hint = TitleMissing | TitleOverlong | DescriptionOverlong | PriorityUnknown

  /** The hint texts; only the overlong-title hint reads like the server's
      message for the same violation. */
  function HintText(h: Hint): (r: string)
    ensures r == Text(TitleTooLong) <==> h == TitleOverlong
  {
    match h
    case TitleMissing => "Title is required"
    case TitleOverlong => "Title must be less than 100 characters"
    case DescriptionOverlong => "Description must be less than 500 characters"
    case PriorityUnknown => "Please select a valid priority"
  }

  /** The initialisation effect: the edited task's fields with the
      fallbacks `''` and `'medium'` for falsy ones, or the defaults. */
  function InitialForm(task: Option<Task>, isEditing: bool): (f: FormData)
    ensures !(isEditing && task.Some?) ==> f == DefaultForm
    ensures isEditing && task.Some? ==>
      && f.title == task.value.title
      && (task.value.description.Some? ==> f.description == task.value.description.value)
      && (task.value.description.None? ==> f.description == "")
      && Truthy(f.priority)
      && (Truthy(task.value.priority) ==> f.priority == task.value.priority)
      && (!Truthy(task.value.priority) ==> f.priority == Str("medium"))
  {
    if isEditing && task.Some? then
      var t := task.value;
      FormData(
        t.title,
        if t.description.Some? && t.description.value != "" then t.description.value else "",
        OrElse(Some(t.priority), Str("medium")))
    else DefaultForm
  }

  /** The `errors` object: at most one hint per input, keyed by its name. */
  datatype Hints = Hints(title: Option<Hint>, description: Option<Hint>, priority: Option<Hint>)

  const NoHints := Hints(None, None, None)

  /** The hint stored under an input's name, if any. */
  function HintFor(h: Hints, name: Field): Option<Hint> {
    match name
    case Title => h.title
    case Description => h.description
    case Priority => h.priority
  }

  /** `Object.keys(errors).length`. */
  function KeyCount(h: Hints): (n: nat)
    ensures n <= 3
    ensures n == 0 <==> h == NoHints
  {
    (if h.title.Some? then 1 else 0)
      + (if h.description.Some? then 1 else 0)
      + (if h.priority.Some? then 1 else 0)
  }

  /** Every hint `validateForm` collects for `f`: one per failing input, the
      title length measured before trimming; lengths are in UTF-16 code units. */
  function FormErrors(f: FormData): (errors: Hints)
    ensures errors.title == Some(TitleMissing) <==> IsBlank(f.title)
    ensures errors.title == Some(TitleOverlong) <==> !IsBlank(f.title) && JsLength(f.title) > MaxTitleLength
    ensures errors.title.None? <==> !IsBlank(f.title) && JsLength(f.title) <= MaxTitleLength
    ensures errors.description == Some(DescriptionOverlong) <==> JsLength(f.description) > MaxDescriptionLength
    ensures errors.description.None? <==> JsLength(f.description) <= MaxDescriptionLength
    ensures errors.priority == Some(PriorityUnknown) <==> !IsPriority(f.priority)
    ensures errors.priority.None? <==> IsPriority(f.priority)
  {
    TrimEmptyIffBlank(f.title);
    Hints(
      if Trim(f.title) == [] then Some(TitleMissing)
      else if JsLength(f.title) > MaxTitleLength then Some(TitleOverlong)
      else None,
      if f.description != "" && JsLength(f.description) > MaxDescriptionLength then Some(DescriptionOverlong) else None,
      if !IsPriority(f.priority) then Some(PriorityUnknown) else None)
  }

  /** The form passes exactly when every input passes its own check. */
  lemma FormErrorsEmptyIff(f: FormData)
    ensures FormErrors(f) == NoHints <==>
      && !IsBlank(f.title) && JsLength(f.title) <= MaxTitleLength
      && JsLength(f.description) <= MaxDescriptionLength
      && IsPriority(f.priority)
  {
  }

  /** `handleChange`: the named input takes the new value, the others keep theirs. */
  function WithField(f: FormData, name: Field, value: string): (r: FormData)
    ensures name == Title ==> r.title == value
    ensures name == Description ==> r.description == value
    ensures name == Priority ==> r.priority == Str(value)
    ensures name != Title ==> r.title == f.title
    ensures name != Description ==> r.description == f.description
    ensures name != Priority ==> r.priority == f.priority
  {
    match name
    case Title => f.(title := value)
    case Description => f.(description := value)
    case Priority => f.(priority := Str(value))
  }

  /** Editing one input can change only that input's hint. */
  lemma ChangeTouchesOnlyItsHint(f: FormData, name: Field, value: string, other: Field)
    requires other != name
    ensures HintFor(FormErrors(WithField(f, name, value)), other) == HintFor(FormErrors(f), other)
  {
  }

  /** The body `handleSubmit` passes to `onSubmit`: title and description
      trimmed, the priority as selected, `completed` not sent. */
  function SubmitBody(f: FormData): (b: Body)
    ensures b.completed.None? && b.priority == Some(f.priority)
    ensures b.title == Some(Str(Trim(f.title))) && b.description == Some(Str(Trim(f.description)))
    ensures b.title.Some? && b.title.value.Str? && |b.title.value.s| <= |f.title|
    ensures b.description.Some? && b.description.value.Str? && |b.description.value.s| <= |f.description|
  {
    Body(Some(Str(Trim(f.title))), Some(Str(Trim(f.description))), None, Some(f.priority))
  }

  /** What the form accepts, both backend gates accept, and the create gate
      stores the submitted title unchanged (trimming it again does nothing). */
  lemma {:induction false} SubmissionPassesGates(f: FormData)
    requires FormErrors(f) == NoHints
    ensures CreateErrors(SubmitBody(f)) == []
    ensures !NoFieldPresent(SubmitBody(f)) && UpdateErrors(SubmitBody(f)) == []
    ensures Trim(SubmitBody(f).title.value.s) == SubmitBody(f).title.value.s
  {
    FormErrorsEmptyIff(f);
    TrimmedTitleIsClean(f.title);
    CleanTitleIsNotBlank(Trim(f.title));
  }

  /** The backend has no description bound: a body the form would refuse
      for its 501-character description passes the create gate. */
  lemma ServerHasNoDescriptionBound()
    ensures var f := FormData("Plan", seq(501, _ => 'x'), Str("low"));
      && FormErrors(f).description == Some(DescriptionOverlong)
      && CreateErrors(Body(Some(Str(f.title)), Some(Str(f.description)), None, Some(f.priority))) == []
  {
    var title := "Plan";
    assert !IsSpace(title[0]);
    assert !IsBlank(title);
    JsLengthOfBmp(title);
    JsLengthOfBmp(seq(501, _ => 'x'));
  }

  /** A task as the store keeps it opens in the edit form with no title or
      priority hint; a falsy stored priority is shown as `'medium'`. */
  lemma StoredTaskOpensCleanly(t: Task)
    requires WellFormed(t)
    ensures var f := InitialForm(Some(t), true);
      && FormErrors(f).title.None? && FormErrors(f).priority.None?
      && (!Truthy(t.priority) ==> f.priority == Str("medium"))
  {
    CleanTitleIsNotBlank(t.title);
  }

  /** The form's state: the inputs and the hints last shown. */
  class Form {
    var formData: FormData
    var errors: Hints

    constructor ()
      ensures formData == DefaultForm && errors == NoHints
    {
      formData, errors := DefaultForm, NoHints;
    }

    /** The initialisation effect, run when `task` or `isEditing` changes. */
    method Populate(task: Option<Task>, isEditing: bool)
      modifies this
      ensures formData == InitialForm(task, isEditing) && errors == NoHints
    {
      if isEditing && task.Some? {
        var t := task.value;
        var description := if t.description.Some? && t.description.value != "" then t.description.value else "";
        formData := FormData(t.title, description, if Truthy(t.priority) then t.priority else Str("medium"));
      } else {
        formData := DefaultForm;
      }
      errors := NoHints;
    }

    /** `validateForm`: collects the hints key by key, shows them, and
        answers whether there were none. */
    method ValidateForm() returns (ok: bool)
      modifies this`errors
      ensures errors == FormErrors(formData)
      ensures ok <==> errors == NoHints
    {
      var newErrors := NoHints;
      if Trim(formData.title) == [] {
        newErrors := newErrors.(title := Some(TitleMissing));
      } else if JsLength(formData.title) > MaxTitleLength {
        newErrors := newErrors.(title := Some(TitleOverlong));
      }
      if formData.description != "" && JsLength(formData.description) > MaxDescriptionLength {
        newErrors := newErrors.(description := Some(DescriptionOverlong));
      }
      if !IsPriority(formData.priority) {
        newErrors := newErrors.(priority := Some(PriorityUnknown));
      }
      errors := newErrors;
      ok := KeyCount(newErrors) == 0;
    }

    /** `handleChange` for the input called `name`. */
    method HandleChange(name: Field, value: string)
      modifies this`formData
      ensures formData == WithField(old(formData), name, value)
    {
      match name
      case Title => formData := formData.(title := value);
      case Description => formData := formData.(description := value);
      case Priority => formData := formData.(priority := Str(value));
    }

    /** `handleSubmit`: validate, then hand the trimmed body on, or nothing.
        Whatever is handed on passes both backend gates. */
    method HandleSubmit() returns (sent: Option<Body>)
      modifies this`errors
      ensures errors == FormErrors(formData)
      ensures sent.Some? <==> errors == NoHints
      ensures sent.Some? ==> sent.value == SubmitBody(formData)
      ensures sent.Some? ==> CreateErrors(sent.value) == [] && UpdateErrors(sent.value) == []
    {
      var ok := ValidateForm();
      if !ok {
        return None;
      }
      SubmissionPassesGates(formData);
      sent := Some(Body(Some(Str(Trim(formData.title))), Some(Str(Trim(formData.description))), None, Some(formData.priority)));
    }
  }
}
