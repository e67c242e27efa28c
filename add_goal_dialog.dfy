/** The goal form of src/components/dashboard/add-goal-dialog.tsx: its
    validation schema, its reset rules, saving and goal templates. */
module AddGoalDialog {
  import opened Wrappers
  import opened Types
  import GoalStore

  /** The form fields as the inputs hold them: category and priority are
      whatever string the select holds. */
  datatype FormValues = FormValues(
    title: string,
    description: Option<string>,
    category: string,
    priority: string,
    dueDate: Option<int>)

  /** The schema's complaints, in field order. */
  datatype FormError = TitleTooShort | BadCategory | BadPriority

  const MinTitleLength: nat := 3

  const DefaultValues: FormValues := FormValues("", Some(""), "Personal", "Medium", None)

  /** The data a valid form yields. */
  datatype FormData = FormData(
    title: string,
    description: Option<string>,
    category: Category,
    priority: Priority,
    dueDate: Option<int>)

  /** `goalSchema`: a title of at least 3 characters, one of the five
      categories and one of the three priorities; description and due date
      may be absent. Every failing field is reported. */
  function Validate(v: FormValues): (r: Result<FormData, seq<FormError>>)
    ensures r.Ok? <==> |v.title| >= MinTitleLength && v.category in CategoryNames && v.priority in PriorityNames
    ensures r.Err? ==> (TitleTooShort in r.error <==> |v.title| < MinTitleLength)
    ensures r.Err? ==> (BadCategory in r.error <==> v.category !in CategoryNames)
    ensures r.Err? ==> (BadPriority in r.error <==> v.priority !in PriorityNames)
    ensures r.Ok? ==> r.value.title == v.title && r.value.description == v.description && r.value.dueDate == v.dueDate
    ensures r.Ok? ==> CategoryName(r.value.category) == v.category && PriorityName(r.value.priority) == v.priority
  {
    var category := ParseCategory(v.category);
    var priority := ParsePriority(v.priority);
    var errors :=
      (if |v.title| < MinTitleLength then [TitleTooShort] else []) +
      (if category.None? then [BadCategory] else []) +
      (if priority.None? then [BadPriority] else []);
    if errors == [] then Ok(FormData(v.title, v.description, category.value, priority.value, v.dueDate))
    else Err(errors)
  }

  /** The form loaded from a goal being edited. */
  function ValuesOf(g: Goal): (v: FormValues)
    ensures ParseCategory(v.category) == Some(g.category) && ParsePriority(v.priority) == Some(g.priority)
    ensures v.title == g.title && v.description == g.description && v.dueDate == g.dueDate
  {
    CategoryRoundTrip(g.category);
    PriorityRoundTrip(g.priority);
    FormValues(g.title, g.description, CategoryName(g.category), PriorityName(g.priority), g.dueDate)
  }

  /** `handleSave`: the edited goal's id (none when creating) with the
      validated fields. */
  function Submit(v: FormValues, goalToEdit: Option<Goal>): (r: Result<GoalDraft, seq<FormError>>)
    ensures r.Ok? <==> Validate(v).Ok?
    ensures r.Err? ==> r.error == Validate(v).error
    ensures r.Ok? ==> r.value.id == (if goalToEdit.Some? then Some(goalToEdit.value.id) else None)
    ensures r.Ok? ==> var d := Validate(v).value;
      r.value.title == d.title && r.value.description == d.description && r.value.category == d.category &&
      r.value.priority == d.priority && r.value.dueDate == d.dueDate
  {
    match Validate(v)
    case Err(e) => Err(e)
    case Ok(d) =>
      var id := if goalToEdit.Some? then Some(goalToEdit.value.id) else None;
      Ok(GoalDraft(id, d.title, d.description, d.category, d.priority, d.dueDate))
  }

  /** Opening a goal for editing and saving it untouched changes nothing. */
  lemma EditRoundTrip(g: Goal)
    requires |g.title| >= MinTitleLength
    ensures Submit(ValuesOf(g), Some(g)).Ok?
    ensures GoalStore.Updated(g, Submit(ValuesOf(g), Some(g)).value) == g
  {
  }

  /** A goal whose title is too short cannot be saved again unchanged. */
  lemma {:induction false} ShortTitleBlocksSave(g: Goal)
    requires |g.title| < MinTitleLength
    ensures Submit(ValuesOf(g), Some(g)) == Err([TitleTooShort])
  {
    var v := ValuesOf(g);
    assert ParseCategory(v.category).Some? && ParsePriority(v.priority).Some?;
    assert [TitleTooShort] + [] + [] == [TitleTooShort];
  }

  const Templates: seq<GoalTemplate> := [
    GoalTemplate("Read 12 Books This Year", "Read one book every month to expand knowledge.", Personal),
    GoalTemplate("Learn a New Skill for Work", "Complete an online course related to my career.", Work),
    GoalTemplate("Exercise 3 Times a Week", "Go to the gym or do home workouts on Monday, Wednesday, and Friday.", Health),
    GoalTemplate("Save $1000 for Emergency Fund", "Set aside money from each paycheck for the emergency fund.", Finance)
  ]

  /** `applyTemplate`: title, description and category only. */
  function WithTemplate(v: FormValues, t: GoalTemplate): (u: FormValues)
    ensures u.priority == v.priority && u.dueDate == v.dueDate
    ensures u.title == t.title && u.description == Some(t.description)
    ensures ParseCategory(u.category) == Some(t.category)
  {
    CategoryRoundTrip(t.category);
    v.(title := t.title, description := Some(t.description), category := CategoryName(t.category))
  }

  /** A template always yields a valid form, unless the priority was
      already invalid. */
  lemma TemplateValidates(v: FormValues, t: GoalTemplate)
    requires t in Templates
    ensures Validate(WithTemplate(v, t)).Ok? <==> v.priority in PriorityNames
  {
  }

  /** The toast after a save: "Goal updated!" when `updated`, otherwise
      "Goal created!", naming the saved title. */
  datatype SavedNotice = SavedNotice(updated: bool, title: string)

  class GoalForm {
    var values: FormValues
    /** Whether the dialog is open; owned by the page, closed by saving. */
    var isOpen: bool

    constructor (isOpen: bool)
      ensures values == DefaultValues && this.isOpen == isOpen
    {
      values := DefaultValues;
      this.isOpen := isOpen;
    }

    /** The reset effect, run whenever the edited goal or `isOpen` changes. */
    method Reset(goalToEdit: Option<Goal>)
      modifies this
      ensures isOpen == old(isOpen)
      ensures goalToEdit.Some? && isOpen ==> values == ValuesOf(goalToEdit.value)
      ensures !(goalToEdit.Some? && isOpen) ==> values == DefaultValues
    {
      if goalToEdit.Some? && isOpen {
        values := ValuesOf(goalToEdit.value);
      } else {
        values := DefaultValues;
      }
    }

    /** Submitting: a valid form hands its draft to the page, closes the
        dialog and shows the saved toast, whatever the page's write does
        afterwards; an invalid one stays open with its errors. */
    method Save(goalToEdit: Option<Goal>) returns (r: Result<GoalDraft, seq<FormError>>, notice: Option<SavedNotice>)
      modifies this
      ensures r == Submit(old(values), goalToEdit)
      ensures values == old(values)
      ensures isOpen == (old(isOpen) && r.Err?)
      ensures notice.Some? <==> r.Ok?
      ensures r.Ok? ==> notice == Some(SavedNotice(goalToEdit.Some?, r.value.title))
    {
      r := Submit(values, goalToEdit);
      notice := None;
      if r.Ok? {
        isOpen := false;
        notice := Some(SavedNotice(goalToEdit.Some?, r.value.title));
      }
    }

    method ApplyTemplate(t: GoalTemplate)
      modifies this
      ensures values == WithTemplate(old(values), t) && isOpen == old(isOpen)
    {
      values := WithTemplate(values, t);
    }
  }
}
