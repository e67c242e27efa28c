/** The records of src/lib/types.ts: goals, habits, goal templates and the
    health read-outs, with the value constraints the comments there state. */
module Types {
  import opened Wrappers

  /** Document ids. The store draws them at random; the model issues them
      from a counter, which keeps them unique. */
  type Id = nat

  datatype Category = Personal | Work | Health | Finance | Education
  datatype Priority = Low | Medium | High

  const CategoryNames: seq<string> := ["Personal", "Work", "Health", "Finance", "Education"]
  const PriorityNames: seq<string> := ["Low", "Medium", "High"]

  function CategoryName(c: Category): (s: string)
    ensures s in CategoryNames
  {
    match c
    case Personal => "Personal"
    case Work => "Work"
    case Health => "Health"
    case Finance => "Finance"
    case Education => "Education"
  }

  function PriorityName(p: Priority): (s: string)
    ensures s in PriorityNames
  {
    match p
    case Low => "Low"
    case Medium => "Medium"
    case High => "High"
  }

  /** Reads one of the five category names; anything else is not a category. */
  function ParseCategory(s: string): (r: Option<Category>)
    ensures r.Some? <==> s in CategoryNames
    ensures r.Some? ==> CategoryName(r.value) == s
  {
    if s == "Personal" then Some(Personal)
    else if s == "Work" then Some(Work)
    else if s == "Health" then Some(Health)
    else if s == "Finance" then Some(Finance)
    else if s == "Education" then Some(Education)
    else None
  }

  function ParsePriority(s: string): (r: Option<Priority>)
    ensures r.Some? <==> s in PriorityNames
    ensures r.Some? ==> PriorityName(r.value) == s
  {
    if s == "Low" then Some(Low)
    else if s == "Medium" then Some(Medium)
    else if s == "High" then Some(High)
    else None
  }

  lemma CategoryRoundTrip(c: Category)
    ensures ParseCategory(CategoryName(c)) == Some(c)
  {
  }

  lemma PriorityRoundTrip(p: Priority)
    ensures ParsePriority(PriorityName(p)) == Some(p)
  {
  }

  /** A goal. `dueDate` and `createdAt` are day numbers. */
  datatype Goal = Goal(
    id: Id,
    title: string,
    description: Option<string>,
    category: Category,
    priority: Priority,
    progress: int,
    dueDate: Option<int>,
    isCompleted: bool,
    createdAt: int)

  /** Progress is a percentage. */
  predicate ValidGoal(g: Goal) {
    0 <= g.progress <= 100
  }

  /** The fields a goal form submits: a goal without progress, completion
      and creation time, with an id only when an existing goal is edited. */
  datatype GoalDraft = GoalDraft(
    id: Option<Id>,
    title: string,
    description: Option<string>,
    category: Category,
    priority: Priority,
    dueDate: Option<int>)

  const DaysPerWeek: nat := 7

  /** A habit; `completedDays[0]` is Sunday and `completedDays[6]` Saturday. */
  datatype Habit = Habit(id: Id, name: string, completedDays: seq<bool>)

  predicate ValidHabit(h: Habit) {
    |h.completedDays| == DaysPerWeek
  }

  datatype GoalTemplate = GoalTemplate(title: string, description: string, category: Category)

  /** The latest body read-outs. The source keeps them as formatted strings
      once filled in; the model keeps the unformatted numbers. */
  datatype HealthMetrics = HealthMetrics(
    height: real,
    weight: real,
    systolic: real,
    diastolic: real,
    stepCount: int,
    heartRate: real,
    calories: real)

  /** One bar of a per-day chart; `value` is None where the source would
      hold `undefined` (a point without the expected number). */
  datatype DayValue<T> = DayValue(name: string, value: Option<T>)

  datatype ActivityData = ActivityData(
    steps: seq<DayValue<int>>,
    glucose: seq<DayValue<real>>,
    bodyFat: seq<DayValue<real>>)
}
