/** The goal and habit store behind the dashboard page
    (src/app/dashboard/page.tsx). The remote `goals` and `habits`
    collections of the signed-in user are an in-memory table; each write is
    given its outcome (`writeOk`) instead of being sent over the network. */
module GoalStore {
  import opened Wrappers
  import opened Types

  /** The notices (toasts) the handlers show. */
  datatype Notice =
    | SaveFailed
    | GoalDeleted
    | DeleteFailed
    | Milestone(title: string)
    | UpdateFailed
    | HabitUpdateFailed

  // ---------------------------------------------------------------------
  // Pure rules

  /** The completion toggle: completing sets progress to 100; un-completing
      keeps a progress below 100 and turns 100 into 90. */
  function Toggle(g: Goal): (t: Goal)
    ensures t.isCompleted == !g.isCompleted
    ensures !g.isCompleted ==> t.progress == 100
    ensures g.isCompleted && g.progress < 100 ==> t.progress == g.progress
    ensures g.isCompleted && g.progress >= 100 ==> t.progress == 90
    ensures t == g.(isCompleted := t.isCompleted, progress := t.progress)
    ensures ValidGoal(g) ==> ValidGoal(t)
    ensures g.progress <= 100 ==> (t.progress == 100 <==> t.isCompleted)
  {
    var isNowCompleted := !g.isCompleted;
    var newProgress := if isNowCompleted then 100 else if g.progress < 100 then g.progress else 90;
    g.(isCompleted := isNowCompleted, progress := newProgress)
  }

  /** Completing and then un-completing a goal leaves it at 90 percent. */
  lemma ToggleTwice(g: Goal)
    requires !g.isCompleted
    ensures Toggle(Toggle(g)) == g.(progress := 90)
  {
  }

  /** A new goal made from a draft without id. */
  function Created(id: Id, d: GoalDraft, now: int): (g: Goal)
    ensures g.id == id && g.progress == 0 && !g.isCompleted && g.createdAt == now
    ensures g.title == d.title && g.description == d.description && g.category == d.category
    ensures g.priority == d.priority && g.dueDate == d.dueDate
    ensures ValidGoal(g)
  {
    Goal(id, d.title, d.description, d.category, d.priority, 0, d.dueDate, false, now)
  }

  /** An edit: the draft's fields overwrite the goal's. An optional field the
      draft leaves out (`undefined` in the source) is not written. */
  function Updated(g: Goal, d: GoalDraft): (u: Goal)
    ensures u.id == g.id && u.progress == g.progress && u.isCompleted == g.isCompleted
    ensures u.createdAt == g.createdAt
    ensures u.title == d.title && u.category == d.category && u.priority == d.priority
    ensures u.description == if d.description.Some? then d.description else g.description
    ensures u.dueDate == if d.dueDate.Some? then d.dueDate else g.dueDate
    ensures ValidGoal(g) ==> ValidGoal(u)
  {
    g.(title := d.title,
       description := if d.description.Some? then d.description else g.description,
       category := d.category,
       priority := d.priority,
       dueDate := if d.dueDate.Some? then d.dueDate else g.dueDate)
  }

  /** Saving the same edit twice is the same as saving it once. */
  lemma UpdateIdempotent(g: Goal, d: GoalDraft)
    ensures Updated(Updated(g, d), d) == Updated(g, d)
  {
  }

  /** The draft an edit dialog produces from an unchanged goal writes that
      goal back unchanged. */
  lemma UpdateWithOwnFields(g: Goal)
    ensures Updated(g, GoalDraft(Some(g.id), g.title, g.description, g.category, g.priority, g.dueDate)) == g
  {
  }

  /** Position of the first habit with the given id, as `Array.find` picks it. */
  function FindHabit(hs: seq<Habit>, id: Id): (k: Option<nat>)
    ensures k.Some? ==> k.value < |hs| && hs[k.value].id == id
    ensures k.Some? ==> forall j :: 0 <= j < k.value ==> hs[j].id != id
    ensures k.None? ==> forall j :: 0 <= j < |hs| ==> hs[j].id != id
  {
    if hs == [] then None
    else if hs[0].id == id then Some(0)
    else match FindHabit(hs[1..], id)
      case None => None
      case Some(j) => Some(j + 1)
  }

  /** Distinct habit ids: the document ids of one collection. */
  ghost predicate DistinctHabitIds(hs: seq<Habit>) {
    forall i, j :: 0 <= i < j < |hs| ==> hs[i].id != hs[j].id
  }

  /** The habit list after setting day `day` of habit `id` to `done`. */
  function WithHabitDay(hs: seq<Habit>, id: Id, day: nat, done: bool): (r: seq<Habit>)
    ensures |r| == |hs|
    ensures forall i :: 0 <= i < |hs| && hs[i].id != id ==> r[i] == hs[i]
    ensures forall i :: 0 <= i < |hs| ==> r[i].id == hs[i].id && r[i].name == hs[i].name
    ensures forall i :: 0 <= i < |hs| ==> |r[i].completedDays| == |hs[i].completedDays|
    ensures (forall i :: 0 <= i < |hs| ==> hs[i].id != id) ==> r == hs
    ensures forall i :: 0 <= i < |hs| && hs[i].id == id && day < |hs[i].completedDays| &&
                        (forall j :: 0 <= j < i ==> hs[j].id != id) ==>
      r[i].completedDays[day] == done &&
      forall k :: 0 <= k < |hs[i].completedDays| && k != day ==> r[i].completedDays[k] == hs[i].completedDays[k]
    ensures DistinctHabitIds(hs) ==> DistinctHabitIds(r)
  {
    match FindHabit(hs, id)
    case None => hs
    case Some(k) =>
      var days := hs[k].completedDays;
      var newDays := if day < |days| then days[day := done] else days;
      hs[k := hs[k].(completedDays := newDays)]
  }

  /** The two starter habits. */
  const DefaultHabitNames: seq<string> := ["Drink 8 glasses of water", "Read for 15 minutes"]

  function NoDaysDone(): (days: seq<bool>)
    ensures |days| == DaysPerWeek && forall k :: 0 <= k < |days| ==> !days[k]
  {
    seq(DaysPerWeek, _ => false)
  }

  /** The seeding rule: only for an empty snapshot that has no write of this
      client pending. */
  predicate ShouldSeed(hs: seq<Habit>, hasPendingWrites: bool) {
    |hs| == 0 && !hasPendingWrites
  }

  /** The habits seeding writes when the counter starts at `first`: each
      stores its own document id. */
  function SeededHabits(first: Id): (r: seq<Habit>)
    ensures |r| == |DefaultHabitNames| == 2
    ensures forall i :: 0 <= i < |r| ==>
      r[i] == Habit(first + i, DefaultHabitNames[i], NoDaysDone()) && ValidHabit(r[i])
    ensures DistinctHabitIds(r)
  {
    seq(|DefaultHabitNames|, i requires 0 <= i < |DefaultHabitNames| => Habit(first + i, DefaultHabitNames[i], NoDaysDone()))
  }

  // ---------------------------------------------------------------------
  // Listing and views

  /** Newest `createdAt` first, the order of the goals query. */
  ghost predicate NewestFirst(s: seq<Goal>) {
    forall i, j :: 0 <= i < j < |s| ==> s[i].createdAt >= s[j].createdAt
  }

  ghost predicate DistinctGoalIds(s: seq<Goal>) {
    forall i, j :: 0 <= i < j < |s| ==> s[i].id != s[j].id
  }

  /** Inserts `g` before the first goal that is older than it. */
  function InsertByCreation(s: seq<Goal>, g: Goal): (r: seq<Goal>)
    ensures |r| == |s| + 1
  {
    if s == [] || g.createdAt >= s[0].createdAt then [g] + s
    else [s[0]] + InsertByCreation(s[1..], g)
  }

  lemma {:induction false} InsertContents(s: seq<Goal>, g: Goal)
    ensures multiset(InsertByCreation(s, g)) == multiset(s) + multiset{g}
  {
    if s == [] || g.createdAt >= s[0].createdAt {
    } else {
      InsertContents(s[1..], g);
      assert s == [s[0]] + s[1..];
    }
  }

  lemma {:induction false} InsertKeepsOrder(s: seq<Goal>, g: Goal)
    requires NewestFirst(s)
    ensures NewestFirst(InsertByCreation(s, g))
  {
    if s == [] || g.createdAt >= s[0].createdAt {
    } else {
      InsertKeepsOrder(s[1..], g);
      InsertContents(s[1..], g);
      var r := InsertByCreation(s, g);
      var t := InsertByCreation(s[1..], g);
      assert r == [s[0]] + t;
      forall j | 0 < j < |r| ensures r[0].createdAt >= r[j].createdAt {
        assert r[j] in multiset(t);
        assert r[j] in multiset(s[1..]) || r[j] == g;
      }
    }
  }

  lemma {:induction false} InsertKeepsDistinct(s: seq<Goal>, g: Goal)
    requires DistinctGoalIds(s)
    requires forall i :: 0 <= i < |s| ==> s[i].id != g.id
    ensures DistinctGoalIds(InsertByCreation(s, g))
  {
    if s == [] || g.createdAt >= s[0].createdAt {
    } else {
      InsertKeepsDistinct(s[1..], g);
      InsertContents(s[1..], g);
      var r := InsertByCreation(s, g);
      var t := InsertByCreation(s[1..], g);
      assert r == [s[0]] + t;
      forall j | 0 < j < |r| ensures r[0].id != r[j].id {
        assert r[j] in multiset(t);
        assert r[j] in multiset(s[1..]) || r[j] == g;
      }
    }
  }

  lemma InsertMembers(s: seq<Goal>, g: Goal)
    ensures forall x :: x in InsertByCreation(s, g) <==> x in s || x == g
  {
    InsertContents(s, g);
    forall x ensures x in InsertByCreation(s, g) <==> x in s || x == g {
      assert x in InsertByCreation(s, g) <==> x in multiset(InsertByCreation(s, g));
      assert x in s <==> x in multiset(s);
    }
  }

  /** The goals not yet completed, in list order. */
  function InProgress(s: seq<Goal>): (r: seq<Goal>)
    ensures |r| <= |s|
    ensures forall i :: 0 <= i < |r| ==> !r[i].isCompleted
  {
    if s == [] then []
    else if !s[0].isCompleted then [s[0]] + InProgress(s[1..])
    else InProgress(s[1..])
  }

  /** The completed goals, in list order. */
  function Completed(s: seq<Goal>): (r: seq<Goal>)
    ensures |r| <= |s|
    ensures forall i :: 0 <= i < |r| ==> r[i].isCompleted
  {
    if s == [] then []
    else if s[0].isCompleted then [s[0]] + Completed(s[1..])
    else Completed(s[1..])
  }

  /** The two views split the list: every goal is in exactly one of them. */
  lemma {:induction false} ViewsPartition(s: seq<Goal>)
    ensures multiset(InProgress(s)) + multiset(Completed(s)) == multiset(s)
    ensures |InProgress(s)| + |Completed(s)| == |s|
    ensures forall g :: g in s ==> (g in Completed(s) <==> g.isCompleted)
    ensures forall g :: g in s ==> (g in InProgress(s) <==> !g.isCompleted)
  {
    if s != [] {
      ViewsPartition(s[1..]);
      assert s == [s[0]] + s[1..];
      forall g | g in s ensures (g in Completed(s) <==> g.isCompleted) && (g in InProgress(s) <==> !g.isCompleted) {
        assert g in multiset(s);
        if g.isCompleted {
          assert g !in InProgress(s);
          assert g in multiset(Completed(s));
        } else {
          assert g !in Completed(s);
          assert g in multiset(InProgress(s));
        }
      }
    }
  }

  // ---------------------------------------------------------------------
  // The store

  class Dashboard {
    /** The `goals` collection, by document id. */
    var goals: map<Id, Goal>
    /** The `habits` collection, in snapshot order. */
    var habits: seq<Habit>
    /** The next document id to hand out. */
    var nextId: nat

    ghost predicate Valid()
      reads this
    {
      && (forall id :: id in goals ==> goals[id].id == id && id < nextId && ValidGoal(goals[id]))
      && (forall i :: 0 <= i < |habits| ==> habits[i].id < nextId && ValidHabit(habits[i]))
      && DistinctHabitIds(habits)
    }

    constructor ()
      ensures Valid() && goals == map[] && habits == [] && nextId == 0
    {
      goals, habits, nextId := map[], [], 0;
    }

    /** `handleSaveGoal`: a draft with an id updates that goal, one without
        creates a goal under a fresh id. */
    method SaveGoal(signedIn: bool, d: GoalDraft, now: int, writeOk: bool) returns (notice: Option<Notice>)
      requires Valid()
      modifies this
      ensures Valid() && habits == old(habits)
      ensures !signedIn ==> goals == old(goals) && nextId == old(nextId) && notice == None
      ensures signedIn && d.id.Some? ==>
        nextId == old(nextId) &&
        if writeOk && d.id.value in old(goals) then
          goals == old(goals)[d.id.value := Updated(old(goals)[d.id.value], d)] && notice == None
        else
          goals == old(goals) && notice == Some(SaveFailed)
      ensures signedIn && d.id.None? ==>
        nextId == old(nextId) + 1 && old(nextId) !in old(goals) &&
        if writeOk then
          goals == old(goals)[old(nextId) := Created(old(nextId), d, now)] && notice == None
        else
          goals == old(goals) && notice == Some(SaveFailed)
    {
      notice := None;
      if !signedIn {
        return;
      }
      if d.id.Some? {
        var id := d.id.value;
        if writeOk && id in goals {
          goals := goals[id := Updated(goals[id], d)];
        } else {
          notice := Some(SaveFailed);
        }
      } else {
        var id := nextId;
        nextId := nextId + 1;
        if writeOk {
          goals := goals[id := Created(id, d, now)];
        } else {
          notice := Some(SaveFailed);
        }
      }
    }

    /** `handleDeleteGoal`: removes the one document; deleting a missing id
        succeeds and changes nothing. */
    method DeleteGoal(signedIn: bool, id: Id, writeOk: bool) returns (notice: Option<Notice>)
      requires Valid()
      modifies this`goals
      ensures Valid()
      ensures !signedIn ==> goals == old(goals) && notice == None
      ensures signedIn && writeOk ==> goals == old(goals) - {id} && notice == Some(GoalDeleted)
      ensures signedIn && !writeOk ==> goals == old(goals) && notice == Some(DeleteFailed)
    {
      notice := None;
      if !signedIn {
        return;
      }
      if writeOk {
        goals := goals - {id};
        notice := Some(GoalDeleted);
      } else {
        notice := Some(DeleteFailed);
      }
    }

    /** `handleToggleComplete` on the listed goal with this id: writes only
        `isCompleted` and `progress`. */
    method ToggleComplete(signedIn: bool, id: Id, writeOk: bool) returns (notice: Option<Notice>)
      requires Valid()
      modifies this`goals
      ensures Valid()
      ensures !signedIn ==> goals == old(goals) && notice == None
      ensures signedIn && writeOk && id in old(goals) ==>
        goals == old(goals)[id := Toggle(old(goals)[id])] &&
        notice == (if goals[id].isCompleted then Some(Milestone(goals[id].title)) else None)
      ensures signedIn && !(writeOk && id in old(goals)) ==>
        goals == old(goals) && notice == Some(UpdateFailed)
    {
      notice := None;
      if !signedIn {
        return;
      }
      if writeOk && id in goals {
        var g := goals[id];
        var isNowCompleted := !g.isCompleted;
        var newProgress := if isNowCompleted then 100 else if g.progress < 100 then g.progress else 90;
        goals := goals[id := g.(isCompleted := isNowCompleted, progress := newProgress)];
        if isNowCompleted {
          notice := Some(Milestone(g.title));
        }
      } else {
        notice := Some(UpdateFailed);
      }
    }

    /** `handleHabitChange`: copies the habit's days, sets one index and
        writes the whole array back; an unknown habit id does nothing. */
    method HabitChange(signedIn: bool, habitId: Id, dayIndex: nat, isCompleted: bool, writeOk: bool)
      returns (notice: Option<Notice>)
      requires Valid()
      requires dayIndex < DaysPerWeek
      modifies this`habits
      ensures Valid()
      ensures notice == if signedIn && FindHabit(old(habits), habitId).Some? && !writeOk then Some(HabitUpdateFailed) else None
      ensures habits == if signedIn && writeOk then WithHabitDay(old(habits), habitId, dayIndex, isCompleted) else old(habits)
    {
      notice := None;
      if !signedIn {
        return;
      }
      var found := FindHabit(habits, habitId);
      if found.None? {
        return;
      }
      var k := found.value;
      var newCompletedDays := habits[k].completedDays;
      newCompletedDays := newCompletedDays[dayIndex := isCompleted];
      if writeOk {
        habits := habits[k := habits[k].(completedDays := newCompletedDays)];
      } else {
        notice := Some(HabitUpdateFailed);
      }
    }

    /** The habits snapshot handler: an empty snapshot without pending
        writes seeds the two default habits, one write after the other. */
    method OnHabitsSnapshot(hasPendingWrites: bool)
      requires Valid()
      modifies this`habits, this`nextId
      ensures Valid()
      ensures ShouldSeed(old(habits), hasPendingWrites) ==>
        habits == SeededHabits(old(nextId)) && nextId == old(nextId) + |DefaultHabitNames|
      ensures !ShouldSeed(old(habits), hasPendingWrites) ==>
        habits == old(habits) && nextId == old(nextId)
    {
      if |habits| == 0 && !hasPendingWrites {
        ghost var first := nextId;
        var i := 0;
        while i < |DefaultHabitNames|
          invariant 0 <= i <= |DefaultHabitNames|
          invariant nextId == first + i
          invariant habits == SeededHabits(first)[..i]
          invariant goals == old(goals)
        {
          habits := habits + [Habit(nextId, DefaultHabitNames[i], NoDaysDone())];
          nextId := nextId + 1;
          i := i + 1;
        }
        assert habits == SeededHabits(first);
      }
    }

    /** The goals query: every stored goal exactly once, newest first. */
    method ListGoals() returns (s: seq<Goal>)
      requires Valid()
      ensures NewestFirst(s) && DistinctGoalIds(s)
      ensures forall g :: g in s ==> g.id in goals && goals[g.id] == g
      ensures forall id :: id in goals ==> goals[id] in s
      ensures |s| == |goals|
    {
      s := [];
      var remaining := goals.Keys;
      ghost var done: set<Id> := {};
      while remaining != {}
        invariant remaining + done == goals.Keys && remaining * done == {}
        invariant NewestFirst(s) && DistinctGoalIds(s)
        invariant forall g :: g in s ==> g.id in done && goals[g.id] == g
        invariant forall id :: id in done ==> goals[id] in s
        invariant |s| == |done|
        decreases remaining
      {
        var id :| id in remaining;
        var g := goals[id];
        InsertKeepsOrder(s, g);
        InsertKeepsDistinct(s, g);
        InsertMembers(s, g);
        s := InsertByCreation(s, g);
        remaining := remaining - {id};
        done := done + {id};
      }
      assert done == goals.Keys;
    }
  }

  /** A goal created after every stored goal is listed first. */
  lemma NewestGoalListedFirst(s: seq<Goal>, g: Goal)
    requires NewestFirst(s) && g in s
    requires forall x :: x in s && x != g ==> x.createdAt < g.createdAt
    ensures s[0] == g
  {
    var k :| 0 <= k < |s| && s[k] == g;
    if k > 0 {
      assert s[0].createdAt >= s[k].createdAt;
      assert s[0] in s;
    }
  }
}
