# AchieveIT dashboard — a verified model

AchieveIT is a personal goal and habit dashboard backed by Firebase and
Google Fit. This project models the rules behind it in Dafny:

- the goal and habit store of the dashboard page: saving, deleting,
  completion toggling, habit day ticks, seeding the default habits, and the
  in-progress / completed views;
- the session: the auth-state listener, the route guard, profile
  provisioning, Google sign-in, and connecting and disconnecting Google Fit;
- the goal form and the AI suggestion dialog;
- the shaping of Google Fit answers by the step statistics dialog, the
  health panel, the summary card and the steps card;
- the goal counts of the overview chart, the avatar initials, and the Fit
  items of the avatar menu.

Remote calls are not modelled. The caller supplies what each one returned:

- a document write succeeds or fails (`writeOk`);
- a popup grants a credential or is rejected with a code (`Popup`);
- an HTTP request fails, answers non-OK or delivers a body
  (`AggregateResponse`, `SourceResponse`).

The Firestore documents are in-memory tables:

- goals: a map from id to goal;
- habits: a sequence;
- profiles: a map from uid to document (`Profiles.ProfileTable`).

Other modelling choices:

- Document ids are natural numbers drawn from a counter, so they are always
  fresh.
- Dates are day numbers, with day 0 a Sunday.
- JavaScript's `undefined` is `None`.
- A TypeError from reading through a missing array entry is an `Err`, which
  the enclosing `try` catches.
- Truthiness follows JavaScript: a string is truthy when non-empty, a
  number when non-zero.

Files and modules:

- `wrappers.dfy` (`Wrappers`): `Option`, `Result` and truthiness.
- `types.dfy` (`Types`): the records of `src/lib/types.ts`.
- `goal_store.dfy` (`GoalStore`): the dashboard page.
- `profiles.dfy` (`Profiles`): profile documents.
- `auth.dfy` (`Auth`): `src/hooks/use-auth.tsx`.
- `fit_response.dfy` (`FitResponse`): the shape of a Fit answer.
- `step_stats.dfy`, `health_dashboard.dfy`, `fit_summary.dfy`,
  `steps_card.dfy`, `add_goal_dialog.dfy`, `ai_suggestion_dialog.dfy`,
  `progress_charts.dfy`, `user_profile.dfy`: one module per component.

Two step goals appear in the code. Sign-up provisions a step goal of 8000
(use-auth.tsx:106, `Profiles.NewProfile`). The steps card starts from 10000
and writes 10000 when the profile has no truthy goal (steps-card.tsx:27,
92). `StepsCard.ProvisionedGoalAdopted` relates the two.

## Model

| member | source | states |
|---|---|---|
| Types.CategoryName | src/lib/types.ts:6 | the name of a category is one of the five category names |
| Types.PriorityName | src/lib/types.ts:7 | the name of a priority is one of the three priority names |
| Types.ParseCategory | src/lib/types.ts:6 | a string reads as a category exactly when it is one of the five names, and that category's name is the string |
| Types.ParsePriority | src/lib/types.ts:7 | a string reads as a priority exactly when it is one of the three names, and that priority's name is the string |
| Types.CategoryRoundTrip | src/lib/types.ts:6 | reading a category's name gives back the category |
| Types.PriorityRoundTrip | src/lib/types.ts:7 | reading a priority's name gives back the priority |
| GoalStore.Toggle | src/app/dashboard/page.tsx:132-137 | completion flips. A goal becoming complete gets progress 100. A goal becoming incomplete keeps progress below 100, otherwise gets 90. No other field changes, progress stays in 0..100, and a toggled goal is complete iff its progress is 100 |
| GoalStore.ToggleTwice | src/app/dashboard/page.tsx:132-133 | completing and then reopening an incomplete goal gives the same goal, incomplete, with progress 90 |
| GoalStore.Created | src/app/dashboard/page.tsx:102-111 | a new goal takes the draft's fields, the given fresh id, progress 0, not completed, and the creation time |
| GoalStore.Updated | src/app/dashboard/page.tsx:99-101 | an edit writes the draft's title, category and priority, and its description and due date only when supplied. Id, progress, completion and creation time are kept, and valid progress stays valid |
| GoalStore.UpdateIdempotent | src/app/dashboard/page.tsx:99-101 | applying the same edit twice equals applying it once |
| GoalStore.UpdateWithOwnFields | src/app/dashboard/page.tsx:99-101 | an edit carrying the goal's own fields leaves the goal unchanged |
| GoalStore.FindHabit | src/app/dashboard/page.tsx:152-153 | `find` gives the position of the first habit with the id, or none when no habit has it |
| GoalStore.WithHabitDay | src/app/dashboard/page.tsx:150-159 | for the first habit with the id, exactly entry `dayIndex` becomes the new value. Every other entry, every other habit, all names and ids, all lengths and the distinctness of ids are kept. An unknown id changes nothing |
| GoalStore.NoDaysDone | src/app/dashboard/page.tsx:70-71 | a default habit week is seven `false` entries |
| GoalStore.ShouldSeed | src/app/dashboard/page.tsx:67 | seeding happens only for an empty snapshot without pending writes |
| GoalStore.SeededHabits | src/app/dashboard/page.tsx:67-76 | seeding yields exactly the two default habits in order, each with a fresh id stored in the habit and seven `false` days |
| GoalStore.InsertByCreation | src/app/dashboard/page.tsx:49 | insertion into a newest-first list |
| GoalStore.InsertContents | src/app/dashboard/page.tsx:49 | inserting adds exactly the new goal to the list's contents |
| GoalStore.InsertKeepsOrder | src/app/dashboard/page.tsx:49 | inserting into a newest-first list keeps it newest first |
| GoalStore.InsertKeepsDistinct | src/app/dashboard/page.tsx:49 | inserting a goal with a new id keeps ids distinct |
| GoalStore.InsertMembers | src/app/dashboard/page.tsx:49 | a goal is in the list after inserting iff it was the inserted one or was already there |
| GoalStore.InProgress | src/app/dashboard/page.tsx:173 | the in-progress view holds only incomplete goals |
| GoalStore.Completed | src/app/dashboard/page.tsx:225 | the completed view holds only completed goals |
| GoalStore.ViewsPartition | src/app/dashboard/page.tsx:173-225 | the two views split the list: their contents add up to it, their sizes add up to its size, and a goal is in exactly the view its completion flag names |
| GoalStore.Dashboard.constructor | src/app/dashboard/page.tsx:27-28 | the page starts with no goals and no habits |
| GoalStore.Dashboard.SaveGoal | src/app/dashboard/page.tsx:96-117 | no user: nothing changes. With an id: a successful write of a stored goal replaces it by `Updated`, and anything else only reports failure. Without an id: a successful write adds exactly one `Created` goal under a fresh id. The store invariant is kept |
| GoalStore.Dashboard.DeleteGoal | src/app/dashboard/page.tsx:119-127 | no user: nothing changes. A successful delete removes exactly that id (a missing id removes nothing) and reports it; a failed one changes nothing and reports the failure |
| GoalStore.Dashboard.ToggleComplete | src/app/dashboard/page.tsx:129-148 | a successful write on a stored goal replaces exactly that goal by `Toggle`, and reports a milestone exactly when it becomes completed. Without a user nothing changes. An unknown goal or a failed write changes nothing and reports the failure |
| GoalStore.Dashboard.HabitChange | src/app/dashboard/page.tsx:150-163 | a successful write replaces the habit list by `WithHabitDay`; without a user, for an unknown habit or on failure the habits are unchanged; goals never change |
| GoalStore.Dashboard.OnHabitsSnapshot | src/app/dashboard/page.tsx:62-77 | when seeding applies, the habits become exactly `SeededHabits` with ids taken from the counter; otherwise nothing changes |
| GoalStore.Dashboard.ListGoals | src/app/dashboard/page.tsx:49-54 | the listing is newest first, holds every stored goal exactly once and nothing else |
| GoalStore.NewestGoalListedFirst | src/app/dashboard/page.tsx:49 | in a newest-first list, a goal created after every other listed goal is the first one |
| Profiles.ProfileTable.constructor | src/lib/firebase.ts:30 | the users collection starts empty |
| Profiles.NewProfile | src/hooks/use-auth.tsx:99-107 | the provisioned profile copies uid, email, name and photo, records the creation time and sets step goal 8000 |
| Profiles.MergeStepGoal | src/components/dashboard/steps-card.tsx:92 | a merge write sets the step goal and keeps every other field, creating an otherwise empty document when none exists |
| Profiles.ProfileTable.Get | src/hooks/use-auth.tsx:96-99 | reading a profile finds exactly the stored document, or none |
| Profiles.ProfileTable.Provision | src/hooks/use-auth.tsx:94-110 | a profile is written only when none exists; an existing one is untouched |
| Profiles.ProfileTable.WriteStepGoal | src/components/dashboard/steps-card.tsx:109 | only that user's document changes, by `MergeStepGoal` |
| Auth.Redirects | src/hooks/use-auth.tsx:79-92 | at most one redirect, none while loading. Login is chosen iff no one is signed in, Firebase is configured and the path is not public. The dashboard is chosen iff someone is signed in on `/login` or `/signup` |
| Auth.Connection | src/hooks/use-auth.tsx:144-183 | the token is set iff one of three cases holds: the link grants a truthy token; a credential-in-use rejection is followed by a reauth with user and token; a recent-login rejection is followed by a reauth with a token. A set token is truthy. A link without a token is a failure, a closed popup is silent, and any other code is reported with its message |
| Auth.ReauthOnlyOnFallback | src/hooks/use-auth.tsx:153-183 | the reauthentication popup matters only for the two fallback codes |
| Auth.Session.constructor | src/hooks/use-auth.tsx:54-57 | no user, loading, no token, not connecting |
| Auth.Session.Mount | src/hooks/use-auth.tsx:62-66 | without configuration loading ends at once |
| Auth.Session.OnAuthStateChanged | src/hooks/use-auth.tsx:68-74 | the user is stored, signing out clears the token, and loading is false afterwards |
| Auth.Session.RouteRedirects | src/hooks/use-auth.tsx:79-92 | the guard on the current state: nothing while loading and at most one redirect |
| Auth.Session.SignInWithGoogle | src/hooks/use-auth.tsx:124-133 | the token is replaced iff the credential carries a truthy access token, and the profile is provisioned. Without configuration or on rejection nothing changes |
| Auth.Session.SignUpWithEmail | src/hooks/use-auth.tsx:112-117 | the new account gets the chosen display name and a provisioned profile; failures change nothing |
| Auth.Session.ConnectGoogleFit | src/hooks/use-auth.tsx:135-187 | logged out: only the warning, no state change. Otherwise the token and toasts are those of `Connection`, and connecting is false at exit |
| Auth.Session.DisconnectGoogleFit | src/hooks/use-auth.tsx:189-204 | without a token nothing happens; otherwise the token is cleared whatever the revocation did, and the toast is shown |
| Auth.Session.SignOut | src/hooks/use-auth.tsx:206-210 | when configured the session ends (no user, no token, not loading) and the page goes to `/`; otherwise nothing happens |
| FitResponse.WeekdayName | src/components/dashboard/health-dashboard.tsx:73-76 | a day's name is one of the seven short weekday names |
| FitResponse.PointsOf | src/components/dashboard/health-dashboard.tsx:75 | the points of dataset k, or the TypeError exactly when there is no such dataset |
| FitResponse.FirstIntOrZero | src/components/dashboard/health-dashboard.tsx:76 | 0 for no points, the first point's `intVal` otherwise, and a TypeError when that point has no value |
| FitResponse.FirstFpOrZero | src/components/dashboard/health-dashboard.tsx:81 | 0 for no points, the first point's `fpVal` otherwise, and a TypeError when that point has no value |
| StepStats.BucketIndex | src/components/dashboard/step-stats-dialog.tsx:87-90 | the first bucket starting on the day, or none when no bucket does |
| StepStats.BucketOn | src/components/dashboard/step-stats-dialog.tsx:87-90 | the bucket at `BucketIndex`, or none |
| StepStats.DayLabel | src/components/dashboard/step-stats-dialog.tsx:92-94 | "Today" for the last entry, "Yest" for the one before, and the weekday name otherwise |
| StepStats.StepsOn | src/components/dashboard/step-stats-dialog.tsx:96-99 | a TypeError exactly when the day's bucket is unreadable. Otherwise 0 for a missing bucket or no points, and the first point's `intVal` otherwise |
| StepStats.Entries | src/components/dashboard/step-stats-dialog.tsx:85-106 | n entries, entry i for day today-6+i with its label and steps |
| StepStats.WeeklyData | src/components/dashboard/step-stats-dialog.tsx:83-106 | a missing bucket list fails. Otherwise there are exactly 7 entries whatever the bucket count, ascending by one day, the last for today ("Today") and the one before "Yest", each with the steps of `StepsOn` |
| StepStats.WeekFailsIffDayUnreadable | src/components/dashboard/step-stats-dialog.tsx:96-99 | the week fails iff one of its seven days has an unreadable bucket |
| StepStats.StepStatsDialog.constructor | src/components/dashboard/step-stats-dialog.tsx:41-43 | no data, loading, no error |
| StepStats.StepStatsDialog.FetchWeeklySteps | src/components/dashboard/step-stats-dialog.tsx:45-115 | success replaces the data with `WeeklyData`. Any failure sets the fixed error and keeps the data. Loading ends on every path |
| HealthDashboard.Series | src/components/dashboard/health-dashboard.tsx:74-87 | one entry per bucket in bucket order, named by the bucket's weekday and valued from dataset k; it fails iff some bucket cannot be read |
| HealthDashboard.Activity | src/components/dashboard/health-dashboard.tsx:74-89 | steps, glucose and body fat come from datasets 0, 1 and 2, all of the bucket count; a missing bucket list is a TypeError |
| HealthDashboard.LastWithSteps | src/components/dashboard/health-dashboard.tsx:90 | the position of the last entry with steps above zero, or none when there is none |
| HealthDashboard.StepCount | src/components/dashboard/health-dashboard.tsx:90 | the steps of the last entry with steps above zero, or 0 iff there is none |
| HealthDashboard.LatestPoint | src/components/dashboard/health-dashboard.tsx:108-109 | the last point of a successful answer with points, and none otherwise |
| HealthDashboard.NewScalar | src/components/dashboard/health-dashboard.tsx:110-113 | a truthy latest `fpVal` becomes the read-out, times the scale; otherwise the previous value is kept |
| HealthDashboard.NewPressure | src/components/dashboard/health-dashboard.tsx:114-117 | when the latest point carries two numbers they become the systolic and diastolic pair; otherwise the previous pair is kept |
| HealthDashboard.ApplySource | src/components/dashboard/health-dashboard.tsx:106-118 | an answer updates its own source's field only and never the step count; a failed or non-OK answer changes nothing |
| HealthDashboard.SourcesIndependent | src/components/dashboard/health-dashboard.tsx:101-123 | after the loop each read-out depends only on its own source's answer, whatever the others did |
| HealthDashboard.LatestReadOuts | src/components/dashboard/health-dashboard.tsx:106-117 | after the loop the height is the latest height reading times 100, weight, heart rate and calories are their latest readings, and the pressure pair is the latest two numbers, wherever those readings exist |
| HealthDashboard.AggregateError | src/components/dashboard/health-dashboard.tsx:124-126 | a non-OK answer gives the reconnect message; the error is never empty |
| HealthDashboard.HealthPanel.constructor | src/components/dashboard/health-dashboard.tsx:32-35 | zero metrics, empty series, loading, no error |
| HealthDashboard.HealthPanel.FetchData | src/components/dashboard/health-dashboard.tsx:37-130 | A failed or non-OK request keeps the reset metrics, skips the loop and sets the error. Otherwise the series are replaced, the step count is derived, and the loop result is `ApplySources` over the five sources. Loading is false afterwards |
| HealthDashboard.HealthPanel.OnToken | src/components/dashboard/health-dashboard.tsx:132-138 | without a truthy token nothing but loading changes; with one the metrics, series and error are those of `FetchData` for the given answers. Loading is false afterwards |
| FitSummary.DatasetIndex | src/components/dashboard/fit-summary-card.tsx:77-83 | each figure reads the dataset at its own position in the source table |
| FitSummary.AggregateBy | src/components/dashboard/fit-summary-card.tsx:46 | the request lists one entry per source; entry k is the source of the figure read from dataset k |
| FitSummary.GetVal | src/components/dashboard/fit-summary-card.tsx:68-75 | 0 without a bucket, dataset or point; otherwise `fpVal`, then `intVal`, then 0; a TypeError for a point without value |
| FitSummary.Round | src/components/dashboard/fit-summary-card.tsx:78 | the nearest integer, halves rounded up |
| FitSummary.RoundOfInteger | src/components/dashboard/fit-summary-card.tsx:78 | rounding an integer gives it back |
| FitSummary.Summary | src/components/dashboard/fit-summary-card.tsx:77-83 | fails iff some figure cannot be read; each figure is the rounded value of its dataset, the distance unrounded |
| FitSummary.NoBucketsShowsZeros | src/components/dashboard/fit-summary-card.tsx:66-75 | an answer without buckets shows all zeros |
| FitSummary.CappedPercent | src/components/dashboard/fit-summary-card.tsx:116-117 | at most 100, exactly 100 iff the goal is reached, non-negative for non-negative values, proportional below the goal |
| FitSummary.CappedPercentMonotone | src/components/dashboard/fit-summary-card.tsx:116-117 | the ring grows with the value |
| FitSummary.StepsProgress | src/components/dashboard/fit-summary-card.tsx:117 | 0 without data, at most 100, full iff 10000 steps are reached |
| FitSummary.HeartPointsProgress | src/components/dashboard/fit-summary-card.tsx:116 | 0 without data, at most 100, full iff 150 heart points are reached |
| FitSummary.FitSummaryCard.constructor | src/components/dashboard/fit-summary-card.tsx:32-34 | no data, loading, no error |
| FitSummary.FitSummaryCard.FetchFitData | src/components/dashboard/fit-summary-card.tsx:36-91 | success replaces the data with `Summary`; any failure sets the fixed error and keeps the data; loading ends |
| StepsCard.TodaySteps | src/components/dashboard/steps-card.tsx:67-72 | 0 without buckets or points, else the first point's `intVal`; a TypeError exactly for a missing dataset or an empty value list |
| StepsCard.StoredGoal | src/components/dashboard/steps-card.tsx:86-87 | a stored step goal is adopted iff it is truthy |
| StepsCard.ProvisionedGoalAdopted | src/components/dashboard/steps-card.tsx:86-89 | the card adopts the 8000 a first sign-in provisions, which differs from its own default |
| StepsCard.Progress | src/components/dashboard/steps-card.tsx:120 | at most 100, 0 when the goal is not positive, non-negative for non-negative steps, full iff the goal is reached |
| StepsCard.ParseGoalInput | src/components/dashboard/steps-card.tsx:161 | input without a digit becomes 0; a plain run of digits becomes the number it denotes |
| StepsCard.ParseDigits | src/components/dashboard/steps-card.tsx:161 | a non-empty run of digits parses to the number it denotes |
| StepsCard.ParseNumberPrefix | src/components/dashboard/steps-card.tsx:161 | white space, an optional sign and a digit run ending at a non-digit read as plus or minus the run's value (so "12.5" gives 12 and "1e4" gives 1) |
| StepsCard.ParseNoNumber | src/components/dashboard/steps-card.tsx:161 | white space and an optional sign not followed by a digit are `NaN`, which becomes 0 |
| StepsCard.ParseDecimal | src/components/dashboard/steps-card.tsx:161 | a goal typed in decimal reads back as itself |
| StepsCard.StepsCard.constructor | src/components/dashboard/steps-card.tsx:26-33 | no steps, goal 10000 in both places, loading, no error, not editing |
| StepsCard.StepsCard.FetchSteps | src/components/dashboard/steps-card.tsx:35-79 | success stores `TodaySteps`; any failure sets the fixed error and keeps the count; the goal is untouched and loading ends |
| StepsCard.StepsCard.FetchStepGoal | src/components/dashboard/steps-card.tsx:81-97 | without a user nothing happens. A truthy stored goal is adopted with no write; otherwise 10000 is merged into the profile and adopted |
| StepsCard.StepsCard.EditGoalInput | src/components/dashboard/steps-card.tsx:161 | the pending goal becomes the parsed input |
| StepsCard.StepsCard.SaveGoal | src/components/dashboard/steps-card.tsx:104-118 | ignored without a user or for a goal below 1. A successful write merges and adopts the goal and closes the editor; a failed one changes only the toast |
| AddGoalDialog.Validate | src/components/dashboard/add-goal-dialog.tsx:22-28 | valid iff the title has at least 3 characters and category and priority are listed names. Each failing field is reported and no other. The valid data carries the same fields |
| AddGoalDialog.ValuesOf | src/components/dashboard/add-goal-dialog.tsx:61-69 | the form loads the goal's title, description, category, priority and due date |
| AddGoalDialog.Submit | src/components/dashboard/add-goal-dialog.tsx:81-83 | the draft exists iff the form is valid, carries the edited goal's id or none, and the validated fields |
| AddGoalDialog.EditRoundTrip | src/components/dashboard/add-goal-dialog.tsx:61-83 | opening a goal with a valid title and saving it untouched leaves the stored goal unchanged |
| AddGoalDialog.ShortTitleBlocksSave | src/components/dashboard/add-goal-dialog.tsx:23 | a goal with a short title is refused with exactly the title error |
| AddGoalDialog.WithTemplate | src/components/dashboard/add-goal-dialog.tsx:90-94 | a template sets title, description and category only; priority and due date are kept |
| AddGoalDialog.TemplateValidates | src/components/dashboard/add-goal-dialog.tsx:39-44 | a form filled from a listed template is valid iff its priority is |
| AddGoalDialog.GoalForm.constructor | src/components/dashboard/add-goal-dialog.tsx:49-58 | the form starts with the default values |
| AddGoalDialog.GoalForm.Reset | src/components/dashboard/add-goal-dialog.tsx:60-79 | an open edit loads the goal; anything else resets to the defaults |
| AddGoalDialog.GoalForm.Save | src/components/dashboard/add-goal-dialog.tsx:81-88 | the result is `Submit`. A valid save closes the dialog and shows the "updated" or "created" toast with the title, before the page's write is known; an invalid one keeps the dialog and shows no toast |
| AddGoalDialog.GoalForm.ApplyTemplate | src/components/dashboard/add-goal-dialog.tsx:90-94 | the values become `WithTemplate` |
| AiSuggestionDialog.Validate | src/components/dashboard/ai-suggestion-dialog.tsx:17-20 | no error iff both fields have at least 10 characters, and each short field is reported |
| AiSuggestionDialog.SuggestionDialog.constructor | src/components/dashboard/ai-suggestion-dialog.tsx:31-40 | empty fields, not loading, no suggestion: the form shows |
| AiSuggestionDialog.SuggestionDialog.EditFields | src/components/dashboard/ai-suggestion-dialog.tsx:78-103 | typing changes the two fields only |
| AiSuggestionDialog.SuggestionDialog.Submit | src/components/dashboard/ai-suggestion-dialog.tsx:42-46 | an invalid form changes nothing; a valid one clears the suggestion and shows the spinner |
| AiSuggestionDialog.SuggestionDialog.Receive | src/components/dashboard/ai-suggestion-dialog.tsx:45-56 | loading ends. The suggestion is set only for a successful answer with text; otherwise it is kept and the error toast is raised |
| AiSuggestionDialog.SuggestionDialog.HandleClose | src/components/dashboard/ai-suggestion-dialog.tsx:59-65 | closing empties the form and drops the suggestion; opening changes neither |
| AiSuggestionDialog.SuggestionDialog.AskAgain | src/components/dashboard/ai-suggestion-dialog.tsx:132 | back to the form with its text kept |
| AiSuggestionDialog.OneViewAtATime | src/components/dashboard/ai-suggestion-dialog.tsx:75-121 | exactly one of form, spinner and suggestion shows |
| ProgressCharts.CompletedCountsPositions | src/components/dashboard/progress-charts.tsx:13 | the completed view has as many goals as there are completed positions |
| ProgressCharts.CompletedGoals | src/components/dashboard/progress-charts.tsx:13 | the number of completed goals, between 0 and the total |
| ProgressCharts.InProgressGoals | src/components/dashboard/progress-charts.tsx:14 | between 0 and the total, adds up with the completed count to the total, and equals the in-progress view's size |
| ProgressCharts.ChartData | src/components/dashboard/progress-charts.tsx:16-19 | exactly two rows, "In Progress" then "Completed", with those counts |
| UserProfile.Split | src/components/dashboard/user-profile.tsx:40 | at least one piece, none containing a space |
| UserProfile.JoinSplit | src/components/dashboard/user-profile.tsx:40 | joining the pieces with spaces gives back the name |
| UserProfile.SplitJoin | src/components/dashboard/user-profile.tsx:40 | splitting space-free pieces joined by spaces gives back the pieces |
| UserProfile.FirstCharText | src/components/dashboard/user-profile.tsx:42 | the first character, or "undefined" for an empty piece |
| UserProfile.GetInitialsAsWritten | src/components/dashboard/user-profile.tsx:38-45 | "U" without a name; first characters of the first and last piece for several pieces; the first two characters otherwise |
| UserProfile.TrailingSpaceShowsUndefined | src/components/dashboard/user-profile.tsx:40-42 | "Ana " shows "Aundefined" |
| UserProfile.GetInitials | src/components/dashboard/user-profile.tsx:38-45 | one or two characters, all taken from the name or "U"; first letters of the first and last word for several words |
| UserProfile.InitialsAgreeOnWellFormedNames | src/components/dashboard/user-profile.tsx:38-45 | without empty pieces the corrected initials equal the written ones |
| UserProfile.ConnectOrDisconnect | src/components/dashboard/user-profile.tsx:71-84 | the connect item is enabled exactly when the disconnect item is absent, i.e. without a token |

## Left out

- Remote I/O is not modelled: Firestore listeners and writes, OAuth popups, token revocation and Fit HTTP calls. Each is replaced by the outcome the caller supplies or by an in-memory table.
- Async ordering is not modelled: effect re-runs, eventual consistency between writes and snapshots, and answers arriving after the component has moved on.
- The failure paths of the seeding writes are not modelled; seeding is modelled as always succeeding (page.tsx:73-76).
- Failed profile reads and writes in provisioning and in `fetchStepGoal` are not modelled; they are unhandled rejections in the source.
- The AI flow in `src/ai/flows/ai-goal-suggestion.ts` and `src/lib/actions.ts` is not part of this model; its answer is the `SuggestionResult` parameter.
- `signInWithEmail` is not modelled: it only forwards to the identity provider.
- Toasts are returned as notices; their wording and styling are left out.
- Wall-clock time is replaced by day numbers and the time of creation by a parameter; time zones are left out.
- Avatar images, SVG ring geometry, `toFixed` and `toLocaleString` formatting are left out. Read-outs stay unformatted reals.
- HealthDashboard.NewScalar: a latest point with an empty value list keeps the previous value. The source would throw inside the state updater, outside the loop's `try`.
- HealthDashboard.NewPressure: a latest point lacking either pressure number keeps the previous pair. The source would throw inside the state updater.
- The text of JavaScript TypeErrors is left out. One constant message stands for all of them, and it only shows in the health panel's error.
- StepsCard.ParseInt treats only ASCII white space as leading white space. It works on whole integers, without JavaScript's number precision limits.
- Title and field lengths count Unicode scalar values, where zod counts UTF-16 code units.
- GoalStore.Dashboard.SaveGoal: a draft with an `undefined` description or due date is written as if the field were absent, both for updates and for creations. The form's default due date is `undefined` (add-goal-dialog.tsx:56), and page.tsx:104-111 spreads it into `setDoc`. `getFirestore(app)` at src/lib/firebase.ts:30 does not set `ignoreUndefinedProperties`, and the Firestore SDK rejects `undefined` field values by default (the SDK is not part of this model). So in the source, creating a goal without a due date would end in the "Could not save the goal." toast, where the model lets `writeOk` decide.
- GoalStore.Dashboard.ListGoals: goals with equal `createdAt` are listed in an unspecified order; Firestore breaks such ties in `orderBy('createdAt', 'desc')` (page.tsx:49) by document id.

## Findings

| source | as written | input that shows it | evidently intended | confidence | as-written member | corrected member |
|---|---|---|---|---|---|---|
| src/components/dashboard/user-profile.tsx:40-42 | the name is split on single spaces and the first character of the first and last pieces is shown; an empty piece has no first character and prints "undefined" | display name "Ana " (trailing space) gives "Aundefined"; "  " gives "undefinedundefined" | initials from the first letters of the first and last words, ignoring empty pieces, and "U" for a name without words | not executed | UserProfile.TrailingSpaceShowsUndefined | UserProfile.GetInitials |
