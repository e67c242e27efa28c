/** The "Steps Today" card of src/components/dashboard/steps-card.tsx:
    today's step count, the user's daily step goal kept in the profile
    document, the goal editor and the progress ring. */
module StepsCard {
  import opened Wrappers
  import opened FitResponse
  import opened Profiles
  import FitSummary

  const StepsError: string := "Could not load steps. Re-sync or check permissions."

  /** The goal the card starts with, and writes when the profile has none. */
  const DefaultStepGoal: int := 10000

  /** Today's steps: the first point's `intVal` of the first bucket's first
      dataset, 0 when there is no bucket or no point; reading through a
      missing dataset or an empty value list is a TypeError. */
  function TodaySteps(bucket: Option<seq<Bucket>>): (r: Result<Option<int>, string>)
    ensures bucket.None? || bucket.value == [] ==> r == Ok(Some(0))
    ensures bucket.Some? && bucket.value != [] ==>
      (r.Err? <==> bucket.value[0].dataset == [] ||
                   (bucket.value[0].dataset[0].point != [] && bucket.value[0].dataset[0].point[0].value == []))
    ensures bucket.Some? && bucket.value != [] && r.Ok? ==>
      var pts := bucket.value[0].dataset[0].point;
      r.value == if pts == [] then Some(0) else pts[0].value[0].intVal
  {
    if bucket.None? || bucket.value == [] then Ok(Some(0))
    else
      match PointsOf(bucket.value[0], 0)
      case Err(e) => Err(e)
      case Ok(points) => FirstIntOrZero(points)
  }

  /** The goal `fetchStepGoal` adopts from a stored profile, if any: only a
      truthy `stepGoal`. */
  function StoredGoal(d: Option<ProfileDoc>): (g: Option<int>)
    ensures g.Some? <==> d.Some? && TruthyInt(d.value.stepGoal)
    ensures g.Some? ==> g.value == d.value.stepGoal.value && g.value != 0
  {
    if d.Some? && TruthyInt(d.value.stepGoal) then d.value.stepGoal else None
  }

  /** A profile written at first sign-in makes the card adopt that
      profile's goal, not its own default. */
  lemma ProvisionedGoalAdopted(u: User, now: int)
    ensures StoredGoal(Some(NewProfile(u, now))) == Some(ProvisionedStepGoal)
    ensures ProvisionedStepGoal != DefaultStepGoal
  {
  }

  /** The ring: `stepGoal > 0 ? Math.min((steps ?? 0) / stepGoal * 100, 100) : 0`. */
  function Progress(steps: Option<int>, stepGoal: int): (p: real)
    ensures p <= 100.0
    ensures stepGoal <= 0 ==> p == 0.0
    ensures steps.GetOr(0) >= 0 ==> p >= 0.0
    ensures stepGoal > 0 ==> (p == 100.0 <==> steps.GetOr(0) >= stepGoal)
  {
    if stepGoal > 0 then FitSummary.CappedPercent(steps.GetOr(0) as real, stepGoal as real) else 0.0
  }

  // ---------------------------------------------------------------------
  // `parseInt(text, 10) || 0`

  predicate IsDigit(c: char) {
    '0' <= c <= '9'
  }

  predicate IsSpace(c: char) {
    c == ' ' || c == '\t' || c == '\n' || c == '\r' || c == '\U{000B}' || c == '\U{000C}'
  }

  function TrimStart(s: string): (t: string)
    ensures |t| <= |s| && t == s[|s| - |t|..]
    ensures t != [] ==> !IsSpace(t[0])
  {
    if s != [] && IsSpace(s[0]) then TrimStart(s[1..]) else s
  }

  /** The longest prefix of decimal digits. */
  function DigitPrefix(s: string): (ds: string)
    ensures ds <= s
    ensures forall i :: 0 <= i < |ds| ==> IsDigit(ds[i])
    ensures |ds| < |s| ==> !IsDigit(s[|ds|])
  {
    if s != [] && IsDigit(s[0]) then [s[0]] + DigitPrefix(s[1..]) else []
  }

  function DigitValue(c: char): nat
    requires IsDigit(c)
  {
    (c as int - '0' as int) as nat
  }

  /** The number a string of decimal digits denotes. */
  function DigitsValue(ds: string): nat
    requires forall i :: 0 <= i < |ds| ==> IsDigit(ds[i])
  {
    if ds == [] then 0 else DigitsValue(ds[..|ds| - 1]) * 10 + DigitValue(ds[|ds| - 1])
  }

  /** `parseInt(text, 10)`: leading white space, an optional sign, then the
      longest run of digits; `None` stands for `NaN`. */
  function ParseInt(text: string): (r: Option<int>)
  {
    ParseSignedRun(TrimStart(text))
  }

  /** An optional sign, then the longest run of digits. */
  function ParseSignedRun(t: string): Option<int>
  {
    if t != [] && t[0] == '-' then
      match ParseDigitRun(t[1..])
      case None => None
      case Some(v) => Some(-v)
    else if t != [] && t[0] == '+' then ParseDigitRun(t[1..])
    else ParseDigitRun(t)
  }

  /** The value of the longest run of leading digits, or `None` when there
      is no digit. */
  function ParseDigitRun(s: string): Option<int>
  {
    var ds := DigitPrefix(s);
    if ds == [] then None else Some(DigitsValue(ds))
  }

  /** The goal editor's parse: `NaN` (and 0) become 0. Text without a
      digit reads as 0, and a plain run of digits as the number it denotes. */
  function ParseGoalInput(text: string): (n: int)
    ensures (forall i :: 0 <= i < |text| ==> !IsDigit(text[i])) ==> n == 0
    ensures text != [] && (forall i :: 0 <= i < |text| ==> IsDigit(text[i])) ==> n == DigitsValue(text)
  {
    ParseDigits(text);
    match ParseInt(text)
    case None => 0
    case Some(v) => v
  }

  /** The decimal spelling of a natural number, most significant digit first. */
  function Decimal(n: nat): (s: string)
    ensures s != [] && forall i :: 0 <= i < |s| ==> IsDigit(s[i])
  {
    var d := ['0' + (n % 10) as char];
    if n < 10 then d else Decimal(n / 10) + d
  }

  lemma {:induction false} DecimalValue(n: nat)
    ensures DigitsValue(Decimal(n)) == n
  {
    var s := Decimal(n);
    if n >= 10 {
      DecimalValue(n / 10);
      assert s[..|s| - 1] == Decimal(n / 10);
    }
  }

  lemma DigitPrefixOfDigits(s: string)
    requires forall i :: 0 <= i < |s| ==> IsDigit(s[i])
    ensures DigitPrefix(s) == s
  {
  }

  /** Typing a goal in decimal reads back that goal. */
  lemma {:induction false} ParseDecimal(n: nat)
    ensures ParseGoalInput(Decimal(n)) == n
  {
    DecimalValue(n);
  }

  /** A non-empty run of digits parses to the number it denotes. */
  lemma {:induction false} ParseDigits(s: string)
    ensures s != [] && (forall i :: 0 <= i < |s| ==> IsDigit(s[i])) ==> ParseInt(s) == Some(DigitsValue(s))
  {
    if s != [] && forall i :: 0 <= i < |s| ==> IsDigit(s[i]) {
      assert !IsSpace(s[0]);
      assert TrimStart(s) == s;
      assert s[0] != '-' && s[0] != '+';
      DigitPrefixOfDigits(s);
    }
  }

  predicate AllSpace(ws: string) {
    forall i :: 0 <= i < |ws| ==> IsSpace(ws[i])
  }

  predicate AllDigits(ds: string) {
    forall i :: 0 <= i < |ds| ==> IsDigit(ds[i])
  }

  predicate IsSign(sign: string) {
    sign == "" || sign == "-" || sign == "+"
  }

  lemma {:induction false} TrimSpaces(ws: string, s: string)
    requires AllSpace(ws)
    requires s == [] || !IsSpace(s[0])
    ensures TrimStart(ws + s) == s
  {
    if ws != [] {
      assert (ws + s)[1..] == ws[1..] + s;
      TrimSpaces(ws[1..], s);
    }
  }

  lemma {:induction false} DigitsThenOther(ds: string, rest: string)
    requires AllDigits(ds)
    requires rest == [] || !IsDigit(rest[0])
    ensures DigitPrefix(ds + rest) == ds
  {
    if ds != [] {
      assert (ds + rest)[1..] == ds[1..] + rest;
      DigitsThenOther(ds[1..], rest);
    } else {
      assert ds + rest == rest;
    }
  }

  /** The value of digits `ds` after `sign`. */
  function Signed(sign: string, ds: string): int
    requires AllDigits(ds)
  {
    if sign == "-" then -(DigitsValue(ds) as int) else DigitsValue(ds)
  }

  /** Leading white space does not change what `parseInt` reads. */
  lemma SkipSpaces(ws: string, t: string)
    requires AllSpace(ws)
    requires t == [] || !IsSpace(t[0])
    ensures ParseInt(ws + t) == ParseInt(t)
  {
    TrimSpaces(ws, t);
    TrimSpaces([], t);
    assert [] + t == t;
  }

  lemma ParseSigned(sign: string, ds: string, rest: string)
    requires IsSign(sign)
    requires ds != [] && AllDigits(ds)
    requires rest == [] || !IsDigit(rest[0])
    ensures ParseSignedRun(sign + ds + rest) == Some(Signed(sign, ds))
  {
    var t := sign + ds + rest;
    DigitsThenOther(ds, rest);
    assert ParseDigitRun(ds + rest) == Some(DigitsValue(ds) as int);
    if sign != "" {
      assert t[1..] == ds + rest;
    } else {
      assert t == ds + rest;
      assert t[0] == ds[0];
    }
  }

  /** What a number input yields: leading white space, an optional sign and
      a run of digits ending at a non-digit (as in "12.5" or "1e4") read as
      that run's value, negated after a minus sign. */
  lemma ParseNumberPrefix(ws: string, sign: string, ds: string, rest: string)
    requires AllSpace(ws) && IsSign(sign)
    requires ds != [] && AllDigits(ds)
    requires rest == [] || !IsDigit(rest[0])
    ensures ParseInt(ws + sign + ds + rest) == Some(Signed(sign, ds))
    ensures ParseGoalInput(ws + sign + ds + rest) == Signed(sign, ds)
  {
    var t := sign + ds + rest;
    assert ws + sign + ds + rest == ws + t;
    assert t[0] == (if sign == "" then ds[0] else sign[0]);
    SkipSpaces(ws, t);
    ParseSigned(sign, ds, rest);
    assert t[0] != ' ' && !IsSpace(t[0]);
    TrimSpaces([], t);
    assert [] + t == t;
  }

  /** White space and an optional sign followed by no digit is `NaN`, which
      the editor reads as 0. */
  lemma ParseNoNumber(ws: string, sign: string, rest: string)
    requires AllSpace(ws) && IsSign(sign)
    requires rest == [] || !IsDigit(rest[0])
    requires sign == "" ==> rest == [] || (!IsSpace(rest[0]) && rest[0] != '-' && rest[0] != '+')
    ensures ParseInt(ws + sign + rest) == None
    ensures ParseGoalInput(ws + sign + rest) == 0
  {
    var t := sign + rest;
    assert ws + sign + rest == ws + t;
    TrimSpaces(ws, t);
    if sign != "" {
      assert t[1..] == rest;
    } else {
      assert t == rest;
    }
  }

  // ---------------------------------------------------------------------
  // The card

  datatype Notice = GoalUpdated(goal: int) | GoalSaveFailed

  class StepsCard {
    var steps: Option<int>
    var stepGoal: int
    var isLoading: bool
    var isGoalLoading: bool
    var error: Option<string>
    var isEditingGoal: bool
    var newGoal: int

    constructor ()
      ensures steps.None? && stepGoal == DefaultStepGoal && newGoal == DefaultStepGoal
      ensures isLoading && isGoalLoading && error.None? && !isEditingGoal
    {
      steps, stepGoal, newGoal := None, DefaultStepGoal, DefaultStepGoal;
      isLoading, isGoalLoading, error, isEditingGoal := true, true, None, false;
    }

    /** `fetchSteps`: any failure shows the fixed message and keeps the
        previous count. */
    method FetchSteps(response: AggregateResponse)
      modifies this
      ensures !isLoading
      ensures stepGoal == old(stepGoal) && newGoal == old(newGoal) && isGoalLoading == old(isGoalLoading)
      ensures isEditingGoal == old(isEditingGoal)
      ensures response.Body? && TodaySteps(response.bucket).Ok? ==>
        steps == TodaySteps(response.bucket).value && error.None?
      ensures !(response.Body? && TodaySteps(response.bucket).Ok?) ==>
        steps == old(steps) && error == Some(StepsError)
    {
      isLoading := true;
      error := None;
      if response.Body? {
        var r := TodaySteps(response.bucket);
        if r.Ok? {
          steps := r.value;
        } else {
          error := Some(StepsError);
        }
      } else {
        error := Some(StepsError);
      }
      isLoading := false;
    }

    /** `fetchStepGoal`: adopts a stored truthy goal, or writes the default
        into the profile (merging) and adopts it. */
    method FetchStepGoal(user: Option<User>, profiles: ProfileTable)
      modifies this, profiles
      ensures user.None? ==> unchanged(this) && unchanged(profiles)
      ensures user.Some? ==> !isGoalLoading && stepGoal == newGoal
      ensures user.Some? && StoredGoal(old(profiles.Get(user.value.uid))).Some? ==>
        stepGoal == StoredGoal(old(profiles.Get(user.value.uid))).value && profiles.docs == old(profiles.docs)
      ensures user.Some? && StoredGoal(old(profiles.Get(user.value.uid))).None? ==>
        stepGoal == DefaultStepGoal &&
        profiles.docs == old(profiles.docs)[user.value.uid := MergeStepGoal(old(profiles.Get(user.value.uid)), DefaultStepGoal)]
      ensures steps == old(steps) && error == old(error) && isLoading == old(isLoading)
      ensures isEditingGoal == old(isEditingGoal)
    {
      if user.None? {
        return;
      }
      isGoalLoading := true;
      var stored := StoredGoal(profiles.Get(user.value.uid));
      if stored.Some? {
        stepGoal := stored.value;
        newGoal := stored.value;
      } else {
        profiles.WriteStepGoal(user.value.uid, DefaultStepGoal);
        stepGoal := DefaultStepGoal;
        newGoal := DefaultStepGoal;
      }
      isGoalLoading := false;
    }

    /** The goal input's `onChange`. */
    method EditGoalInput(text: string)
      modifies this
      ensures newGoal == ParseGoalInput(text)
      ensures steps == old(steps) && stepGoal == old(stepGoal) && error == old(error)
      ensures isLoading == old(isLoading) && isGoalLoading == old(isGoalLoading) && isEditingGoal == old(isEditingGoal)
    {
      newGoal := ParseGoalInput(text);
    }

    /** `handleSaveGoal`: ignored without a user or for a goal below 1; a
        successful write adopts the goal and closes the editor. */
    method SaveGoal(user: Option<User>, profiles: ProfileTable, writeOk: bool) returns (notice: Option<Notice>)
      modifies this, profiles
      ensures user.None? || old(newGoal) <= 0 ==> unchanged(this) && unchanged(profiles) && notice.None?
      ensures user.Some? && old(newGoal) > 0 && writeOk ==>
        stepGoal == old(newGoal) && !isEditingGoal && notice == Some(GoalUpdated(old(newGoal))) &&
        profiles.docs == old(profiles.docs)[user.value.uid := MergeStepGoal(old(profiles.Get(user.value.uid)), old(newGoal))]
      ensures user.Some? && old(newGoal) > 0 && !writeOk ==>
        stepGoal == old(stepGoal) && isEditingGoal == old(isEditingGoal) && notice == Some(GoalSaveFailed) &&
        profiles.docs == old(profiles.docs)
      ensures user.Some? && old(newGoal) > 0 ==> !isGoalLoading
      ensures newGoal == old(newGoal) && steps == old(steps) && error == old(error) && isLoading == old(isLoading)
    {
      if user.None? || newGoal <= 0 {
        return None;
      }
      isGoalLoading := true;
      if writeOk {
        profiles.WriteStepGoal(user.value.uid, newGoal);
        stepGoal := newGoal;
        isEditingGoal := false;
        notice := Some(GoalUpdated(newGoal));
      } else {
        notice := Some(GoalSaveFailed);
      }
      isGoalLoading := false;
    }
  }
}
