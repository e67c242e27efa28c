/** The health panel of src/components/dashboard/health-dashboard.tsx: the
    7-day activity series from one aggregate request, today's step count,
    and the latest body read-outs from one request per data source. */
module HealthDashboard {
  import opened Wrappers
  import opened Types
  import opened FitResponse

  const InitialMetrics: HealthMetrics := HealthMetrics(0.0, 0.0, 0.0, 0.0, 0, 0.0, 0.0)
  const InitialActivity: ActivityData := ActivityData([], [], [])

  const ReconnectMessage: string := "Failed to fetch aggregate activity data. Please re-connect Google Fit."
  const UnknownErrorMessage: string := "An unknown error occurred while fetching health data."

  /** The aggregate request's data types; dataset k of a bucket answers entry k. */
  const AggregateTypes: seq<string> :=
    ["com.google.step_count.delta", "com.google.blood_glucose", "com.google.body.fat.percentage"]

  // ---------------------------------------------------------------------
  // Bucket-to-series mapping

  /** One chart entry per bucket, in bucket order: the weekday of the
      bucket's start and the value `first` reads from dataset `k`; the
      first unreadable bucket makes the whole series fail. */
  function Series<T>(bs: seq<Bucket>, k: nat, first: seq<Point> -> Result<Option<T>, string>)
    : (r: Result<seq<DayValue<T>>, string>)
    ensures r.Ok? ==> |r.value| == |bs|
    ensures r.Ok? <==> forall i :: 0 <= i < |bs| ==> PointsOf(bs[i], k).Ok? && first(PointsOf(bs[i], k).value).Ok?
    ensures r.Ok? ==> forall i :: 0 <= i < |bs| ==>
      r.value[i] == DayValue(WeekdayName(bs[i].startDay), first(PointsOf(bs[i], k).value).value)
  {
    if bs == [] then Ok([])
    else
      match PointsOf(bs[0], k)
      case Err(e) => Err(e)
      case Ok(points) =>
        match first(points)
        case Err(e) => Err(e)
        case Ok(v) =>
          match Series(bs[1..], k, first)
          case Err(e) => Err(e)
          case Ok(rest) =>
            assert forall i :: 1 <= i < |bs| ==> bs[i] == bs[1..][i - 1];
            Ok([DayValue(WeekdayName(bs[0].startDay), v)] + rest)
  }

  /** The three series of the panel; a missing bucket list is a TypeError. */
  function Activity(bucket: Option<seq<Bucket>>): (r: Result<ActivityData, string>)
    ensures bucket.None? ==> r == Err(TypeErrorMessage)
    ensures r.Ok? ==> (bucket.Some? &&
                       Series(bucket.value, 0, FirstIntOrZero) == Ok(r.value.steps) &&
                       Series(bucket.value, 1, FirstFpOrZero) == Ok(r.value.glucose) &&
                       Series(bucket.value, 2, FirstFpOrZero) == Ok(r.value.bodyFat))
    ensures r.Ok? ==> |r.value.steps| == |r.value.glucose| == |r.value.bodyFat| == |bucket.value|
  {
    match bucket
    case None => Err(TypeErrorMessage)
    case Some(bs) =>
      match Series(bs, 0, FirstIntOrZero)
      case Err(e) => Err(e)
      case Ok(steps) =>
        match Series(bs, 1, FirstFpOrZero)
        case Err(e) => Err(e)
        case Ok(glucose) =>
          match Series(bs, 2, FirstFpOrZero)
          case Err(e) => Err(e)
          case Ok(bodyFat) => Ok(ActivityData(steps, glucose, bodyFat))
  }

  // ---------------------------------------------------------------------
  // Today's step count

  predicate HasSteps(e: DayValue<int>) {
    e.value.Some? && e.value.value > 0
  }

  /** The position of the last entry with steps above zero (`findLast`). */
  function LastWithSteps(s: seq<DayValue<int>>): (k: Option<nat>)
    ensures k.Some? ==> k.value < |s| && HasSteps(s[k.value])
    ensures k.Some? ==> forall j :: k.value < j < |s| ==> !HasSteps(s[j])
    ensures k.None? ==> forall j :: 0 <= j < |s| ==> !HasSteps(s[j])
  {
    if s == [] then None
    else if HasSteps(s[|s| - 1]) then Some(|s| - 1)
    else LastWithSteps(s[..|s| - 1])
  }

  /** `steps.findLast(s => s.steps > 0)?.steps ?? 0`. */
  function StepCount(s: seq<DayValue<int>>): (n: int)
    ensures n >= 0
    ensures n == 0 <==> forall j :: 0 <= j < |s| ==> !HasSteps(s[j])
    ensures n > 0 ==> exists k :: 0 <= k < |s| && s[k].value == Some(n) &&
                        forall j :: k < j < |s| ==> !HasSteps(s[j])
  {
    match LastWithSteps(s)
    case None => 0
    case Some(k) => s[k].value.value
  }

  // ---------------------------------------------------------------------
  // Per-source read-outs

  datatype DataSource = HeightSource | WeightSource | BloodPressureSource | HeartRateSource | CaloriesSource

  /** The sources, in the order the loop visits them. */
  const DataSources: seq<DataSource> :=
    [HeightSource, WeightSource, BloodPressureSource, HeartRateSource, CaloriesSource]

  function SourceId(ds: DataSource): string {
    match ds
    case HeightSource => "derived:com.google.height:com.google.android.gms:merge_height"
    case WeightSource => "derived:com.google.weight:com.google.android.gms:merge_weight"
    case BloodPressureSource => "derived:com.google.blood_pressure:com.google.android.gms:merged"
    case HeartRateSource => "derived:com.google.heart_rate.bpm:com.google.android.gms:merge_heart_rate_bpm"
    case CaloriesSource => "derived:com.google.calories.expended:com.google.android.gms:merge_calories_expended"
  }

  /** How one data source request ends. */
  datatype SourceResponse = SourceFailed | SourceNotOk | SourceBody(point: Option<seq<Point>>)

  /** The latest point of a successful answer, if it has points. */
  function LatestPoint(resp: SourceResponse): (p: Option<Point>)
    ensures p.Some? <==> resp.SourceBody? && resp.point.Some? && |resp.point.value| > 0
    ensures p.Some? ==> p.value == resp.point.value[|resp.point.value| - 1]
  {
    if resp.SourceBody? && resp.point.Some? && |resp.point.value| > 0
    then Some(resp.point.value[|resp.point.value| - 1])
    else None
  }

  /** A scalar read-out: replaced by the latest `fpVal` (times `scale`)
      only when that value is truthy. */
  function NewScalar(prev: real, resp: SourceResponse, scale: real): (r: real)
    ensures HasScalar(LatestPoint(resp)) ==> r == LatestPoint(resp).value.value[0].fpVal.value * scale
    ensures !HasScalar(LatestPoint(resp)) ==> r == prev
  {
    match LatestPoint(resp)
    case None => prev
    case Some(p) =>
      if p.value != [] && TruthyReal(p.value[0].fpVal) then p.value[0].fpVal.value * scale else prev
  }

  /** Whether a latest point carries both pressure numbers. */
  predicate HasPressure(p: Option<Point>) {
    p.Some? && |p.value.value| >= 2 && p.value.value[0].fpVal.Some? && p.value.value[1].fpVal.Some?
  }

  /** The blood pressure pair: both numbers of the latest point, or the
      previous pair when either is missing. */
  function NewPressure(prev: (real, real), resp: SourceResponse): (r: (real, real))
    ensures HasPressure(LatestPoint(resp)) ==>
      r == (LatestPoint(resp).value.value[0].fpVal.value, LatestPoint(resp).value.value[1].fpVal.value)
    ensures !HasPressure(LatestPoint(resp)) ==> r == prev
  {
    match LatestPoint(resp)
    case None => prev
    case Some(p) =>
      if |p.value| >= 2 && p.value[0].fpVal.Some? && p.value[1].fpVal.Some?
      then (p.value[0].fpVal.value, p.value[1].fpVal.value)
      else prev
  }

  /** One loop iteration: the answer of source `ds` updates its own field only. */
  function ApplySource(m: HealthMetrics, ds: DataSource, resp: SourceResponse): (r: HealthMetrics)
    ensures r.stepCount == m.stepCount
    ensures ds != HeightSource ==> r.height == m.height
    ensures ds != WeightSource ==> r.weight == m.weight
    ensures ds != BloodPressureSource ==> r.systolic == m.systolic && r.diastolic == m.diastolic
    ensures ds != HeartRateSource ==> r.heartRate == m.heartRate
    ensures ds != CaloriesSource ==> r.calories == m.calories
    ensures !resp.SourceBody? ==> r == m
  {
    match ds
    case HeightSource => m.(height := NewScalar(m.height, resp, 100.0))
    case WeightSource => m.(weight := NewScalar(m.weight, resp, 1.0))
    case BloodPressureSource =>
      var bp := NewPressure((m.systolic, m.diastolic), resp);
      m.(systolic := bp.0, diastolic := bp.1)
    case HeartRateSource => m.(heartRate := NewScalar(m.heartRate, resp, 1.0))
    case CaloriesSource => m.(calories := NewScalar(m.calories, resp, 1.0))
  }

  /** The loop over `dss`, one source after the other. */
  function ApplySources(m: HealthMetrics, dss: seq<DataSource>, respond: DataSource -> SourceResponse): HealthMetrics
  {
    if dss == [] then m
    else ApplySource(ApplySources(m, dss[..|dss| - 1], respond), dss[|dss| - 1], respond(dss[|dss| - 1]))
  }

  lemma ApplySourcesStep(m: HealthMetrics, dss: seq<DataSource>, i: nat, respond: DataSource -> SourceResponse)
    requires i < |dss|
    ensures ApplySources(m, dss[..i + 1], respond) == ApplySource(ApplySources(m, dss[..i], respond), dss[i], respond(dss[i]))
  {
    assert dss[..i + 1][..i] == dss[..i];
  }

  /** After the loop, each read-out depends on its own source's answer only,
      and the step count is untouched. */
  lemma {:induction false} SourcesIndependent(m: HealthMetrics, respond: DataSource -> SourceResponse)
    ensures var bp := NewPressure((m.systolic, m.diastolic), respond(BloodPressureSource));
      ApplySources(m, DataSources, respond) ==
      m.(height := NewScalar(m.height, respond(HeightSource), 100.0),
         weight := NewScalar(m.weight, respond(WeightSource), 1.0),
         systolic := bp.0, diastolic := bp.1,
         heartRate := NewScalar(m.heartRate, respond(HeartRateSource), 1.0),
         calories := NewScalar(m.calories, respond(CaloriesSource), 1.0))
  {
    var d := DataSources;
    assert d[..1][..0] == [] && d[..1] == [HeightSource];
    assert ApplySources(m, d[..1][..0], respond) == m;
    assert d[..2][..1] == d[..1];
    assert d[..3][..2] == d[..2];
    assert d[..4][..3] == d[..3];
    assert d[..4] == d[..|d| - 1];
    var m1 := ApplySources(m, d[..1], respond);
    assert m1 == ApplySource(m, HeightSource, respond(HeightSource));
    var m2 := ApplySources(m, d[..2], respond);
    assert m2 == ApplySource(m1, WeightSource, respond(WeightSource));
    var m3 := ApplySources(m, d[..3], respond);
    assert m3 == ApplySource(m2, BloodPressureSource, respond(BloodPressureSource));
    var m4 := ApplySources(m, d[..4], respond);
    assert m4 == ApplySource(m3, HeartRateSource, respond(HeartRateSource));
    assert ApplySources(m, d, respond) == ApplySource(m4, CaloriesSource, respond(CaloriesSource));
  }

  /** Whether a latest point's first `fpVal` is truthy. */
  predicate HasScalar(p: Option<Point>) {
    p.Some? && p.value.value != [] && TruthyReal(p.value.value[0].fpVal)
  }

  /** After the loop the height is the latest height in centimetres, weight,
      heart rate and calories are the latest readings, and the pressure
      pair is the latest two numbers, wherever those readings exist. */
  lemma {:induction false} LatestReadOuts(m: HealthMetrics, respond: DataSource -> SourceResponse)
    ensures var r := ApplySources(m, DataSources, respond);
      var h, w, b := LatestPoint(respond(HeightSource)), LatestPoint(respond(WeightSource)), LatestPoint(respond(BloodPressureSource));
      var hr, c := LatestPoint(respond(HeartRateSource)), LatestPoint(respond(CaloriesSource));
      (HasScalar(h) ==> r.height == h.value.value[0].fpVal.value * 100.0) &&
      (HasScalar(w) ==> r.weight == w.value.value[0].fpVal.value) &&
      (HasPressure(b) ==> r.systolic == b.value.value[0].fpVal.value && r.diastolic == b.value.value[1].fpVal.value) &&
      (HasScalar(hr) ==> r.heartRate == hr.value.value[0].fpVal.value) &&
      (HasScalar(c) ==> r.calories == c.value.value[0].fpVal.value)
  {
    SourcesIndependent(m, respond);
  }

  // ---------------------------------------------------------------------
  // The panel

  /** The error a failed aggregate request leaves. */
  function AggregateError(response: AggregateResponse): (e: string)
    requires !response.Body?
    ensures response.NotOk? ==> e == ReconnectMessage
    ensures e != ""
  {
    match response
    case NotOk => ReconnectMessage
    case RequestFailed(msg) => if msg != "" then msg else UnknownErrorMessage
  }

  class HealthPanel {
    var metrics: HealthMetrics
    var activity: ActivityData
    var isLoading: bool
    var error: Option<string>

    constructor ()
      ensures metrics == InitialMetrics && activity == InitialActivity && isLoading && error == None
    {
      metrics, activity, isLoading, error := InitialMetrics, InitialActivity, true, None;
    }

    /** `fetchData`: resets the read-outs, maps the buckets, then asks every
        data source in turn; a failing source only keeps its field. */
    method FetchData(response: AggregateResponse, respond: DataSource -> SourceResponse)
      modifies this
      ensures !isLoading
      ensures !response.Body? ==>
        metrics == InitialMetrics && activity == old(activity) && error == Some(AggregateError(response))
      ensures response.Body? && Activity(response.bucket).Err? ==>
        metrics == InitialMetrics && activity == old(activity) && error == Some(Activity(response.bucket).error)
      ensures response.Body? && Activity(response.bucket).Ok? ==>
        var act := Activity(response.bucket).value;
        activity == act && error == None &&
        metrics == ApplySources(InitialMetrics.(stepCount := StepCount(act.steps)), DataSources, respond)
    {
      isLoading := true;
      error := None;
      metrics := InitialMetrics;
      if !response.Body? {
        error := Some(AggregateError(response));
      } else {
        var act := Activity(response.bucket);
        if act.Err? {
          error := Some(act.error);
        } else {
          activity := act.value;
          metrics := metrics.(stepCount := StepCount(act.value.steps));
          ghost var base := metrics;
          for i := 0 to |DataSources|
            invariant metrics == ApplySources(base, DataSources[..i], respond)
            invariant activity == act.value && error == None
          {
            var ds := DataSources[i];
            ApplySourcesStep(base, DataSources, i, respond);
            metrics := ApplySource(metrics, ds, respond(ds));
          }
          assert DataSources[..|DataSources|] == DataSources;
        }
      }
      isLoading := false;
    }

    /** The fetch effect: nothing is fetched without a token. */
    method OnToken(fitToken: Option<string>, response: AggregateResponse, respond: DataSource -> SourceResponse)
      modifies this
      ensures !isLoading
      ensures !TruthyString(fitToken) ==> metrics == old(metrics) && activity == old(activity) && error == old(error)
      ensures TruthyString(fitToken) && !response.Body? ==>
        metrics == InitialMetrics && activity == old(activity) && error == Some(AggregateError(response))
      ensures TruthyString(fitToken) && response.Body? && Activity(response.bucket).Err? ==>
        metrics == InitialMetrics && activity == old(activity) && error == Some(Activity(response.bucket).error)
      ensures TruthyString(fitToken) && response.Body? && Activity(response.bucket).Ok? ==>
        var act := Activity(response.bucket).value;
        activity == act && error == None &&
        metrics == ApplySources(InitialMetrics.(stepCount := StepCount(act.steps)), DataSources, respond)
    {
      if TruthyString(fitToken) {
        FetchData(response, respond);
      } else {
        isLoading := false;
      }
    }
  }
}
