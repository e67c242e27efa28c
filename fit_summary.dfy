/** The today summary card of src/components/dashboard/fit-summary-card.tsx:
    one aggregate request for five data types, one number per type read
    from the first bucket, and two progress rings. */
module FitSummary {
  import opened Wrappers
  import opened FitResponse

  /** The five figures of the card, in dataset order. */
  datatype SummaryField = Steps | HeartPoints | Calories | Distance | MoveMinutes

  const Fields: seq<SummaryField> := [Steps, HeartPoints, Calories, Distance, MoveMinutes]

  /** The data source each figure is requested from. */
  function SourceOf(f: SummaryField): string {
    match f
    case Steps => "derived:com.google.step_count.delta:com.google.android.gms:aggregated"
    case HeartPoints => "derived:com.google.heart.points:com.google.android.gms:aggregated"
    case Calories => "derived:com.google.calories.expended:com.google.android.gms:aggregated"
    case Distance => "derived:com.google.distance.delta:com.google.android.gms:aggregated"
    case MoveMinutes => "derived:com.google.active_minutes:com.google.android.gms:aggregated"
  }

  /** The dataset a figure is read from. */
  function DatasetIndex(f: SummaryField): (k: nat)
    ensures k < |Fields| && Fields[k] == f
  {
    match f
    case Steps => 0
    case HeartPoints => 1
    case Calories => 2
    case Distance => 3
    case MoveMinutes => 4
  }

  /** The `aggregateBy` list of the request: one entry per source, in the
      order of the source table. */
  function AggregateBy(): (r: seq<string>)
    ensures |r| == |Fields|
    ensures forall f :: r[DatasetIndex(f)] == SourceOf(f)
  {
    seq(|Fields|, i requires 0 <= i < |Fields| => SourceOf(Fields[i]))
  }

  const LoadError: string := "Could not load activity data. Please check permissions or try re-connecting."

  const HeartPointsGoal: real := 150.0
  const StepsGoal: real := 10000.0

  predicate HasPoints(bucket: Option<seq<Bucket>>, k: nat) {
    bucket.Some? && |bucket.value| > 0 && k < |bucket.value[0].dataset| &&
    |bucket.value[0].dataset[k].point| > 0
  }

  /** `getVal(k)`: the first point of dataset `k` of the first bucket,
      preferring `fpVal`, then `intVal`, then 0; reading a point whose value
      list is empty is a TypeError. */
  function GetVal(bucket: Option<seq<Bucket>>, k: nat): (r: Result<real, string>)
    ensures !HasPoints(bucket, k) ==> r == Ok(0.0)
    ensures HasPoints(bucket, k) ==>
      var v := bucket.value[0].dataset[k].point[0].value;
      && (v == [] ==> r == Err(TypeErrorMessage))
      && (v != [] && v[0].fpVal.Some? ==> r == Ok(v[0].fpVal.value))
      && (v != [] && v[0].fpVal.None? && v[0].intVal.Some? ==> r == Ok(v[0].intVal.value as real))
      && (v != [] && v[0].fpVal.None? && v[0].intVal.None? ==> r == Ok(0.0))
  {
    if !HasPoints(bucket, k) then Ok(0.0)
    else
      var v := bucket.value[0].dataset[k].point[0].value;
      if v == [] then Err(TypeErrorMessage)
      else if v[0].fpVal.Some? then Ok(v[0].fpVal.value)
      else if v[0].intVal.Some? then Ok(v[0].intVal.value as real)
      else Ok(0.0)
  }

  /** `Math.round`: the nearest integer, halves rounded up. */
  function Round(x: real): (n: int)
    ensures n as real - 0.5 <= x < n as real + 0.5
  {
    (x + 0.5).Floor
  }

  lemma RoundOfInteger(n: int)
    ensures Round(n as real) == n
  {
  }

  datatype FitData = FitData(steps: int, heartPoints: int, calories: int, distance: real, moveMinutes: int)

  /** The figure of one field as the card shows it. */
  function FieldValue(d: FitData, f: SummaryField): real {
    match f
    case Steps => d.steps as real
    case HeartPoints => d.heartPoints as real
    case Calories => d.calories as real
    case Distance => d.distance
    case MoveMinutes => d.moveMinutes as real
  }

  /** The card's data: every figure rounded, except the distance in metres. */
  function Summary(bucket: Option<seq<Bucket>>): (r: Result<FitData, string>)
    ensures r.Ok? <==> forall f :: GetVal(bucket, DatasetIndex(f)).Ok?
    ensures r.Err? ==> r.error == TypeErrorMessage
    ensures r.Ok? ==> forall f :: f != Distance ==>
      FieldValue(r.value, f) == Round(GetVal(bucket, DatasetIndex(f)).value) as real
    ensures r.Ok? ==> r.value.distance == GetVal(bucket, DatasetIndex(Distance)).value
  {
    var steps := GetVal(bucket, 0);
    var heartPoints := GetVal(bucket, 1);
    var calories := GetVal(bucket, 2);
    var distance := GetVal(bucket, 3);
    var moveMinutes := GetVal(bucket, 4);
    assert GetVal(bucket, DatasetIndex(Steps)) == steps && GetVal(bucket, DatasetIndex(HeartPoints)) == heartPoints;
    assert GetVal(bucket, DatasetIndex(Calories)) == calories && GetVal(bucket, DatasetIndex(Distance)) == distance;
    assert GetVal(bucket, DatasetIndex(MoveMinutes)) == moveMinutes;
    if steps.Err? || heartPoints.Err? || calories.Err? || distance.Err? || moveMinutes.Err?
    then Err(TypeErrorMessage)
    else Ok(FitData(Round(steps.value), Round(heartPoints.value), Round(calories.value),
                    distance.value, Round(moveMinutes.value)))
  }

  /** A response without buckets shows zeros. */
  lemma NoBucketsShowsZeros()
    ensures Summary(None) == Ok(FitData(0, 0, 0, 0.0, 0))
  {
  }

  /** `Math.min(value / goal * 100, 100)`. */
  function CappedPercent(value: real, goal: real): (p: real)
    requires goal > 0.0
    ensures p <= 100.0
    ensures p == 100.0 <==> value >= goal
    ensures value >= 0.0 ==> p >= 0.0
    ensures value < goal ==> p * goal == value * 100.0
  {
    var q := value / goal * 100.0;
    assert value >= goal <==> q >= 100.0;
    if q < 100.0 then q else 100.0
  }

  /** The ring grows with the value it shows. */
  lemma CappedPercentMonotone(a: real, b: real, goal: real)
    requires goal > 0.0 && a <= b
    ensures CappedPercent(a, goal) <= CappedPercent(b, goal)
  {
    assert a / goal <= b / goal;
  }

  /** The ring percentages; both are 0 while there is no data. */
  function StepsProgress(data: Option<FitData>): (p: real)
    ensures data.None? ==> p == 0.0
    ensures p <= 100.0
    ensures data.Some? ==> (p == 100.0 <==> data.value.steps as real >= StepsGoal)
  {
    if data.Some? then CappedPercent(data.value.steps as real, StepsGoal) else 0.0
  }

  function HeartPointsProgress(data: Option<FitData>): (p: real)
    ensures data.None? ==> p == 0.0
    ensures p <= 100.0
    ensures data.Some? ==> (p == 100.0 <==> data.value.heartPoints as real >= HeartPointsGoal)
  {
    if data.Some? then CappedPercent(data.value.heartPoints as real, HeartPointsGoal) else 0.0
  }

  class FitSummaryCard {
    var data: Option<FitData>
    var isLoading: bool
    var error: Option<string>

    constructor ()
      ensures data.None? && isLoading && error.None?
    {
      data, isLoading, error := None, true, None;
    }

    /** `fetchFitData`: any failure shows the one fixed message and keeps
        the previous data. */
    method FetchFitData(response: AggregateResponse)
      modifies this
      ensures !isLoading
      ensures response.Body? && Summary(response.bucket).Ok? ==>
        data == Some(Summary(response.bucket).value) && error.None?
      ensures !(response.Body? && Summary(response.bucket).Ok?) ==>
        data == old(data) && error == Some(LoadError)
    {
      isLoading := true;
      error := None;
      if response.Body? {
        var s := Summary(response.bucket);
        if s.Ok? {
          data := Some(s.value);
        } else {
          error := Some(LoadError);
        }
      } else {
        error := Some(LoadError);
      }
      isLoading := false;
    }
  }
}
