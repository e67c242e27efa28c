/** The shape of a Google Fit aggregate response, as the dashboard cards
    read it: buckets, one dataset per requested data type, points, and
    typed values. Times are day numbers; day 0 is a Sunday. */
module FitResponse {
  import opened Wrappers

  /** A typed value; either number may be missing. */
  datatype Value = Value(intVal: Option<int>, fpVal: Option<real>)
  datatype Point = Point(value: seq<Value>)
  datatype Dataset = Dataset(point: seq<Point>)
  /** A bucket, with the day its start time falls on. */
  datatype Bucket = Bucket(startDay: int, dataset: seq<Dataset>)

  /** How an aggregate request ends: the request throws, the server answers
      with a non-OK status, or a body arrives (whose `bucket` list may be
      missing). */
  datatype AggregateResponse =
    | RequestFailed(message: string)
    | NotOk
    | Body(bucket: Option<seq<Bucket>>)

  /** The message of the TypeError JavaScript raises when a missing array
      entry is read through. */
  const TypeErrorMessage: string := "Cannot read properties of undefined"

  const WeekDays: seq<string> := ["Sun", "Mon", "Tue", "Wed", "Thu", "Fri", "Sat"]

  /** The short weekday name of a day (`getDay`, `format(date, 'E')`). */
  function WeekdayName(day: int): (name: string)
    ensures name in WeekDays
  {
    WeekDays[day % 7]
  }

  /** `dataset[k].point` of a bucket, or the TypeError when there is no
      k-th dataset. */
  function PointsOf(b: Bucket, k: nat): (r: Result<seq<Point>, string>)
    ensures r.Ok? <==> k < |b.dataset|
    ensures r.Ok? ==> r.value == b.dataset[k].point
    ensures r.Err? ==> r.error == TypeErrorMessage
  {
    if k < |b.dataset| then Ok(b.dataset[k].point) else Err(TypeErrorMessage)
  }

  /** `points.length > 0 ? points[0].value[0].intVal : 0`. */
  function FirstIntOrZero(points: seq<Point>): (r: Result<Option<int>, string>)
    ensures points == [] ==> r == Ok(Some(0))
    ensures points != [] && points[0].value != [] ==> r == Ok(points[0].value[0].intVal)
    ensures points != [] && points[0].value == [] ==> r == Err(TypeErrorMessage)
  {
    if points == [] then Ok(Some(0))
    else if points[0].value == [] then Err(TypeErrorMessage)
    else Ok(points[0].value[0].intVal)
  }

  /** `points.length > 0 ? points[0].value[0].fpVal : 0`. */
  function FirstFpOrZero(points: seq<Point>): (r: Result<Option<real>, string>)
    ensures points == [] ==> r == Ok(Some(0.0))
    ensures points != [] && points[0].value != [] ==> r == Ok(points[0].value[0].fpVal)
    ensures points != [] && points[0].value == [] ==> r == Err(TypeErrorMessage)
  {
    if points == [] then Ok(Some(0.0))
    else if points[0].value == [] then Err(TypeErrorMessage)
    else Ok(points[0].value[0].fpVal)
  }
}
