/** The weekly step chart of src/components/dashboard/step-stats-dialog.tsx:
    seven daily entries ending today, each taken from the bucket that starts
    on its day. */
module StepStats {
  import opened Wrappers
  import opened FitResponse

  /** One bar: its date (a day number), its step count (None where the
      point has no `intVal`) and its label `day`. */
  datatype DailySteps = DailySteps(date: int, steps: Option<int>, day: string)

  const LoadError: string := "Could not load weekly step data."

  /** The position of the first bucket that starts on `day`, as
      `Array.find` picks it. */
  function BucketIndex(buckets: seq<Bucket>, day: int): (k: Option<nat>)
    ensures k.Some? ==> k.value < |buckets| && buckets[k.value].startDay == day
    ensures k.Some? ==> forall j :: 0 <= j < k.value ==> buckets[j].startDay != day
    ensures k.None? ==> forall j :: 0 <= j < |buckets| ==> buckets[j].startDay != day
  {
    if buckets == [] then None
    else if buckets[0].startDay == day then Some(0)
    else match BucketIndex(buckets[1..], day)
      case None => None
      case Some(j) => Some(j + 1)
  }

  function BucketOn(buckets: seq<Bucket>, day: int): (r: Option<Bucket>)
    ensures r.Some? ==> r.value in buckets && r.value.startDay == day
    ensures r.None? <==> forall j :: 0 <= j < |buckets| ==> buckets[j].startDay != day
  {
    match BucketIndex(buckets, day)
    case None => None
    case Some(k) => Some(buckets[k])
  }

  /** The label of entry `i` of the week. */
  function DayLabel(today: int, i: nat): (dayLabel: string)
    requires i < 7
    ensures i == 6 ==> dayLabel == "Today"
    ensures i == 5 ==> dayLabel == "Yest"
    ensures i < 5 ==> dayLabel == WeekdayName(today - (6 - i))
  {
    var day := today - (6 - i);
    if day == today then "Today"
    else if day == today - 1 then "Yest"
    else WeekdayName(day)
  }

  /** A bucket the step read trips over: it has no dataset, or its first
      point has no value. */
  predicate Unreadable(b: Option<Bucket>) {
    b.Some? && (b.value.dataset == [] ||
                (b.value.dataset[0].point != [] && b.value.dataset[0].point[0].value == []))
  }

  /** The steps of a day: 0 without a bucket or without points, else the
      first point's `intVal`; a bucket without a dataset is a TypeError. */
  function StepsOn(buckets: seq<Bucket>, day: int): (r: Result<Option<int>, string>)
    ensures BucketOn(buckets, day).None? ==> r == Ok(Some(0))
    ensures r.Err? <==> Unreadable(BucketOn(buckets, day))
    ensures BucketOn(buckets, day).Some? && !Unreadable(BucketOn(buckets, day)) ==>
      var ds := BucketOn(buckets, day).value.dataset;
      r == Ok(if ds[0].point == [] then Some(0) else ds[0].point[0].value[0].intVal)
  {
    match BucketOn(buckets, day)
    case None => Ok(Some(0))
    case Some(b) =>
      match PointsOf(b, 0)
      case Err(e) => Err(e)
      case Ok(points) =>
        if points == [] then Ok(Some(0)) else FirstIntOrZero(points)
  }

  /** Entry `i` of the week ending `today`. */
  function Entry(today: int, buckets: seq<Bucket>, i: nat): Result<DailySteps, string>
    requires i < 7
  {
    var day := today - (6 - i);
    match StepsOn(buckets, day)
    case Err(e) => Err(e)
    case Ok(steps) => Ok(DailySteps(day, steps, DayLabel(today, i)))
  }

  /** The first `n` entries of the week, or the first failure among them. */
  function Entries(today: int, buckets: seq<Bucket>, n: nat): (r: Result<seq<DailySteps>, string>)
    requires n <= 7
    ensures r.Ok? ==> |r.value| == n
    ensures r.Ok? <==> forall i :: 0 <= i < n ==> Entry(today, buckets, i).Ok?
    ensures r.Ok? ==> forall i :: 0 <= i < n ==> Entry(today, buckets, i) == Ok(r.value[i])
  {
    if n == 0 then Ok([])
    else
      match Entries(today, buckets, n - 1)
      case Err(e) => Err(e)
      case Ok(prefix) =>
        match Entry(today, buckets, n - 1)
        case Err(e) => Err(e)
        case Ok(last) => Ok(prefix + [last])
  }

  /** `weeklyData`, built from the response's bucket list. */
  function WeeklyData(today: int, bucket: Option<seq<Bucket>>): (r: Result<seq<DailySteps>, string>)
    ensures bucket.None? ==> r.Err?
    ensures r.Ok? ==> |r.value| == 7
    ensures r.Ok? ==> forall i :: 0 <= i < 7 ==> r.value[i].date == today - 6 + i
    ensures r.Ok? ==> r.value[6].date == today && r.value[6].day == "Today" && r.value[5].day == "Yest"
    ensures r.Ok? ==> forall i :: 0 <= i < 7 ==> StepsOn(bucket.value, today - 6 + i) == Ok(r.value[i].steps)
    ensures r.Ok? ==> forall i, j :: 0 <= i < j < 7 ==> r.value[i].date < r.value[j].date
  {
    match bucket
    case None => Err(TypeErrorMessage)
    case Some(bs) => Entries(today, bs, 7)
  }

  /** Day `i` of the week has an unreadable bucket. */
  predicate DayUnreadable(today: int, bs: seq<Bucket>, i: int) {
    Unreadable(BucketOn(bs, today - 6 + i))
  }

  /** The week fails exactly when one of its days has an unreadable bucket. */
  lemma WeekFailsIffDayUnreadable(today: int, bs: seq<Bucket>)
    ensures WeeklyData(today, Some(bs)).Err? <==> exists i :: 0 <= i < 7 && DayUnreadable(today, bs, i)
  {
    if WeeklyData(today, Some(bs)).Err? {
      var i :| 0 <= i < 7 && Entry(today, bs, i).Err?;
      assert today - (6 - i) == today - 6 + i;
      assert StepsOn(bs, today - 6 + i).Err?;
      assert DayUnreadable(today, bs, i);
    } else {
      forall i | 0 <= i < 7 ensures !DayUnreadable(today, bs, i) {
        assert Entry(today, bs, i).Ok?;
        assert today - (6 - i) == today - 6 + i;
      }
    }
  }

  /** The dialog's state. */
  class StepStatsDialog {
    var data: seq<DailySteps>
    var isLoading: bool
    var error: Option<string>

    constructor ()
      ensures data == [] && isLoading && error == None
    {
      data, isLoading, error := [], true, None;
    }

    /** `fetchWeeklySteps`: on any failure the old data stays and the fixed
        error is set; loading always ends. */
    method FetchWeeklySteps(today: int, response: AggregateResponse)
      modifies this
      ensures !isLoading
      ensures response.Body? && WeeklyData(today, response.bucket).Ok? ==>
        data == WeeklyData(today, response.bucket).value && error == None
      ensures !(response.Body? && WeeklyData(today, response.bucket).Ok?) ==>
        data == old(data) && error == Some(LoadError)
    {
      isLoading := true;
      error := None;
      if response.Body? {
        var weekly := WeeklyData(today, response.bucket);
        if weekly.Ok? {
          data := weekly.value;
        } else {
          error := Some(LoadError);
        }
      } else {
        error := Some(LoadError);
      }
      isLoading := false;
    }
  }
}
