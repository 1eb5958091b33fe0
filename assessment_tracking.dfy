// The pure rules of the assessment-tracking page
// (src/app/assessment-tracking/assessment-tracking.component.ts): the date
// window of the list, the personalised recommendation keys, and the badge
// and trend-icon lookups.

module AssessmentTracking {
  import opened Common
  import opened StressAssessment
  import opened AssessmentHistory

  datatype DateRange = Week | Month | Quarter | AllTime

  /** Where the window starts: 7, 30 or 90 days before now, or the epoch. */
  function WindowStart(filter: DateRange, now: int): (r: int)
    ensures filter == AllTime ==> r == 0
    ensures filter != AllTime ==> now - r in {7 * DayMs, 30 * DayMs, 90 * DayMs}
  {
    match filter
    case Week => now - 7 * DayMs
    case Month => now - 30 * DayMs
    case Quarter => now - 90 * DayMs
    case AllTime => 0
  }

  function Timestamp(a: Record): int
  {
    a.timestamp
  }

  /** The `assessments` list: the entries inside the window, newest first. */
  function WindowedAssessments(history: seq<Record>, filter: DateRange, now: int): (r: seq<Record>)
    ensures SortedDesc(r, Timestamp)
    ensures multiset(r) == multiset(InDateRange(history, WindowStart(filter, now), now))
    ensures forall a :: a in r <==> a in history && WindowStart(filter, now) <= a.timestamp <= now
  {
    var inRange := InDateRange(history, WindowStart(filter, now), now);
    var r := SortDesc(inRange, Timestamp);
    assert forall a :: a in r <==> a in multiset(r);
    r
  }

  /** A wider window never shows fewer entries. */
  lemma WindowsNest(history: seq<Record>, now: int, a: Record)
    requires now >= 90 * DayMs
    ensures a in WindowedAssessments(history, Week, now) ==> a in WindowedAssessments(history, Month, now)
    ensures a in WindowedAssessments(history, Month, now) ==> a in WindowedAssessments(history, Quarter, now)
    ensures a in WindowedAssessments(history, Quarter, now) ==> a in WindowedAssessments(history, AllTime, now)
  {
  }

  /** Category names in `Object.entries` order. */
  const CategoryNames: seq<string> := ["work", "sleep", "physical", "emotional"]

  function CategoryValues(c: CategoryScores): seq<real>
  {
    [c.work, c.sleep, c.physical, c.emotional]
  }

  /** The name of the highest category; on a tie the later one wins (strict `>` in the reduce). */
  function HighestCategory(c: CategoryScores): (r: nat)
    ensures r < 4
    ensures forall j :: 0 <= j < 4 ==> CategoryValues(c)[j] <= CategoryValues(c)[r]
    ensures forall j :: r < j < 4 ==> CategoryValues(c)[j] < CategoryValues(c)[r]
  {
    LastMaxIndex(CategoryValues(c))
  }

  /** The trend's recommendation key: one key, none for insufficient data. */
  function TrendKey(t: Trend): (r: seq<string>)
    ensures |r| <= 1 && (r == [] <==> t == InsufficientData)
  {
    match t
    case Improving => ["tracking.recommendations.improving"]
    case Declining => ["tracking.recommendations.declining"]
    case Stable => ["tracking.recommendations.stable"]
    case InsufficientData => []
  }

  function LevelKey(l: Level): string
  {
    match l
    case High => "tracking.recommendations.highStress"
    case Moderate => "tracking.recommendations.moderateStress"
    case Low => "tracking.recommendations.lowStress"
  }

  /**
   * `generateRecommendations`: only `noData` without a latest result;
   * otherwise at most one trend key, exactly one level key, then the highest
   * category's key when its score is above 60.
   */
  function TrackingRecommendations(latest: Option<Record>, trend: Trend): (r: seq<string>)
    ensures latest.None? ==> r == ["tracking.recommendations.noData"]
    ensures latest.Some? ==>
      var c := latest.value.categoryScores;
      var k := HighestCategory(c);
      var t := if trend == InsufficientData then 0 else 1;
      |r| == t + 1 + (if CategoryValues(c)[k] > 60.0 then 1 else 0) &&
      r[t] == LevelKey(latest.value.level) &&
      (CategoryValues(c)[k] > 60.0 ==> r[t + 1] == "tracking.recommendations.category." + CategoryNames[k])
  {
    if latest.None? then ["tracking.recommendations.noData"]
    else
      var c := latest.value.categoryScores;
      var k := HighestCategory(c);
      TrendKey(trend) + [LevelKey(latest.value.level)] +
        (if CategoryValues(c)[k] > 60.0 then ["tracking.recommendations.category." + CategoryNames[k]] else [])
  }

  /** A category key appears exactly when some category score is above 60. */
  lemma CategoryKeyIffAbove60(latest: Record, trend: Trend)
    ensures |TrackingRecommendations(Some(latest), trend)| == (if trend == InsufficientData then 1 else 2) + 1 <==>
      exists j :: 0 <= j < 4 && CategoryValues(latest.categoryScores)[j] > 60.0
  {
    var c := latest.categoryScores;
    var k := HighestCategory(c);
    if exists j :: 0 <= j < 4 && CategoryValues(c)[j] > 60.0 {
      var j :| 0 <= j < 4 && CategoryValues(c)[j] > 60.0;
      assert CategoryValues(c)[j] <= CategoryValues(c)[k];
    }
  }

  /** With equal work and emotional scores at the top, the emotional key is chosen. */
  lemma TieGoesToLater(c: CategoryScores)
    requires c.work == c.emotional && c.sleep < c.work && c.physical < c.work
    ensures CategoryNames[HighestCategory(c)] == "emotional"
  {
    var k := HighestCategory(c);
    assert CategoryValues(c)[0] == CategoryValues(c)[3];
  }

  /** `getLevelBadgeClass`: the three levels, anything else falls back to secondary. */
  function LevelBadgeClass(level: string): (r: string)
    ensures r == "badge bg-secondary" <==> level !in {"low", "moderate", "high"}
  {
    if level == "low" then "badge bg-success"
    else if level == "moderate" then "badge bg-warning"
    else if level == "high" then "badge bg-danger"
    else "badge bg-secondary"
  }

  /** `getTrendIcon`: one icon per trend. */
  function TrendIcon(t: Trend): (r: string)
    ensures t == InsufficientData <==> r == "fa-solid fa-question text-muted"
  {
    match t
    case Improving => "fa-solid fa-arrow-trend-down text-success"
    case Stable => "fa-solid fa-minus text-warning"
    case Declining => "fa-solid fa-arrow-trend-up text-danger"
    case InsufficientData => "fa-solid fa-question text-muted"
  }

  /** Different trends show different icons. */
  lemma TrendIconInjective(t1: Trend, t2: Trend)
    requires TrendIcon(t1) == TrendIcon(t2)
    ensures t1 == t2
  {
  }
}
