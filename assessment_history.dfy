// The stress-assessment history (src/app/services/assessment-history.service.ts):
// an append-only list of results with delete, lookups, a trend over the last
// three scores, per-category averages and the reminder settings, all saved
// together under the key 'neurozen_assessments'.

module AssessmentHistory {
  import opened Common
  import opened StressAssessment

  /** The four category scores, 0..100 (fractional in general). */
  datatype CategoryScores = CategoryScores(work: real, sleep: real, physical: real, emotional: real)

  datatype ScoreCategory = WorkScore | SleepScore | PhysicalScore | EmotionalScore

  function ScoreIn(c: CategoryScores, which: ScoreCategory): real
  {
    match which
    case WorkScore => c.work
    case SleepScore => c.sleep
    case PhysicalScore => c.physical
    case EmotionalScore => c.emotional
  }

  /** A stored result; `timestamp` is in milliseconds. */
  datatype Record = Record(id: string, score: int, level: Level, recommendations: seq<string>,
                           timestamp: int, categoryScores: CategoryScores, answers: map<string, int>)

  datatype Frequency = Weekly | Biweekly | Monthly | Custom

  /** The reminder settings; the optional fields are absent when not set. */
  datatype ReminderSettings = ReminderSettings(enabled: bool, frequency: Frequency, customDays: Option<int>,
                                               lastReminder: Option<int>, nextReminder: Option<int>)

  const DefaultSettings: ReminderSettings := ReminderSettings(false, Weekly, None, None, None)

  /** A `Partial<ReminderSettings>`: `None` is a key not supplied; a supplied optional key may carry `undefined`. */
  datatype SettingsPatch = SettingsPatch(enabled: Option<bool>, frequency: Option<Frequency>,
                                         customDays: Option<Option<int>>, lastReminder: Option<Option<int>>,
                                         nextReminder: Option<Option<int>>)

  /** The value under 'neurozen_assessments'; either part may be missing from stored content. */
  datatype StoredData = StoredData(assessments: Option<seq<Record>>, reminderSettings: Option<ReminderSettings>)

  const DayMs: int := 24 * 60 * 60 * 1000

  // ---------------------------------------------------------------------
  // Lookups

  /** `getAssessmentsByDateRange`: the entries with start <= timestamp <= end, in order. */
  function InDateRange(history: seq<Record>, start: int, end: int): (r: seq<Record>)
    ensures forall a :: a in r <==> a in history && start <= a.timestamp <= end
  {
    Filter(history, (a: Record) => start <= a.timestamp <= end)
  }

  /** Filtering by date is done entry by entry, so the result keeps the history's order. */
  lemma InDateRangeAppend(history: seq<Record>, a: Record, start: int, end: int)
    ensures InDateRange(history + [a], start, end) ==
      InDateRange(history, start, end) + (if start <= a.timestamp <= end then [a] else [])
  {
    FilterAppend(history, [a], (x: Record) => start <= x.timestamp <= end);
    assert [a][..0] == [];
  }

  /** A range that contains every timestamp gives back the whole history. */
  lemma InDateRangeAll(history: seq<Record>, start: int, end: int)
    requires forall a :: a in history ==> start <= a.timestamp <= end
    ensures InDateRange(history, start, end) == history
  {
    FilterAll(history, (a: Record) => start <= a.timestamp <= end);
  }

  /** `getLatestAssessment`: the last entry in insertion order. */
  function Latest(history: seq<Record>): (r: Option<Record>)
    ensures r.None? <==> history == []
    ensures r.Some? ==> r.value == history[|history| - 1]
  {
    if |history| == 0 then None else Some(history[|history| - 1])
  }

  /** `getAssessmentById`: the first entry with the id. */
  function FindById(history: seq<Record>, id: string): (r: Option<Record>)
    ensures r.None? <==> forall a :: a in history ==> a.id != id
    ensures r.Some? ==> r.value in history && r.value.id == id
    ensures r.Some? ==>
      exists i :: 0 <= i < |history| && history[i] == r.value &&
        forall j :: 0 <= j < i ==> history[j].id != id
  {
    if history == [] then None
    else if history[0].id == id then Some(history[0])
    else FindById(history[1..], id)
  }

  /** `getDaysSinceLastAssessment`: whole days, rounded up, between now and the latest entry. */
  function DaysSinceLast(history: seq<Record>, now: int): (r: Option<int>)
    ensures r.None? <==> history == []
    ensures r.Some? ==>
      var diff := if now >= Latest(history).value.timestamp then now - Latest(history).value.timestamp
                  else Latest(history).value.timestamp - now;
      (r.value - 1) * DayMs < diff <= r.value * DayMs
  {
    match Latest(history)
    case None => None
    case Some(latest) =>
      var diff := if now >= latest.timestamp then now - latest.timestamp else latest.timestamp - now;
      DivBounds(diff + DayMs - 1, DayMs);
      Some((diff + DayMs - 1) / DayMs)
  }

  // ---------------------------------------------------------------------
  // Changes to the list

  /** `addAssessment` on the list: the result with a new id and time goes at the end. */
  function Added(history: seq<Record>, a: Record, id: string, now: int): (r: seq<Record>)
    ensures |r| == |history| + 1 && r[..|history|] == history
    ensures r[|history|] == a.(id := id, timestamp := now)
  {
    history + [a.(id := id, timestamp := now)]
  }

  /** `deleteAssessment` on the list: every entry with the id goes, the others stay in order. */
  function Deleted(history: seq<Record>, id: string): (r: seq<Record>)
    ensures forall a :: a in r <==> a in history && a.id != id
  {
    Filter(history, (a: Record) => a.id != id)
  }

  /**
   * Deleting distributes over concatenation, and one entry stays exactly when
   * its id differs: together these say the survivors keep their order and
   * their number of occurrences.
   */
  lemma DeletedAppend(a: seq<Record>, b: seq<Record>, id: string)
    ensures Deleted(a + b, id) == Deleted(a, id) + Deleted(b, id)
  {
    FilterAppend(a, b, (x: Record) => x.id != id);
  }

  lemma DeletedOne(x: Record, id: string)
    ensures Deleted([x], id) == if x.id == id then [] else [x]
  {
    assert [x][1..] == [];
  }

  /** After an add, the new entry is the latest and can be found by its id when the id was fresh. */
  lemma AddedIsLatest(history: seq<Record>, a: Record, id: string, now: int)
    requires forall x :: x in history ==> x.id != id
    ensures Latest(Added(history, a, id, now)) == Some(a.(id := id, timestamp := now))
    ensures FindById(Added(history, a, id, now), id) == Some(a.(id := id, timestamp := now))
  {
    var h := Added(history, a, id, now);
    assert h[|h| - 1] == a.(id := id, timestamp := now);
  }

  /** Deleting a freshly added entry restores the history, when no entry of it had that id. */
  lemma DeleteUndoesAdd(history: seq<Record>, a: Record, id: string, now: int)
    requires forall x :: x in history ==> x.id != id
    ensures Deleted(Added(history, a, id, now), id) == history
  {
    var p := (x: Record) => x.id != id;
    FilterAppend(history, [a.(id := id, timestamp := now)], p);
    FilterAll(history, p);
    assert [a.(id := id, timestamp := now)][..0] == [];
  }

  /** Deleting twice is deleting once. */
  lemma DeleteIdempotent(history: seq<Record>, id: string)
    ensures Deleted(Deleted(history, id), id) == Deleted(history, id)
  {
    FilterAll(Deleted(history, id), (a: Record) => a.id != id);
  }

  // ---------------------------------------------------------------------
  // Trend

  datatype Trend = Improving | Stable | Declining | InsufficientData

  /** The scores of the last three entries (all of them when there are fewer). */
  function RecentScores(history: seq<Record>): (r: seq<int>)
    ensures |r| == if |history| < 3 then |history| else 3
  {
    var start := if |history| >= 3 then |history| - 3 else 0;
    seq(|history| - start, i requires 0 <= i < |history| - start => history[start + i].score)
  }

  /**
   * The trend: below two entries there is none; otherwise the average change
   * over the recent scores, which is (last - first) / (n - 1), decides:
   * below -5 improving, above 5 declining, else stable.
   */
  function TrendOf(history: seq<Record>): (r: Trend)
    ensures r == InsufficientData <==> |history| < 2
  {
    if |history| < 2 then InsufficientData
    else
      var s := RecentScores(history);
      var avg := (s[|s| - 1] - s[0]) as real / (|s| - 1) as real;
      if avg < -5.0 then Improving else if avg > 5.0 then Declining else Stable
  }

  /** Only the last three entries matter. */
  lemma TrendOnlyRecent(older: seq<Record>, recent: seq<Record>)
    requires |recent| >= 3
    ensures TrendOf(older + recent) == TrendOf(recent)
  {
    var h := older + recent;
    assert RecentScores(h) == RecentScores(recent) by {
      forall i | 0 <= i < 3 ensures RecentScores(h)[i] == RecentScores(recent)[i] {
        assert h[|h| - 3 + i] == recent[|recent| - 3 + i];
      }
    }
  }

  /** With two entries the trend is the sign of the change beyond 5 points. */
  lemma TrendOfTwo(a: Record, b: Record)
    ensures TrendOf([a, b]) == (if b.score - a.score < -5 then Improving
                                else if b.score - a.score > 5 then Declining else Stable)
  {
    var s := RecentScores([a, b]);
    assert s[0] == a.score && s[1] == b.score;
  }

  // ---------------------------------------------------------------------
  // Category averages

  datatype Averages = Averages(work: int, sleep: int, physical: int, emotional: int)

  /** The sum of one category over the entries. */
  function CategorySum(history: seq<Record>, which: ScoreCategory): real
  {
    if history == [] then 0.0
    else CategorySum(history[..|history| - 1], which) + ScoreIn(history[|history| - 1].categoryScores, which)
  }

  /** The rounded mean of one category; 0 for an empty history. */
  function CategoryMean(history: seq<Record>, which: ScoreCategory): int
  {
    if |history| == 0 then 0 else RoundReal(CategorySum(history, which) / |history| as real)
  }

  /** `getCategoryAverages` as a value. */
  function AveragesOf(history: seq<Record>): Averages
  {
    Averages(CategoryMean(history, WorkScore), CategoryMean(history, SleepScore),
             CategoryMean(history, PhysicalScore), CategoryMean(history, EmotionalScore))
  }

  predicate ScoresInRange(history: seq<Record>)
  {
    forall i, which :: 0 <= i < |history| ==> 0.0 <= ScoreIn(history[i].categoryScores, which) <= 100.0
  }

  lemma {:induction false} CategorySumBounds(history: seq<Record>, which: ScoreCategory)
    requires ScoresInRange(history)
    ensures 0.0 <= CategorySum(history, which) <= 100.0 * |history| as real
  {
    if history != [] {
      var init := history[..|history| - 1];
      assert ScoresInRange(init) by {
        forall i, w | 0 <= i < |init| ensures 0.0 <= ScoreIn(init[i].categoryScores, w) <= 100.0 {
          assert init[i] == history[i];
        }
      }
      CategorySumBounds(init, which);
      assert 0.0 <= ScoreIn(history[|history| - 1].categoryScores, which) <= 100.0;
    }
  }

  /** With every category score in 0..100, every average is in 0..100. */
  lemma AveragesInRange(history: seq<Record>, which: ScoreCategory)
    requires ScoresInRange(history)
    ensures 0 <= CategoryMean(history, which) <= 100
  {
    if |history| > 0 {
      CategorySumBounds(history, which);
      var n := |history| as real;
      var s := CategorySum(history, which);
      assert s / n <= 100.0 by {
        assert s <= 100.0 * n;
        assert s / n * n == s;
      }
    }
  }

  /** The mean of one entry is that entry's rounded score. */
  lemma SingleEntryAverages(a: Record)
    ensures AveragesOf([a]) == Averages(RoundReal(a.categoryScores.work), RoundReal(a.categoryScores.sleep),
                                        RoundReal(a.categoryScores.physical), RoundReal(a.categoryScores.emotional))
  {
    assert [a][..0] == [];
    forall w ensures CategorySum([a], w) / 1.0 == ScoreIn(a.categoryScores, w) {
      assert CategorySum([a], w) == 0.0 + ScoreIn(a.categoryScores, w);
    }
  }

  // ---------------------------------------------------------------------
  // Reminders

  /** `updateReminderSettings` on the value: supplied keys override, the rest are kept. */
  function Merge(current: ReminderSettings, patch: SettingsPatch): (r: ReminderSettings)
    ensures r.enabled == patch.enabled.GetOr(current.enabled)
    ensures r.frequency == patch.frequency.GetOr(current.frequency)
    ensures r.customDays == patch.customDays.GetOr(current.customDays)
    ensures r.lastReminder == patch.lastReminder.GetOr(current.lastReminder)
    ensures r.nextReminder == patch.nextReminder.GetOr(current.nextReminder)
  {
    ReminderSettings(
      if patch.enabled.Some? then patch.enabled.value else current.enabled,
      if patch.frequency.Some? then patch.frequency.value else current.frequency,
      if patch.customDays.Some? then patch.customDays.value else current.customDays,
      if patch.lastReminder.Some? then patch.lastReminder.value else current.lastReminder,
      if patch.nextReminder.Some? then patch.nextReminder.value else current.nextReminder)
  }

  /** Applying the same patch twice is applying it once, and the empty patch changes nothing. */
  lemma MergeLaws(current: ReminderSettings, patch: SettingsPatch)
    ensures Merge(Merge(current, patch), patch) == Merge(current, patch)
    ensures Merge(current, SettingsPatch(None, None, None, None, None)) == current
  {
  }

  /** Days to the next reminder: 7, 14, 30, or the custom count with 7 for absent or 0. */
  function DaysToAdd(settings: ReminderSettings): (r: int)
    ensures settings.frequency == Custom && settings.customDays.Some? && settings.customDays.value != 0 ==>
      r == settings.customDays.value
    ensures !(settings.frequency == Custom && settings.customDays.Some? && settings.customDays.value != 0) ==>
      r in {7, 14, 30}
  {
    match settings.frequency
    case Weekly => 7
    case Biweekly => 14
    case Monthly => 30
    case Custom => if settings.customDays.Some? && settings.customDays.value != 0 then settings.customDays.value else 7
  }

  /** The frequency table of `calculateNextReminder`, case by case. */
  lemma DaysToAddTable(settings: ReminderSettings)
    ensures settings.frequency == Weekly ==> DaysToAdd(settings) == 7
    ensures settings.frequency == Biweekly ==> DaysToAdd(settings) == 14
    ensures settings.frequency == Monthly ==> DaysToAdd(settings) == 30
    ensures settings.frequency == Custom && settings.customDays.Some? && settings.customDays.value != 0 ==>
      DaysToAdd(settings) == settings.customDays.value
    ensures settings.frequency == Custom && (settings.customDays.None? || settings.customDays.value == 0) ==>
      DaysToAdd(settings) == 7
  {
  }

  /** `calculateNextReminder`: none when disabled, otherwise that many days after now. */
  function NextReminder(settings: ReminderSettings, now: int): (r: Option<int>)
    ensures r.None? <==> !settings.enabled
    ensures settings.enabled ==> r == Some(now + DaysToAdd(settings) * DayMs)
    ensures r.Some? && settings.frequency != Custom ==> r.value - now in {7 * DayMs, 14 * DayMs, 30 * DayMs}
    ensures r.Some? && settings.frequency == Custom ==>
      r.value - now == (if settings.customDays.Some? && settings.customDays.value != 0 then settings.customDays.value else 7) * DayMs
  {
    if !settings.enabled then None else Some(now + DaysToAdd(settings) * DayMs)
  }

  // ---------------------------------------------------------------------
  // Storage and mock data

  /** What `loadFromLocalStorage` keeps: each part that is present in parsable content. */
  function LoadedHistory(c: Cell<StoredData>, fallback: seq<Record>): (r: seq<Record>)
    ensures c.Stored? && c.value.assessments.Some? ==> r == c.value.assessments.value
    ensures !(c.Stored? && c.value.assessments.Some?) ==> r == fallback
  {
    if c.Stored? && c.value.assessments.Some? then c.value.assessments.value else fallback
  }

  function LoadedSettings(c: Cell<StoredData>, fallback: ReminderSettings): (r: ReminderSettings)
    ensures c.Stored? && c.value.reminderSettings.Some? ==> r == c.value.reminderSettings.value
    ensures !(c.Stored? && c.value.reminderSettings.Some?) ==> r == fallback
  {
    if c.Stored? && c.value.reminderSettings.Some? then c.value.reminderSettings.value else fallback
  }

  /** The five sample results, 30, 23, 16, 9 and 2 days before `now`, scores falling from 65 to 38. */
  function MockAssessments(ids: seq<string>, now: int): (r: seq<Record>)
    requires |ids| == 5
    ensures |r| == 5
  {
    [Record(ids[0], 65, Moderate,
            ["modals.stressAssessment.recommendations.moderate_1", "modals.stressAssessment.recommendations.moderate_2"],
            now - 30 * DayMs, CategoryScores(70.0, 60.0, 65.0, 65.0), map[]),
     Record(ids[1], 58, Moderate,
            ["modals.stressAssessment.recommendations.moderate_1", "modals.stressAssessment.recommendations.moderate_3"],
            now - 23 * DayMs, CategoryScores(65.0, 55.0, 60.0, 55.0), map[]),
     Record(ids[2], 52, Moderate,
            ["modals.stressAssessment.recommendations.moderate_2", "modals.stressAssessment.recommendations.moderate_4"],
            now - 16 * DayMs, CategoryScores(60.0, 50.0, 55.0, 50.0), map[]),
     Record(ids[3], 45, Moderate,
            ["modals.stressAssessment.recommendations.moderate_1", "modals.stressAssessment.recommendations.moderate_4"],
            now - 9 * DayMs, CategoryScores(50.0, 45.0, 48.0, 42.0), map[]),
     Record(ids[4], 38, Moderate,
            ["modals.stressAssessment.recommendations.low_1", "modals.stressAssessment.recommendations.low_2"],
            now - 2 * DayMs, CategoryScores(42.0, 38.0, 40.0, 35.0), map[])]
  }

  /** The sample data reads as improving: the last three scores fall by 14 points. */
  lemma MockTrendImproving(ids: seq<string>, now: int)
    requires |ids| == 5
    ensures TrendOf(MockAssessments(ids, now)) == Improving
  {
    var s := RecentScores(MockAssessments(ids, now));
    assert s[0] == 52 && s[2] == 38;
  }

  /** The service: the history and settings it holds, and the storage key. */
  class AssessmentHistoryService {
    var history: seq<Record>
    var settings: ReminderSettings
    /** The key 'neurozen_assessments'. */
    var store: Cell<StoredData>

    /**
     * Load what storage holds, then add the sample data when the history is
     * still empty; `ids` stands for the five generated ids.
     */
    constructor (initial: Cell<StoredData>, ids: seq<string>, now: int)
      requires |ids| == 5
      ensures settings == LoadedSettings(initial, DefaultSettings)
      ensures |LoadedHistory(initial, [])| > 0 ==> history == LoadedHistory(initial, []) && store == initial
      ensures |LoadedHistory(initial, [])| == 0 ==>
        history == MockAssessments(ids, now) && store == Stored(StoredData(Some(history), Some(settings)))
    {
      history := LoadedHistory(initial, []);
      settings := LoadedSettings(initial, DefaultSettings);
      store := initial;
      new;
      GenerateMockData(ids, now);
    }

    /** `saveToLocalStorage`: the history and the settings together. */
    method Save()
      modifies this`store
      ensures store == Stored(StoredData(Some(history), Some(settings)))
    {
      store := Stored(StoredData(Some(history), Some(settings)));
    }

    /** `addAssessment`: `id` and `now` stand for the generated id and the current time. */
    method AddAssessment(a: Record, id: string, now: int)
      modifies this`history, this`store
      ensures history == Added(old(history), a, id, now)
      ensures store == Stored(StoredData(Some(history), Some(settings)))
    {
      var newAssessment := a.(id := id, timestamp := now);
      history := history + [newAssessment];
      Save();
    }

    /** `deleteAssessment`. */
    method DeleteAssessment(id: string)
      modifies this`history, this`store
      ensures history == Deleted(old(history), id)
      ensures store == Stored(StoredData(Some(history), Some(settings)))
    {
      history := Deleted(history, id);
      Save();
    }

    /** `getTrend`: accumulates the consecutive changes of the recent scores. */
    method GetTrend() returns (t: Trend)
      ensures t == TrendOf(history)
    {
      var assessments := history;
      if |assessments| < 2 {
        return InsufficientData;
      }
      var scores := RecentScores(assessments);
      var totalChange := 0;
      var i := 1;
      while i < |scores|
        invariant 1 <= i <= |scores|
        invariant totalChange == scores[i - 1] - scores[0]
      {
        totalChange := totalChange + (scores[i] - scores[i - 1]);
        i := i + 1;
      }
      var avgChange := totalChange as real / (|scores| - 1) as real;
      if avgChange < -5.0 {
        return Improving;
      }
      if avgChange > 5.0 {
        return Declining;
      }
      return Stable;
    }

    /** `getCategoryAverages`: one pass summing the four categories, then rounded means. */
    method GetCategoryAverages() returns (r: Averages)
      ensures r == AveragesOf(history)
    {
      var assessments := history;
      if |assessments| == 0 {
        return Averages(0, 0, 0, 0);
      }
      var work, sleep, physical, emotional := 0.0, 0.0, 0.0, 0.0;
      var i := 0;
      while i < |assessments|
        invariant 0 <= i <= |assessments|
        invariant work == CategorySum(assessments[..i], WorkScore)
        invariant sleep == CategorySum(assessments[..i], SleepScore)
        invariant physical == CategorySum(assessments[..i], PhysicalScore)
        invariant emotional == CategorySum(assessments[..i], EmotionalScore)
      {
        var c := assessments[i].categoryScores;
        assert assessments[..i + 1][..i] == assessments[..i];
        work := work + c.work;
        sleep := sleep + c.sleep;
        physical := physical + c.physical;
        emotional := emotional + c.emotional;
        i := i + 1;
      }
      assert assessments[..i] == assessments;
      var count := |assessments| as real;
      r := Averages(RoundReal(work / count), RoundReal(sleep / count),
                    RoundReal(physical / count), RoundReal(emotional / count));
    }

    /** `updateReminderSettings`. */
    method UpdateReminderSettings(patch: SettingsPatch)
      modifies this`settings, this`store
      ensures settings == Merge(old(settings), patch)
      ensures store == Stored(StoredData(Some(history), Some(settings)))
    {
      settings := Merge(settings, patch);
      Save();
    }

    /** `generateMockData`: only an empty history is filled. */
    method GenerateMockData(ids: seq<string>, now: int)
      requires |ids| == 5
      modifies this`history, this`store
      ensures |old(history)| > 0 ==> history == old(history) && store == old(store)
      ensures |old(history)| == 0 ==>
        history == MockAssessments(ids, now) && store == Stored(StoredData(Some(history), Some(settings)))
    {
      if |history| > 0 {
        return;
      }
      history := MockAssessments(ids, now);
      Save();
    }

    /** `clearAllData`: empty history, default settings, key removed. */
    method ClearAllData()
      modifies this`history, this`settings, this`store
      ensures history == [] && settings == DefaultSettings && store == Absent
    {
      history := [];
      settings := DefaultSettings;
      store := Absent;
    }
  }
}
