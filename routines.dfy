// The daily routines page (src/app/routines/routines.component.ts): eight
// routines, today's progress (the ids completed and the minutes they add up
// to) and the per-day progress records under 'mindora_routines_progress'.

module Routines {
  import opened Common

  datatype Difficulty = Easy | Medium | Hard

  /** A routine; `duration` is display text such as "5 min" and `category` one of morning, work, evening, anytime. */
  datatype Routine = Routine(id: int, titleKey: string, duration: string, difficulty: Difficulty, category: string)

  /** One day's progress; `date` is yyyy-mm-dd. */
  datatype DailyProgress = DailyProgress(date: string, completedRoutines: seq<int>, totalMinutes: int)

  const Breathing := Routine(1, "routines.list.breathing.title", "5 min", Easy, "morning")
  const Stretching := Routine(2, "routines.list.stretching.title", "10 min", Easy, "work")
  const Meditation := Routine(3, "routines.list.meditation.title", "15 min", Medium, "anytime")
  const Walking := Routine(4, "routines.list.walking.title", "20 min", Easy, "anytime")
  const VisualRest := Routine(5, "routines.list.visualRest.title", "3 min", Easy, "work")
  const Gratitude := Routine(6, "routines.list.gratitude.title", "5 min", Easy, "evening")
  const MuscleRelaxation := Routine(7, "routines.list.muscleRelaxation.title", "12 min", Medium, "evening")
  const MindfulCoffee := Routine(8, "routines.list.mindfulCoffee.title", "5 min", Easy, "work")

  /** The eight routines of the page, in their order. */
  const AllRoutines: seq<Routine> :=
    [Breathing, Stretching, Meditation, Walking, VisualRest, Gratitude, MuscleRelaxation, MindfulCoffee]

  /** `filteredRoutines`: everything for 'all', otherwise exactly the routines of the category. */
  function FilteredRoutines(category: string): (r: seq<Routine>)
    ensures category == "all" ==> r == AllRoutines
    ensures category != "all" ==> forall x :: x in r <==> x in AllRoutines && x.category == category
  {
    if category == "all" then AllRoutines else Filter(AllRoutines, (x: Routine) => x.category == category)
  }

  /** `parseInt` on a duration: its leading decimal digits. */
  function Minutes(duration: string): nat
  {
    TextToNat(LeadingDigits(duration))
  }

  /** `routines().find` by id. */
  function FindRoutine(id: int): (r: Option<Routine>)
    ensures r.Some? ==> r.value in AllRoutines && r.value.id == id
    ensures r.None? ==> forall x :: x in AllRoutines ==> x.id != id
  {
    if 1 <= id <= 8 then Some(AllRoutines[id - 1]) else None
  }

  /** The minutes a routine id adds: its duration, 0 for an unknown id. */
  function MinutesOfId(id: int): (r: nat)
    ensures !(1 <= id <= 8) ==> r == 0
  {
    match FindRoutine(id)
    case Some(r) => Minutes(r.duration)
    case None => 0
  }

  /** A routine whose duration is one digit and " min" adds that digit. */
  lemma OneDigitMinutes(id: int, c: char)
    requires 1 <= id <= 8 && IsDigit(c) && AllRoutines[id - 1].duration == [c] + " min"
    ensures MinutesOfId(id) == DigitValue(c)
  {
    var s := [c] + " min";
    assert s[1] == ' ';
    LeadingDigitsIs(s, 1);
    assert LeadingDigits(s) == [c];
    assert [c][..0] == [];
    assert TextToNat([c]) == DigitValue(c);
  }

  /** A routine whose duration is two digits and " min" adds their value. */
  lemma TwoDigitMinutes(id: int, c1: char, c2: char)
    requires 1 <= id <= 8 && IsDigit(c1) && IsDigit(c2) && AllRoutines[id - 1].duration == [c1, c2] + " min"
    ensures MinutesOfId(id) == 10 * DigitValue(c1) + DigitValue(c2)
  {
    var s := [c1, c2] + " min";
    assert s[2] == ' ';
    LeadingDigitsIs(s, 2);
    assert LeadingDigits(s) == [c1, c2];
    assert [c1, c2][..1] == [c1] && [c1][..0] == [];
    assert TextToNat([c1]) == DigitValue(c1);
    assert TextToNat([c1, c2]) == 10 * DigitValue(c1) + DigitValue(c2);
  }

  lemma BreathingMinutes()
    ensures MinutesOfId(1) == 5
  {
    OneDigitMinutes(1, '5');
  }

  lemma StretchingMinutes()
    ensures MinutesOfId(2) == 10
  {
    TwoDigitMinutes(2, '1', '0');
  }

  lemma MeditationMinutes()
    ensures MinutesOfId(3) == 15
  {
    TwoDigitMinutes(3, '1', '5');
  }

  lemma WalkingMinutes()
    ensures MinutesOfId(4) == 20
  {
    TwoDigitMinutes(4, '2', '0');
  }

  lemma VisualRestMinutes()
    ensures MinutesOfId(5) == 3
  {
    OneDigitMinutes(5, '3');
  }

  lemma GratitudeMinutes()
    ensures MinutesOfId(6) == 5
  {
    OneDigitMinutes(6, '5');
  }

  lemma MuscleRelaxationMinutes()
    ensures MinutesOfId(7) == 12
  {
    TwoDigitMinutes(7, '1', '2');
  }

  lemma MindfulCoffeeMinutes()
    ensures MinutesOfId(8) == 5
  {
    OneDigitMinutes(8, '5');
  }

  /** Every routine duration reads as its number of minutes: "5 min" -> 5, "10 min" -> 10 and so on. */
  lemma RoutineMinutes()
    ensures MinutesOfId(1) == 5 && MinutesOfId(2) == 10 && MinutesOfId(3) == 15 && MinutesOfId(4) == 20
    ensures MinutesOfId(5) == 3 && MinutesOfId(6) == 5 && MinutesOfId(7) == 12 && MinutesOfId(8) == 5
  {
    BreathingMinutes();
    StretchingMinutes();
    MeditationMinutes();
    WalkingMinutes();
    VisualRestMinutes();
    GratitudeMinutes();
    MuscleRelaxationMinutes();
    MindfulCoffeeMinutes();
  }

  /** The minutes of a list of ids. */
  function MinutesSum(ids: seq<int>): nat
  {
    if ids == [] then 0 else MinutesOfId(ids[0]) + MinutesSum(ids[1..])
  }

  lemma {:induction false} MinutesSumConcat(a: seq<int>, b: seq<int>)
    ensures MinutesSum(a + b) == MinutesSum(a) + MinutesSum(b)
  {
    if a == [] {
      assert a + b == b;
    } else {
      var rest := a[1..] + b;
      assert a + b == [a[0]] + rest;
      MinutesSumConcat(a[1..], b);
      assert MinutesSum([a[0]] + rest) == MinutesOfId(a[0]) + MinutesSum(rest) by {
        assert ([a[0]] + rest)[1..] == rest;
      }
    }
  }

  /** The first position of `id` (`indexOf`), -1 when absent. */
  function IndexOf(s: seq<int>, id: int): (i: int)
    ensures -1 <= i < |s|
    ensures i == -1 <==> id !in s
    ensures i >= 0 ==> s[i] == id && id !in s[..i]
  {
    if s == [] then -1
    else if s[0] == id then 0
    else
      var j := IndexOf(s[1..], id);
      if j == -1 then -1
      else
        assert s[..j + 1] == [s[0]] + s[1..][..j];
        j + 1
  }

  /** The progress is consistent: no id twice and the minutes match the ids. */
  predicate Consistent(p: DailyProgress)
  {
    NoDup(p.completedRoutines) && p.totalMinutes == MinutesSum(p.completedRoutines)
  }

  /** `markAsCompleted` on the progress: an absent id is added with its minutes; a present one changes nothing. */
  function Marked(p: DailyProgress, id: int): (r: DailyProgress)
    ensures id in p.completedRoutines ==> r == p
    ensures id !in p.completedRoutines ==>
      r.date == p.date && r.completedRoutines == p.completedRoutines + [id] &&
      r.totalMinutes == p.totalMinutes + MinutesOfId(id)
  {
    if id in p.completedRoutines then p
    else
      p.(completedRoutines := p.completedRoutines + [id],
         totalMinutes := p.totalMinutes + (if FindRoutine(id).Some? then Minutes(FindRoutine(id).value.duration) else 0))
  }

  /** `cancelCompletion` on the progress: the first occurrence goes and its minutes are subtracted. */
  function Cancelled(p: DailyProgress, id: int): (r: DailyProgress)
    ensures id !in p.completedRoutines ==> r == p
    ensures id in p.completedRoutines ==>
      var i := IndexOf(p.completedRoutines, id);
      r.date == p.date && r.completedRoutines == p.completedRoutines[..i] + p.completedRoutines[i + 1..] &&
      r.totalMinutes == p.totalMinutes - MinutesOfId(id)
  {
    var index := IndexOf(p.completedRoutines, id);
    if index > -1 then
      p.(completedRoutines := p.completedRoutines[..index] + p.completedRoutines[index + 1..],
         totalMinutes := p.totalMinutes - (if FindRoutine(id).Some? then Minutes(FindRoutine(id).value.duration) else 0))
    else p
  }

  /** Marking keeps the progress consistent: no duplicate ids and the running total equals the sum. */
  lemma MarkedConsistent(p: DailyProgress, id: int)
    requires Consistent(p)
    ensures Consistent(Marked(p, id))
  {
    if id !in p.completedRoutines {
      MinutesSumConcat(p.completedRoutines, [id]);
      assert [id][1..] == [];
    }
  }

  /** Dropping one position keeps a list free of duplicates. */
  lemma RemoveAtNoDup(s: seq<int>, i: int)
    requires NoDup(s) && 0 <= i < |s|
    ensures NoDup(s[..i] + s[i + 1..])
  {
    var r := s[..i] + s[i + 1..];
    forall a, b | 0 <= a < b < |r| ensures r[a] != r[b] {
      var a' := if a < i then a else a + 1;
      var b' := if b < i then b else b + 1;
      assert r[a] == s[a'] && r[b] == s[b'];
    }
  }

  /** Dropping one position takes its minutes off the sum. */
  lemma {:induction false} RemoveAtMinutes(s: seq<int>, i: int)
    requires 0 <= i < |s|
    ensures MinutesSum(s) == MinutesSum(s[..i] + s[i + 1..]) + MinutesOfId(s[i])
  {
    var before, after := s[..i], s[i + 1..];
    assert s == before + ([s[i]] + after);
    MinutesSumConcat(before, [s[i]] + after);
    assert ([s[i]] + after)[1..] == after;
    MinutesSumConcat(before, after);
  }

  /** Cancelling keeps the progress consistent. */
  lemma CancelledConsistent(p: DailyProgress, id: int)
    requires Consistent(p)
    ensures Consistent(Cancelled(p, id))
  {
    var s := p.completedRoutines;
    if id in s {
      var i := IndexOf(s, id);
      var r := Cancelled(p, id);
      assert s[i] == id && r.completedRoutines == s[..i] + s[i + 1..];
      RemoveAtNoDup(s, i);
      RemoveAtMinutes(s, i);
    }
  }

  /** Marking an id that was not completed and then cancelling it restores the progress. */
  lemma MarkThenCancel(p: DailyProgress, id: int)
    requires id !in p.completedRoutines
    ensures Cancelled(Marked(p, id), id) == p
  {
    var s := p.completedRoutines + [id];
    assert s[..|p.completedRoutines|] == p.completedRoutines;
    assert IndexOf(s, id) == |p.completedRoutines|;
    assert s[..|p.completedRoutines|] + s[|p.completedRoutines| + 1..] == p.completedRoutines;
  }

  lemma {:induction false} DistinctCount(s: seq<int>)
    requires NoDup(s)
    ensures |set x | x in s| == |s|
  {
    if s != [] {
      var init := s[..|s| - 1];
      assert NoDup(init);
      DistinctCount(init);
      assert (set x | x in s) == (set x | x in init) + {s[|s| - 1]};
      assert s[|s| - 1] !in init;
    }
  }

  const RoutineIds: set<int> := set i | 1 <= i <= 8

  lemma {:induction false} SubsetCount(a: set<int>, b: set<int>)
    requires a <= b && |a| == |b|
    ensures a == b
  {
    assert b == a + (b - a) && a * (b - a) == {};
    assert |b - a| == 0;
  }

  lemma RoutineIdsCount()
    ensures |RoutineIds| == 8
  {
    assert RoutineIds == {1, 2, 3, 4, 5, 6, 7, 8};
  }

  /** The routine at position k has id k + 1. */
  lemma PositionIds()
    ensures |AllRoutines| == 8 && forall k :: 0 <= k < 8 ==> AllRoutines[k].id == k + 1
  {
  }

  /**
   * For a duplicate-free list of routine ids, holding 8 ids (the condition
   * for the congratulations) means every routine is completed.
   */
  lemma EightMeansAll(ids: seq<int>)
    requires NoDup(ids) && forall x :: x in ids ==> x in RoutineIds
    ensures |ids| == |AllRoutines| <==> forall r :: r in AllRoutines ==> r.id in ids
  {
    DistinctCount(ids);
    RoutineIdsCount();
    PositionIds();
    var set_ := set x | x in ids;
    if |ids| == 8 {
      SubsetCount(set_, RoutineIds);
      forall r | r in AllRoutines ensures r.id in ids {
        var k :| 0 <= k < |AllRoutines| && AllRoutines[k] == r;
        assert r.id in RoutineIds;
      }
    }
    if forall r :: r in AllRoutines ==> r.id in ids {
      assert RoutineIds <= set_ by {
        forall k | k in RoutineIds ensures k in set_ {
          assert AllRoutines[k - 1] in AllRoutines;
        }
      }
      assert set_ == RoutineIds;
    }
  }

  /**
   * `completionPercentage`: round(completed / 8 * 100). It reaches 100 exactly
   * with 8 ids, and lies in 0..100 up to that.
   */
  function CompletionPercentage(p: DailyProgress): (r: int)
    ensures |p.completedRoutines| <= 8 ==> 0 <= r <= 100
    ensures r == 100 <==> |p.completedRoutines| == 8
  {
    RoundDiv(|p.completedRoutines| * 100, |AllRoutines|)
  }

  /** What `loadTodayProgress` returns: today's record if stored, else an empty one. */
  function LoadToday(store: Cell<map<string, DailyProgress>>, today: string): (r: DailyProgress)
    ensures store.Stored? && today in store.value ==> r == store.value[today]
    ensures !(store.Stored? && today in store.value) ==> r == DailyProgress(today, [], 0)
  {
    if store.Stored? && today in store.value then store.value[today] else DailyProgress(today, [], 0)
  }

  /** `saveProgress`: the parsed records (none when absent or unparsable) with this date's record replaced. */
  function SavedInto(store: Cell<map<string, DailyProgress>>, p: DailyProgress): (r: Cell<map<string, DailyProgress>>)
    ensures r.Stored? && p.date in r.value && r.value[p.date] == p
    ensures store.Stored? ==> forall d :: d != p.date ==>
      (d in r.value <==> d in store.value) && (d in store.value ==> r.value[d] == store.value[d])
    ensures !store.Stored? ==> r.value.Keys == {p.date}
  {
    var all := if store.Stored? then store.value else map[];
    Stored(all[p.date := p])
  }

  /** Saving then loading the same date gives the saved progress back. */
  lemma SaveThenLoad(store: Cell<map<string, DailyProgress>>, p: DailyProgress)
    ensures LoadToday(SavedInto(store, p), p.date) == p
  {
  }

  /** The page. */
  class RoutinesPage {
    var selectedCategory: string
    var selectedRoutine: Option<Routine>
    var showRoutineDetail: bool
    var showCongratulations: bool
    var progress: DailyProgress
    /** The key 'mindora_routines_progress'. */
    var store: Cell<map<string, DailyProgress>>

    /** `today` stands for the current yyyy-mm-dd date. */
    constructor (initial: Cell<map<string, DailyProgress>>, today: string)
      ensures progress == LoadToday(initial, today) && store == initial
      ensures selectedCategory == "all" && selectedRoutine.None? && !showRoutineDetail && !showCongratulations
    {
      selectedCategory := "all";
      selectedRoutine := None;
      showRoutineDetail := false;
      showCongratulations := false;
      progress := LoadToday(initial, today);
      store := initial;
    }

    /** `isCompleted`: a ticked routine means the percentage bar is above zero. */
    predicate IsCompleted(id: int)
      reads this
      ensures IsCompleted(id) ==> CompletionPercentage(progress) > 0
    {
      id in progress.completedRoutines
    }

    method SaveProgress(p: DailyProgress)
      modifies this`store
      ensures store == SavedInto(old(store), p)
    {
      var all: map<string, DailyProgress> := map[];
      if store.Stored? {
        all := store.value;
      }
      store := Stored(all[p.date := p]);
    }

    /**
     * `markAsCompleted`: a new id is recorded with its minutes and saved, and
     * the congratulations show once all eight are done; the detail view closes.
     */
    method MarkAsCompleted(id: int)
      modifies this`progress, this`store, this`showCongratulations, this`selectedRoutine, this`showRoutineDetail
      ensures progress == Marked(old(progress), id)
      ensures Consistent(old(progress)) ==> Consistent(progress)
      ensures id in old(progress.completedRoutines) ==> store == old(store) && showCongratulations == old(showCongratulations)
      ensures id !in old(progress.completedRoutines) ==>
        store == SavedInto(old(store), progress) &&
        showCongratulations == (old(showCongratulations) || |progress.completedRoutines| == |AllRoutines|)
      ensures selectedRoutine.None? && !showRoutineDetail
    {
      var p := progress;
      if id !in p.completedRoutines {
        p := p.(completedRoutines := p.completedRoutines + [id]);
        var routine := FindRoutine(id);
        if routine.Some? {
          var minutes := Minutes(routine.value.duration);
          p := p.(totalMinutes := p.totalMinutes + minutes);
        }
        assert p == Marked(old(progress), id);
        progress := p;
        SaveProgress(p);
        if |p.completedRoutines| == |AllRoutines| {
          showCongratulations := true;
        }
      }
      if Consistent(old(progress)) {
        MarkedConsistent(old(progress), id);
      }
      CloseRoutineDetail();
    }

    /** `cancelCompletion`: the first occurrence of the id goes with its minutes; an absent id changes nothing. */
    method CancelCompletion(id: int)
      modifies this`progress, this`store
      ensures progress == Cancelled(old(progress), id)
      ensures Consistent(old(progress)) ==> Consistent(progress)
      ensures id !in old(progress.completedRoutines) ==> store == old(store)
      ensures id in old(progress.completedRoutines) ==> store == SavedInto(old(store), progress)
    {
      var p := progress;
      var index := IndexOf(p.completedRoutines, id);
      if index > -1 {
        p := p.(completedRoutines := p.completedRoutines[..index] + p.completedRoutines[index + 1..]);
        var routine := FindRoutine(id);
        if routine.Some? {
          var minutes := Minutes(routine.value.duration);
          p := p.(totalMinutes := p.totalMinutes - minutes);
        }
        assert p == Cancelled(old(progress), id);
        progress := p;
        SaveProgress(p);
      }
      if Consistent(old(progress)) {
        CancelledConsistent(old(progress), id);
      }
    }

    method SetCategory(category: string)
      modifies this`selectedCategory
      ensures selectedCategory == category
    {
      selectedCategory := category;
    }

    method OpenRoutineDetail(routine: Routine)
      modifies this`selectedRoutine, this`showRoutineDetail
      ensures selectedRoutine == Some(routine) && showRoutineDetail
    {
      selectedRoutine := Some(routine);
      showRoutineDetail := true;
    }

    method CloseRoutineDetail()
      modifies this`selectedRoutine, this`showRoutineDetail
      ensures selectedRoutine.None? && !showRoutineDetail
    {
      showRoutineDetail := false;
      selectedRoutine := None;
    }

    /** `resetAllRoutines`: today's progress is empty, saved, and the congratulations close. */
    method ResetAllRoutines(today: string)
      modifies this`progress, this`store, this`showCongratulations
      ensures progress == DailyProgress(today, [], 0) && Consistent(progress)
      ensures store == SavedInto(old(store), progress) && !showCongratulations
    {
      var newProgress := DailyProgress(today, [], 0);
      progress := newProgress;
      SaveProgress(newProgress);
      showCongratulations := false;
    }
  }

  /** `getDifficultyColor`. */
  function DifficultyColor(difficulty: string): (r: string)
    ensures r == "#6b7280" <==> difficulty !in {"easy", "medium", "hard"}
  {
    if difficulty == "easy" then "#10b981"
    else if difficulty == "medium" then "#f59e0b"
    else if difficulty == "hard" then "#ef4444"
    else "#6b7280"
  }

  /** `getCategoryLabel`: the Spanish label, or the category itself when unknown. */
  function CategoryLabel(category: string): (r: string)
    ensures category !in {"morning", "work", "evening", "anytime"} ==> r == category
  {
    if category == "morning" then "Mañana"
    else if category == "work" then "Trabajo"
    else if category == "evening" then "Noche"
    else if category == "anytime" then "Cualquier momento"
    else category
  }
}
