// The wellness-tip modal
// (src/app/home/modals/wellness-tip-modal/wellness-tip-modal.component.ts):
// a tip is a list of steps, each with a duration in seconds; timed tips count
// each step down once per second, checklist tips are ticked off by hand.

module WellnessTip {
  import opened Common

  datatype Category = Breathing | Stretching | Mindfulness | Hydration | Posture

  datatype ExerciseKind = BreathingKind | StretchingKind | TimerKind | ChecklistKind

  datatype Step = Step(instruction: string, duration: int)

  /** A tip and its exercise; `duration` is the exercise's declared length in seconds. */
  datatype Tip = Tip(id: string, category: Category, kind: ExerciseKind, duration: int, steps: seq<Step>)

  /** The five tips the modal offers. */
  const Tips: seq<Tip> := [
    Tip("breathing", Breathing, BreathingKind, 60,
        [Step("wellnessTips.breathing.step1", 4), Step("wellnessTips.breathing.step2", 4),
         Step("wellnessTips.breathing.step3", 4)]),
    Tip("stretching", Stretching, StretchingKind, 120,
        [Step("wellnessTips.stretching.step1", 20), Step("wellnessTips.stretching.step2", 20),
         Step("wellnessTips.stretching.step3", 20), Step("wellnessTips.stretching.step4", 20),
         Step("wellnessTips.stretching.step5", 20), Step("wellnessTips.stretching.step6", 20)]),
    Tip("mindfulness", Mindfulness, TimerKind, 300,
        [Step("wellnessTips.mindfulness.step1", 60), Step("wellnessTips.mindfulness.step2", 120),
         Step("wellnessTips.mindfulness.step3", 120)]),
    Tip("hydration", Hydration, ChecklistKind, 0,
        [Step("wellnessTips.hydration.step1", 0), Step("wellnessTips.hydration.step2", 0),
         Step("wellnessTips.hydration.step3", 0)]),
    Tip("posture", Posture, ChecklistKind, 0,
        [Step("wellnessTips.posture.step1", 0), Step("wellnessTips.posture.step2", 0),
         Step("wellnessTips.posture.step3", 0), Step("wellnessTips.posture.step4", 0)])
  ]

  /** Every step has a positive duration. */
  predicate AllTimed(tip: Tip)
  {
    forall j :: 0 <= j < |tip.steps| ==> tip.steps[j].duration > 0
  }

  /** Seconds of the steps from index `i` on. */
  function DurationFrom(steps: seq<Step>, i: nat): int
    decreases |steps| - i
  {
    if i >= |steps| then 0 else steps[i].duration + DurationFrom(steps, i + 1)
  }

  /** Indices below `n`. */
  function Below(n: int): (r: set<int>)
    ensures forall j :: j in r <==> 0 <= j < n
  {
    if n <= 0 then {} else Below(n - 1) + {n - 1}
  }

  /** The modal's observable fields. */
  datatype Engine = Engine(index: int, secondsLeft: int, exercising: bool, paused: bool, completed: set<int>)

  /** `stop` on the fields: the completed set is kept. */
  function StopSpec(e: Engine): Engine
  {
    e.(index := 0, secondsLeft := 0, exercising := false, paused := false)
  }

  /** `startExercise` for a tip: step 0, nothing completed, the first duration loaded if positive. */
  function StartSpec(tip: Tip, e: Engine): Engine
    requires |tip.steps| > 0
  {
    Engine(0, if tip.steps[0].duration > 0 then tip.steps[0].duration else e.secondsLeft, true, false, {})
  }

  /** `nextStep` finishes the exercise. */
  predicate NextStepCompletes(tip: Tip, e: Engine)
  {
    e.index + 1 >= |tip.steps|
  }

  /**
   * `nextStep`: the current index is marked completed; on the last step the
   * exercise stops, otherwise the index advances and a positive duration is loaded.
   */
  function NextStepSpec(tip: Tip, e: Engine): (r: Engine)
    requires e.index >= 0
    ensures r.completed == e.completed + {e.index}
    ensures NextStepCompletes(tip, e) ==> !r.exercising && !r.paused && r.index == 0 && r.secondsLeft == 0
    ensures !NextStepCompletes(tip, e) ==>
      r.index == e.index + 1 && r.exercising == e.exercising && r.paused == e.paused &&
      r.secondsLeft == (if tip.steps[e.index + 1].duration > 0 then tip.steps[e.index + 1].duration else e.secondsLeft)
  {
    var done := e.completed + {e.index};
    if e.index + 1 >= |tip.steps| then StopSpec(e.(completed := done))
    else
      var d := tip.steps[e.index + 1].duration;
      e.(completed := done, index := e.index + 1, secondsLeft := if d > 0 then d else e.secondsLeft)
  }

  /** A tick that ends the exercise. */
  predicate TickCompletes(tip: Tip, e: Engine)
  {
    !e.paused && e.secondsLeft - 1 <= 0 && NextStepCompletes(tip, e)
  }

  /** The interval callback: nothing while paused, else count down and move on at 0. */
  function TickSpec(tip: Tip, e: Engine): Engine
    requires e.index >= 0
  {
    if e.paused then e
    else
      var s := e.secondsLeft - 1;
      if s <= 0 then NextStepSpec(tip, e.(secondsLeft := s)) else e.(secondsLeft := s)
  }

  /** `k` seconds with the interval live while the exercise runs unpaused. */
  function Run(tip: Tip, e: Engine, k: nat): Engine
    requires e.index >= 0
    ensures Run(tip, e, k).index >= 0
  {
    if k == 0 then e
    else
      var prev := Run(tip, e, k - 1);
      if prev.exercising && !prev.paused then TickSpec(tip, prev) else prev
  }

  /** Seconds a running timed tip still needs. */
  function Remaining(tip: Tip, e: Engine): int
    requires e.index >= 0
  {
    e.secondsLeft + DurationFrom(tip.steps, e.index + 1)
  }

  /** A running, unpaused position of a timed tip; every earlier step is completed. */
  predicate Live(tip: Tip, e: Engine)
  {
    AllTimed(tip) && e.exercising && !e.paused && 0 <= e.index < |tip.steps| && e.secondsLeft >= 1 &&
    e.completed == Below(e.index)
  }

  /** What the run of a timed tip ends in: stopped, with every step completed. */
  function Finished(tip: Tip): Engine
  {
    Engine(0, 0, false, false, Below(|tip.steps|))
  }

  lemma {:induction false} DurationFromNonNegative(tip: Tip, i: nat)
    requires AllTimed(tip)
    ensures DurationFrom(tip.steps, i) >= 0
    decreases |tip.steps| - i
  {
    if i < |tip.steps| {
      DurationFromNonNegative(tip, i + 1);
    }
  }

  /** One tick of a timed tip uses up exactly one second. */
  lemma TickAccounting(tip: Tip, e: Engine)
    requires Live(tip, e)
    ensures Remaining(tip, e) >= 1
    ensures Remaining(tip, e) == 1 ==> TickSpec(tip, e) == Finished(tip)
    ensures Remaining(tip, e) > 1 ==>
      Live(tip, TickSpec(tip, e)) && Remaining(tip, TickSpec(tip, e)) == Remaining(tip, e) - 1
  {
    DurationFromNonNegative(tip, e.index + 1);
    assert Below(e.index) + {e.index} == Below(e.index + 1);
    if e.index + 1 < |tip.steps| {
      DurationFromNonNegative(tip, e.index + 2);
    }
  }

  /** A live position of a timed tip finishes after exactly `Remaining` ticks. */
  lemma {:induction false} TicksToFinish(tip: Tip, e: Engine, k: nat)
    requires Live(tip, e)
    ensures k < Remaining(tip, e) ==> Live(tip, Run(tip, e, k)) && Remaining(tip, Run(tip, e, k)) == Remaining(tip, e) - k
    ensures k >= Remaining(tip, e) ==> Run(tip, e, k) == Finished(tip)
  {
    TickAccounting(tip, e);
    if k > 0 {
      TicksToFinish(tip, e, k - 1);
      if k - 1 < Remaining(tip, e) {
        TickAccounting(tip, Run(tip, e, k - 1));
      }
    }
  }

  /**
   * A timed tip whose steps all have positive durations runs for exactly the
   * sum of its step durations, then stops with every step completed.
   */
  lemma ExactTicksFromStart(tip: Tip, e: Engine, k: nat)
    requires AllTimed(tip) && |tip.steps| > 0
    ensures Run(tip, StartSpec(tip, e), k).exercising <==> k < DurationFrom(tip.steps, 0)
    ensures k >= DurationFrom(tip.steps, 0) ==> Run(tip, StartSpec(tip, e), k) == Finished(tip)
  {
    assert Below(0) == {};
    TicksToFinish(tip, StartSpec(tip, e), k);
  }

  /** The breathing tip declares 60 seconds but its steps last 12, and 12 is what runs. */
  lemma DeclaredDurationUnused()
    ensures Tips[0].duration == 60 && DurationFrom(Tips[0].steps, 0) == 12
  {
  }

  /** `toggleChecklistItem` on the completed set. */
  function ToggleItem(completed: set<int>, index: int): (r: set<int>)
    ensures index in r <==> index !in completed
    ensures forall j :: j != index ==> (j in r <==> j in completed)
  {
    if index in completed then completed - {index} else completed + {index}
  }

  /** Toggling the same item twice restores the completed set. */
  lemma ToggleItemTwice(completed: set<int>, index: int)
    ensures ToggleItem(ToggleItem(completed, index), index) == completed
  {
  }

  /** One entry of the 'wellnessLogs' key; `date` stands for the ISO time of completion. */
  datatype TipLog = TipLog(tipId: string, category: Category, date: int)

  /** The wellness-tip modal. */
  class WellnessTipModal {
    var selected: Option<Tip>
    var isExercising: bool
    var isPaused: bool
    var index: int
    var secondsLeft: int
    var completedSteps: set<int>
    /** `intervalId`. */
    var intervalId: Option<nat>
    /** Handles of the intervals the browser is running. */
    var live: set<nat>
    var nextHandle: nat
    /** The key 'wellnessLogs'. */
    var logsCell: Cell<seq<TipLog>>
    /** How many times `close` was emitted. */
    var closeEvents: nat

    function State(): Engine
      reads this
    {
      Engine(index, secondsLeft, isExercising, isPaused, completedSteps)
    }

    /** At most one interval is live, and never while paused. */
    ghost predicate Valid()
      reads this
    {
      0 < nextHandle && (forall h :: h in live ==> 0 < h < nextHandle) &&
      live == TimerSet(intervalId) && (intervalId.Some? ==> !isPaused) &&
      index >= 0 && (selected.Some? ==> |selected.value.steps| > 0)
    }

    constructor (logs: Cell<seq<TipLog>>)
      ensures Valid() && selected.None? && State() == Engine(0, 0, false, false, {}) && live == {}
      ensures logsCell == logs && closeEvents == 0
    {
      selected := None;
      isExercising := false;
      isPaused := false;
      index := 0;
      secondsLeft := 0;
      completedSteps := {};
      intervalId := None;
      live := {};
      nextHandle := 1;
      logsCell := logs;
      closeEvents := 0;
    }

    /** `selectTip`: the interval, pause flag and countdown are left as they were. */
    method SelectTip(tip: Tip)
      requires Valid() && |tip.steps| > 0
      modifies this`selected, this`isExercising, this`index, this`completedSteps
      ensures Valid() && selected == Some(tip)
      ensures State() == old(State()).(exercising := false, index := 0, completed := {})
    {
      selected := Some(tip);
      isExercising := false;
      index := 0;
      completedSteps := {};
    }

    /** `runTimer`: clear the old interval (if any) and start a new one. */
    method RunTimer()
      modifies this`intervalId, this`live, this`nextHandle
      ensures intervalId == Some(old(nextHandle)) && live == old(live) - TimerSet(old(intervalId)) + {old(nextHandle)}
      ensures nextHandle == old(nextHandle) + 1
    {
      if intervalId.Some? {
        live := live - {intervalId.value};
      }
      intervalId := Some(nextHandle);
      live := live + {nextHandle};
      nextHandle := nextHandle + 1;
    }

    /**
     * `startExercise`: step 0 with nothing completed; the timer starts only
     * when the first step has a positive duration.
     */
    method StartExercise()
      requires Valid()
      modifies this`isExercising, this`isPaused, this`index, this`completedSteps, this`secondsLeft,
        this`intervalId, this`live, this`nextHandle
      ensures Valid()
      ensures old(selected).None? ==> State() == old(State()) && live == old(live)
      ensures old(selected).Some? ==> State() == StartSpec(selected.value, old(State()))
      ensures old(selected).Some? && selected.value.steps[0].duration > 0 ==>
        intervalId == Some(old(nextHandle)) && live == {old(nextHandle)}
      ensures old(selected).Some? && selected.value.steps[0].duration <= 0 ==>
        intervalId == old(intervalId) && live == old(live)
    {
      if selected.None? {
        return;
      }
      var tip := selected.value;
      isExercising := true;
      isPaused := false;
      index := 0;
      completedSteps := {};
      var first := tip.steps[0];
      if first.duration > 0 {
        secondsLeft := first.duration;
        RunTimer();
      }
    }

    /** `pause`: paused, no interval, step and countdown kept. */
    method Pause()
      requires Valid()
      modifies this`isPaused, this`intervalId, this`live
      ensures Valid() && State() == old(State()).(paused := true) && intervalId.None? && live == {}
    {
      isPaused := true;
      if intervalId.Some? {
        live := live - {intervalId.value};
        intervalId := None;
      }
    }

    /** `resume`: unpaused with a fresh interval, step and countdown kept. */
    method Resume()
      requires Valid()
      modifies this`isPaused, this`intervalId, this`live, this`nextHandle
      ensures Valid() && State() == old(State()).(paused := false)
      ensures intervalId == Some(old(nextHandle)) && live == {old(nextHandle)}
    {
      isPaused := false;
      RunTimer();
    }

    /** `stop`: not exercising, not paused, step 0, 0 seconds, no interval; completed steps are kept. */
    method Stop()
      requires Valid()
      modifies this`isExercising, this`isPaused, this`index, this`secondsLeft, this`intervalId, this`live
      ensures Valid() && State() == StopSpec(old(State())) && intervalId.None? && live == {}
    {
      isExercising := false;
      isPaused := false;
      index := 0;
      secondsLeft := 0;
      if intervalId.Some? {
        live := live - {intervalId.value};
        intervalId := None;
      }
    }

    /** `saveLog`: append one entry with the tip's id and category. */
    method SaveLog(now: int)
      modifies this`logsCell
      ensures selected.None? ==> logsCell == old(logsCell)
      ensures selected.Some? ==> logsCell == AppendToLog(old(logsCell), TipLog(selected.value.id, selected.value.category, now))
    {
      if selected.None? {
        return;
      }
      logsCell := AppendToLog(logsCell, TipLog(selected.value.id, selected.value.category, now));
    }

    /** `completeExercise`: stop and log; the alert is left out. */
    method CompleteExercise(now: int)
      requires Valid()
      modifies this`isExercising, this`isPaused, this`index, this`secondsLeft, this`intervalId, this`live,
        this`logsCell
      ensures Valid() && State() == StopSpec(old(State())) && live == {}
      ensures selected.None? ==> logsCell == old(logsCell)
      ensures selected.Some? ==> logsCell == AppendToLog(old(logsCell), TipLog(selected.value.id, selected.value.category, now))
    {
      Stop();
      SaveLog(now);
    }

    /** `nextStep`. */
    method NextStep(now: int)
      requires Valid()
      modifies this`isExercising, this`isPaused, this`index, this`secondsLeft, this`intervalId, this`live,
        this`logsCell, this`completedSteps
      ensures Valid()
      ensures selected.None? ==> State() == old(State()) && live == old(live) && logsCell == old(logsCell)
      ensures selected.Some? ==> State() == NextStepSpec(selected.value, old(State()))
      ensures selected.Some? && NextStepCompletes(selected.value, old(State())) ==>
        live == {} && logsCell == AppendToLog(old(logsCell), TipLog(selected.value.id, selected.value.category, now))
      ensures selected.Some? && !NextStepCompletes(selected.value, old(State())) ==>
        live == old(live) && logsCell == old(logsCell)
    {
      if selected.None? {
        return;
      }
      var tip := selected.value;
      var currentIndex := index;
      completedSteps := completedSteps + {currentIndex};
      if currentIndex + 1 >= |tip.steps| {
        CompleteExercise(now);
        return;
      }
      index := currentIndex + 1;
      var next := tip.steps[currentIndex + 1];
      if next.duration > 0 {
        secondsLeft := next.duration;
      }
    }

    /**
     * `toggleChecklistItem`: flip one index; when the set then has as many
     * entries as the tip has steps, the exercise completes.
     */
    method ToggleChecklistItem(i: int, now: int)
      requires Valid()
      modifies this`isExercising, this`isPaused, this`index, this`secondsLeft, this`intervalId, this`live,
        this`logsCell, this`completedSteps
      ensures Valid() && completedSteps == ToggleItem(old(completedSteps), i)
      ensures selected.Some? && |completedSteps| == |selected.value.steps| ==>
        State() == StopSpec(old(State())).(completed := completedSteps) && live == {} &&
        logsCell == AppendToLog(old(logsCell), TipLog(selected.value.id, selected.value.category, now))
      ensures !(selected.Some? && |completedSteps| == |selected.value.steps|) ==>
        State() == old(State()).(completed := completedSteps) && live == old(live) && logsCell == old(logsCell)
    {
      var completed := completedSteps;
      if i in completed {
        completed := completed - {i};
      } else {
        completed := completed + {i};
      }
      completedSteps := completed;
      if selected.Some? && |completed| == |selected.value.steps| {
        CompleteExercise(now);
      }
    }

    /**
     * One second of the browser clock: the interval callback runs when the
     * interval is live. With no tip selected it only counts down, since
     * `nextStep` then returns at once.
     */
    method Tick(now: int)
      requires Valid()
      modifies this`isExercising, this`isPaused, this`index, this`secondsLeft, this`intervalId, this`live,
        this`logsCell, this`completedSteps
      ensures Valid()
      ensures old(intervalId).None? ==> State() == old(State()) && live == old(live) && logsCell == old(logsCell)
      ensures old(intervalId).Some? && selected.None? ==>
        State() == old(State()).(secondsLeft := old(secondsLeft) - 1) && live == old(live) && logsCell == old(logsCell)
      ensures old(intervalId).Some? && selected.Some? ==>
        State() == TickSpec(selected.value, old(State())) &&
        (TickCompletes(selected.value, old(State())) ==>
          live == {} && logsCell == AppendToLog(old(logsCell), TipLog(selected.value.id, selected.value.category, now))) &&
        (!TickCompletes(selected.value, old(State())) ==> live == old(live) && logsCell == old(logsCell))
    {
      if intervalId.None? {
        return;
      }
      if isPaused {
        return;
      }
      var seconds := secondsLeft - 1;
      secondsLeft := seconds;
      if seconds <= 0 {
        NextStep(now);
      }
    }

    /** `backToList`: stop, then deselect. */
    method BackToList()
      requires Valid()
      modifies this
      ensures Valid() && selected.None? && State() == StopSpec(old(State())) && live == {}
      ensures logsCell == old(logsCell) && closeEvents == old(closeEvents)
    {
      Stop();
      selected := None;
    }

    /** `closeModal`: stop, then emit `close`. */
    method CloseModal()
      requires Valid()
      modifies this
      ensures Valid() && selected == old(selected) && State() == StopSpec(old(State())) && live == {}
      ensures logsCell == old(logsCell) && closeEvents == old(closeEvents) + 1
    {
      Stop();
      closeEvents := closeEvents + 1;
    }
  }
}
