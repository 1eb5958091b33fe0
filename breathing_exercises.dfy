// The pattern/cycle breathing modal
// (src/app/home/modals/breathing-exercises-modal/breathing-exercises-modal.component.ts).
//
// An exercise has a pattern [inhale, hold1, exhale, hold2] in seconds and a
// number of cycles. One second of the interval is the pure step `TickSpec`;
// the zero-length-phase skipping of `moveToNextPhase` is the recursive
// function `MoveNext`. The class `BreathingExercisesModal` holds the same
// fields and is proved to follow them.

module BreathingExercises {
  import opened Common

  datatype Phase = Inhale | Hold1 | Exhale | Hold2

  /** Position of a phase in the pattern. */
  function PhaseIndex(p: Phase): (i: nat)
    ensures i < 4
  {
    match p
    case Inhale => 0
    case Hold1 => 1
    case Exhale => 2
    case Hold2 => 3
  }

  /** The fixed phase order inhale, hold1, exhale, hold2, inhale. */
  function NextOf(p: Phase): (q: Phase)
    ensures PhaseIndex(q) == (PhaseIndex(p) + 1) % 4
  {
    match p
    case Inhale => Hold1
    case Hold1 => Exhale
    case Exhale => Hold2
    case Hold2 => Inhale
  }

  datatype Exercise = Exercise(id: string, name: string, pattern: seq<int>, cycles: int)

  /** The pattern has its four entries. */
  predicate WellFormed(ex: Exercise)
  {
    |ex.pattern| == 4
  }

  /** No phase has a negative length. */
  predicate NonNegative(ex: Exercise)
  {
    WellFormed(ex) && forall i :: 0 <= i < 4 ==> ex.pattern[i] >= 0
  }

  /** The four exercises the modal offers. */
  const Catalog: seq<Exercise> := [
    Exercise("box", "breathingExercises.exercises.box.name", [4, 4, 4, 4], 5),
    Exercise("calm", "breathingExercises.exercises.calm.name", [4, 7, 8, 0], 4),
    Exercise("energize", "breathingExercises.exercises.energize.name", [2, 0, 2, 0], 10),
    Exercise("deep", "breathingExercises.exercises.deep.name", [5, 2, 5, 2], 6)
  ]

  /** Seconds in one cycle: the pattern summed. */
  function CycleSeconds(ex: Exercise): int
  {
    Sum(ex.pattern)
  }

  /** `totalSeconds` for a selected exercise: the four phase lengths, once per cycle. */
  function TotalSeconds(ex: Exercise): (r: int)
    ensures WellFormed(ex) ==> r == (ex.pattern[0] + ex.pattern[1] + ex.pattern[2] + ex.pattern[3]) * ex.cycles
  {
    if WellFormed(ex) then SumOfFour(ex.pattern); CycleSeconds(ex) * ex.cycles
    else CycleSeconds(ex) * ex.cycles
  }

  lemma SumOfFour(p: seq<int>)
    requires |p| == 4
    ensures Sum(p) == p[0] + p[1] + p[2] + p[3]
  {
    var a, b, c := p[..1], p[..2], p[..3];
    assert a[..|a| - 1] == [] && a[|a| - 1] == p[0];
    assert Sum(a) == p[0];
    assert b[..|b| - 1] == a && b[|b| - 1] == p[1];
    assert Sum(b) == p[0] + p[1];
    assert c[..|c| - 1] == b && c[|c| - 1] == p[2];
    assert Sum(c) == p[0] + p[1] + p[2];
    assert p[..|p| - 1] == c;
  }

  /** The catalog's exercises last 80, 76, 40 and 84 seconds. */
  lemma CatalogTotals()
    ensures TotalSeconds(Catalog[0]) == 80 && TotalSeconds(Catalog[1]) == 76
    ensures TotalSeconds(Catalog[2]) == 40 && TotalSeconds(Catalog[3]) == 84
  {
    SumOfFour(Catalog[0].pattern);
    SumOfFour(Catalog[1].pattern);
    SumOfFour(Catalog[2].pattern);
    SumOfFour(Catalog[3].pattern);
  }

  /** Where `moveToNextPhase` lands: a phase with a non-zero length, or completion. */
  datatype Move = Moved(phase: Phase, cycle: int, secondsLeft: int) | Done

  /** The termination measure of the skipping recursion: cycles still to start. */
  function CyclesToGo(ex: Exercise, cycle: int): nat
  {
    if cycle < ex.cycles then ex.cycles - cycle else 0
  }

  /**
   * `moveToNextPhase`: leave `phase`; hold2 starts the next cycle, or completes
   * once `cycle` has reached `cycles`; a next phase of 0 seconds is left at once.
   */
  function MoveNext(ex: Exercise, phase: Phase, cycle: int): (r: Move)
    requires WellFormed(ex)
    ensures r.Moved? ==> r.secondsLeft != 0 && r.secondsLeft == ex.pattern[PhaseIndex(r.phase)]
    ensures r.Moved? && NonNegative(ex) ==> r.secondsLeft > 0
    ensures r.Moved? ==>
      (r.cycle == cycle && PhaseIndex(r.phase) > PhaseIndex(phase)) ||
      (r.cycle == cycle + 1 && PhaseIndex(r.phase) <= PhaseIndex(phase))
    decreases CyclesToGo(ex, cycle), 3 - PhaseIndex(phase)
  {
    if phase == Hold2 && cycle >= ex.cycles then Done
    else
      var next := NextOf(phase);
      var c := if phase == Hold2 then cycle + 1 else cycle;
      var s := ex.pattern[PhaseIndex(next)];
      if s == 0 then MoveNext(ex, next, c) else Moved(next, c, s)
  }

  /** Seconds of the pattern after phase index `i`. */
  function Tail(p: seq<int>, i: nat): int
    requires |p| == 4 && i < 4
  {
    if i == 0 then p[1] + p[2] + p[3] else if i == 1 then p[2] + p[3] else if i == 2 then p[3] else 0
  }

  /** Seconds of the pattern before phase index `i`. */
  function Head(p: seq<int>, i: nat): int
    requires |p| == 4 && i < 4
  {
    if i == 0 then 0 else if i == 1 then p[0] else if i == 2 then p[0] + p[1] else p[0] + p[1] + p[2]
  }

  /** Seconds still to run once `phase` of cycle `cycle` has ended. */
  function After(ex: Exercise, phase: Phase, cycle: int): int
    requires WellFormed(ex)
  {
    Tail(ex.pattern, PhaseIndex(phase)) + (ex.cycles - cycle) * CycleSeconds(ex)
  }

  lemma MulNonNegative(a: int, b: int)
    requires a >= 0 && b >= 0
    ensures a * b >= 0
  {
  }

  /**
   * `moveToNextPhase` keeps the books: it completes exactly when no second is
   * left after the current phase, and otherwise lands on a phase whose length
   * plus what follows it is what was left.
   */
  lemma {:induction false} MoveNextAccounting(ex: Exercise, phase: Phase, cycle: int)
    requires NonNegative(ex) && cycle <= ex.cycles
    ensures After(ex, phase, cycle) >= 0
    ensures MoveNext(ex, phase, cycle).Done? <==> After(ex, phase, cycle) == 0
    ensures MoveNext(ex, phase, cycle).Moved? ==>
      var m := MoveNext(ex, phase, cycle);
      m.secondsLeft > 0 && m.cycle <= ex.cycles &&
      m.secondsLeft + After(ex, m.phase, m.cycle) == After(ex, phase, cycle)
    decreases CyclesToGo(ex, cycle), 3 - PhaseIndex(phase)
  {
    var p := ex.pattern;
    var S := CycleSeconds(ex);
    SumOfFour(p);
    MulNonNegative(ex.cycles - cycle, S);
    if phase == Hold2 && cycle >= ex.cycles {
    } else {
      var next := NextOf(phase);
      var c := if phase == Hold2 then cycle + 1 else cycle;
      var s := p[PhaseIndex(next)];
      MulNonNegative(ex.cycles - c, S);
      if phase == Hold2 {
        assert (ex.cycles - cycle) * S == S + (ex.cycles - c) * S;
      }
      assert After(ex, phase, cycle) == s + After(ex, next, c);
      if s == 0 {
        MoveNextAccounting(ex, next, c);
      }
    }
  }

  /** The modal's observable fields. */
  datatype Engine = Engine(phase: Phase, cycle: int, secondsLeft: int, running: bool, paused: bool)

  /** What `stop` leaves. */
  const Stopped := Engine(Inhale, 0, 0, false, false)

  /** `start`: running and not paused; from cycle 0 the first inhale of cycle 1 is loaded. */
  function StartSpec(ex: Exercise, e: Engine): Engine
    requires WellFormed(ex)
  {
    if e.cycle == 0 then Engine(Inhale, 1, ex.pattern[0], true, false)
    else e.(running := true, paused := false)
  }

  /** A tick that completes the exercise. */
  predicate TickCompletes(ex: Exercise, e: Engine)
    requires WellFormed(ex)
  {
    e.secondsLeft - 1 <= 0 && MoveNext(ex, e.phase, e.cycle).Done?
  }

  /** The interval callback for a selected exercise and an unpaused modal. */
  function TickSpec(ex: Exercise, e: Engine): (r: Engine)
    requires WellFormed(ex)
    ensures TickCompletes(ex, e) ==> r == Stopped
    ensures e.secondsLeft - 1 > 0 ==> r == e.(secondsLeft := e.secondsLeft - 1)
  {
    var s := e.secondsLeft - 1;
    if s > 0 then e.(secondsLeft := s)
    else
      match MoveNext(ex, e.phase, e.cycle)
      case Done => Stopped
      case Moved(p, c, n) => e.(phase := p, cycle := c, secondsLeft := n)
  }

  /** `k` seconds with the interval live while the modal runs unpaused. */
  function Run(ex: Exercise, e: Engine, k: nat): Engine
    requires WellFormed(ex)
  {
    if k == 0 then e
    else
      var prev := Run(ex, e, k - 1);
      if prev.running && !prev.paused then TickSpec(ex, prev) else prev
  }

  /** Seconds the running exercise still needs. */
  function Remaining(ex: Exercise, e: Engine): int
    requires WellFormed(ex)
  {
    e.secondsLeft + After(ex, e.phase, e.cycle)
  }

  /** A running, unpaused position with a positive countdown inside the cycle budget. */
  predicate Live(ex: Exercise, e: Engine)
  {
    NonNegative(ex) && e.running && !e.paused && e.secondsLeft >= 1 && e.cycle <= ex.cycles
  }

  /** One tick uses up exactly one second, and completes when the last second goes. */
  lemma TickAccounting(ex: Exercise, e: Engine)
    requires Live(ex, e)
    ensures Remaining(ex, e) >= 1
    ensures Remaining(ex, e) == 1 ==> TickSpec(ex, e) == Stopped
    ensures Remaining(ex, e) > 1 ==>
      Live(ex, TickSpec(ex, e)) && Remaining(ex, TickSpec(ex, e)) == Remaining(ex, e) - 1
  {
    MoveNextAccounting(ex, e.phase, e.cycle);
  }

  /** A live position completes after exactly `Remaining` ticks, and not before. */
  lemma {:induction false} TicksToFinish(ex: Exercise, e: Engine, k: nat)
    requires Live(ex, e)
    ensures k < Remaining(ex, e) ==> Live(ex, Run(ex, e, k)) && Remaining(ex, Run(ex, e, k)) == Remaining(ex, e) - k
    ensures k >= Remaining(ex, e) ==> Run(ex, e, k) == Stopped
  {
    TickAccounting(ex, e);
    if k > 0 {
      TicksToFinish(ex, e, k - 1);
      var prev := Run(ex, e, k - 1);
      if k - 1 < Remaining(ex, e) {
        TickAccounting(ex, prev);
      }
    }
  }

  /**
   * With a positive first phase, `start` from the stopped state runs for
   * exactly `totalSeconds` ticks: the modal runs before that and is stopped from then on.
   */
  lemma ExactTicksFromStart(ex: Exercise, k: nat)
    requires NonNegative(ex) && ex.pattern[0] > 0 && ex.cycles >= 1
    ensures Run(ex, StartSpec(ex, Stopped), k).running <==> k < TotalSeconds(ex)
    ensures k >= TotalSeconds(ex) ==> Run(ex, StartSpec(ex, Stopped), k) == Stopped
  {
    var e := StartSpec(ex, Stopped);
    SumOfFour(ex.pattern);
    assert (ex.cycles - 1) * CycleSeconds(ex) + CycleSeconds(ex) == ex.cycles * CycleSeconds(ex);
    assert Remaining(ex, e) == TotalSeconds(ex);
    TicksToFinish(ex, e, k);
  }

  /** Running `k + 1` seconds is one tick followed by `k`. */
  lemma {:induction false} RunFirstStep(ex: Exercise, e: Engine, k: nat)
    requires WellFormed(ex) && e.running && !e.paused
    ensures Run(ex, e, k + 1) == Run(ex, TickSpec(ex, e), k)
  {
    if k > 0 {
      RunFirstStep(ex, e, k - 1);
    }
  }

  /**
   * A zero-length first phase costs one tick, at `start` only: the countdown
   * starts at 0 and the first tick moves on, so the run lasts `totalSeconds + 1` ticks.
   */
  lemma ZeroFirstPhaseCostsOneTick(ex: Exercise, k: nat)
    requires NonNegative(ex) && ex.pattern[0] == 0 && ex.cycles >= 1 && TotalSeconds(ex) > 0
    ensures Run(ex, StartSpec(ex, Stopped), k).running <==> k < TotalSeconds(ex) + 1
  {
    var e := StartSpec(ex, Stopped);
    SumOfFour(ex.pattern);
    assert (ex.cycles - 1) * CycleSeconds(ex) + CycleSeconds(ex) == ex.cycles * CycleSeconds(ex);
    MoveNextAccounting(ex, Inhale, 1);
    assert After(ex, Inhale, 1) == TotalSeconds(ex);
    var e1 := TickSpec(ex, e);
    assert Live(ex, e1) && Remaining(ex, e1) == TotalSeconds(ex);
    if k > 0 {
      RunFirstStep(ex, e, k - 1);
      TicksToFinish(ex, e1, k - 1);
    }
  }

  /** `getPhaseElapsed`: while the countdown is within the phase, so is the elapsed part. */
  function PhaseElapsed(ex: Exercise, e: Engine): (r: int)
    requires WellFormed(ex)
    ensures 0 <= e.secondsLeft <= ex.pattern[PhaseIndex(e.phase)] ==> 0 <= r <= ex.pattern[PhaseIndex(e.phase)]
  {
    ex.pattern[PhaseIndex(e.phase)] - e.secondsLeft
  }

  /** `elapsedSeconds`: the current cycle number counts as cycles already done. */
  function ElapsedSeconds(ex: Exercise, e: Engine): (r: int)
    requires WellFormed(ex)
    ensures 0 <= e.secondsLeft <= ex.pattern[PhaseIndex(e.phase)] ==>
      e.cycle * CycleSeconds(ex) <= r <= e.cycle * CycleSeconds(ex) + ex.pattern[PhaseIndex(e.phase)]
  {
    e.cycle * CycleSeconds(ex) + PhaseElapsed(ex, e)
  }

  /**
   * The elapsed figure is the seconds that really ran plus the seconds of the
   * current phase and the phases after it in the cycle.
   */
  lemma ElapsedFormula(ex: Exercise, e: Engine)
    requires WellFormed(ex)
    ensures ElapsedSeconds(ex, e)
         == (TotalSeconds(ex) - Remaining(ex, e)) + ex.pattern[PhaseIndex(e.phase)] + Tail(ex.pattern, PhaseIndex(e.phase))
  {
    SumOfFour(ex.pattern);
    assert e.cycle * CycleSeconds(ex) - (ex.cycles - e.cycle) * CycleSeconds(ex) + TotalSeconds(ex)
        == 2 * e.cycle * CycleSeconds(ex) by {
      assert (ex.cycles - e.cycle) * CycleSeconds(ex) == ex.cycles * CycleSeconds(ex) - e.cycle * CycleSeconds(ex);
    }
  }

  /** Straight after `start` from the stopped state, the elapsed figure is a whole cycle. */
  lemma ElapsedAtStart(ex: Exercise)
    requires WellFormed(ex)
    ensures ElapsedSeconds(ex, StartSpec(ex, Stopped)) == CycleSeconds(ex)
  {
  }

  /** One entry of the 'breathLogs' key; `date` stands for the ISO time of completion. */
  datatype ExerciseLog = ExerciseLog(exerciseId: string, exerciseName: string, date: int, cycles: int)

  /** The breathing-exercises modal. */
  class BreathingExercisesModal {
    var selected: Option<Exercise>
    var isRunning: bool
    var isPaused: bool
    var phase: Phase
    var cycle: int
    var secondsLeft: int
    var breathScale: real
    /** `intervalId`. */
    var intervalId: Option<nat>
    /** Handles of the intervals the browser is running. */
    var live: set<nat>
    var nextHandle: nat
    /** The key 'breathLogs'. */
    var logsCell: Cell<seq<ExerciseLog>>
    /** How many times `close` was emitted. */
    var closeEvents: nat

    function State(): Engine
      reads this
    {
      Engine(phase, cycle, secondsLeft, isRunning, isPaused)
    }

    /** At most the one interval in `intervalId` is live, and never while paused. */
    ghost predicate Valid()
      reads this
    {
      0 < nextHandle && (forall h :: h in live ==> 0 < h < nextHandle) &&
      live == TimerSet(intervalId) && (intervalId.Some? ==> !isPaused) &&
      (selected.Some? ==> WellFormed(selected.value))
    }

    constructor (logs: Cell<seq<ExerciseLog>>)
      ensures Valid() && selected.None? && State() == Stopped && breathScale == 1.0 && live == {}
      ensures logsCell == logs && closeEvents == 0
    {
      selected := None;
      isRunning := false;
      isPaused := false;
      phase := Inhale;
      cycle := 0;
      secondsLeft := 0;
      breathScale := 1.0;
      intervalId := None;
      live := {};
      nextHandle := 1;
      logsCell := logs;
      closeEvents := 0;
    }

    /** `stop`: back to cycle 0, inhale, 0 seconds, scale 1, and no interval. */
    method Stop()
      requires Valid()
      modifies this`isRunning, this`isPaused, this`cycle, this`phase, this`secondsLeft, this`breathScale,
        this`intervalId, this`live
      ensures Valid() && State() == Stopped && breathScale == 1.0 && intervalId.None? && live == {}
    {
      isRunning := false;
      isPaused := false;
      cycle := 0;
      phase := Inhale;
      secondsLeft := 0;
      breathScale := 1.0;
      if intervalId.Some? {
        live := live - {intervalId.value};
        intervalId := None;
      }
    }

    /** `selectExercise`: stop, then select. */
    method SelectExercise(ex: Exercise)
      requires Valid() && WellFormed(ex)
      modifies this
      ensures Valid() && selected == Some(ex) && State() == Stopped && breathScale == 1.0 && live == {}
      ensures logsCell == old(logsCell) && closeEvents == old(closeEvents)
    {
      Stop();
      selected := Some(ex);
    }

    /** `backToList`: stop, then deselect. */
    method BackToList()
      requires Valid()
      modifies this
      ensures Valid() && selected.None? && State() == Stopped && breathScale == 1.0 && live == {}
      ensures logsCell == old(logsCell) && closeEvents == old(closeEvents)
    {
      Stop();
      selected := None;
    }

    /** `closeModal`: stop, then emit `close`. */
    method CloseModal()
      requires Valid()
      modifies this
      ensures Valid() && selected == old(selected) && State() == Stopped && breathScale == 1.0 && live == {}
      ensures logsCell == old(logsCell) && closeEvents == old(closeEvents) + 1
    {
      Stop();
      closeEvents := closeEvents + 1;
    }

    /** `runTimer`: clear the old interval (if any) and start a new one. */
    method RunTimer()
      requires Valid() || (0 < nextHandle && (forall h :: h in live ==> 0 < h < nextHandle) && live == TimerSet(intervalId))
      modifies this`intervalId, this`live, this`nextHandle
      ensures intervalId == Some(old(nextHandle)) && live == old(live) - TimerSet(old(intervalId)) + {old(nextHandle)}
      ensures nextHandle == old(nextHandle) + 1
    {
      if intervalId.Some? {
        live := live - {intervalId.value};
      }
      intervalId := Some(nextHandle);
      live := live + {nextHandle};
      nextHandle := nextHandle + 1;
    }

    /**
     * `start`: without a selected exercise nothing happens; otherwise it runs
     * unpaused, loads cycle 1 from cycle 0, and one interval is live.
     */
    method Start()
      requires Valid()
      modifies this`isRunning, this`isPaused, this`cycle, this`phase, this`secondsLeft, this`intervalId,
        this`live, this`nextHandle
      ensures Valid()
      ensures old(selected).None? ==> State() == old(State()) && intervalId == old(intervalId) && live == old(live)
      ensures old(selected).Some? ==>
        State() == StartSpec(selected.value, old(State())) && intervalId == Some(old(nextHandle)) &&
        live == {old(nextHandle)}
    {
      if selected.None? {
        return;
      }
      isRunning := true;
      isPaused := false;
      if cycle == 0 {
        cycle := 1;
        phase := Inhale;
        secondsLeft := selected.value.pattern[0];
      }
      RunTimer();
    }

    /** `pause`: paused, no interval, position kept. */
    method Pause()
      requires Valid()
      modifies this`isPaused, this`intervalId, this`live
      ensures Valid() && State() == old(State()).(paused := true) && intervalId.None? && live == {}
    {
      isPaused := true;
      if intervalId.Some? {
        live := live - {intervalId.value};
        intervalId := None;
      }
    }

    /** `resume`: unpaused with a fresh interval, position kept. */
    method Resume()
      requires Valid()
      modifies this`isPaused, this`intervalId, this`live, this`nextHandle
      ensures Valid() && State() == old(State()).(paused := false)
      ensures intervalId == Some(old(nextHandle)) && live == {old(nextHandle)}
    {
      isPaused := false;
      RunTimer();
    }

    /** `saveLog`: append one entry for the selected exercise. */
    method SaveLog(now: int)
      modifies this`logsCell
      ensures selected.None? ==> logsCell == old(logsCell)
      ensures selected.Some? ==>
        logsCell == AppendToLog(old(logsCell), ExerciseLog(selected.value.id, selected.value.name, now, selected.value.cycles))
    {
      if selected.None? {
        return;
      }
      var ex := selected.value;
      logsCell := AppendToLog(logsCell, ExerciseLog(ex.id, ex.name, now, ex.cycles));
    }

    /** `completeExercise`: stop and log; the alert is left out. */
    method CompleteExercise(now: int)
      requires Valid()
      modifies this`isRunning, this`isPaused, this`cycle, this`phase, this`secondsLeft, this`breathScale,
        this`intervalId, this`live, this`logsCell
      ensures Valid() && State() == Stopped && breathScale == 1.0 && intervalId.None? && live == {}
      ensures selected.None? ==> logsCell == old(logsCell)
      ensures selected.Some? ==>
        logsCell == AppendToLog(old(logsCell), ExerciseLog(selected.value.id, selected.value.name, now, selected.value.cycles))
    {
      Stop();
      SaveLog(now);
    }

    /** `moveToNextPhase`, recursive over the phases of 0 seconds. */
    method MoveToNextPhase(now: int)
      requires Valid()
      modifies this`isRunning, this`isPaused, this`cycle, this`phase, this`secondsLeft, this`breathScale,
        this`intervalId, this`live, this`logsCell
      decreases if selected.Some? then CyclesToGo(selected.value, cycle) else 0, 3 - PhaseIndex(phase)
      ensures Valid()
      ensures selected.None? ==> State() == old(State()) && live == old(live) && logsCell == old(logsCell)
      ensures selected.Some? && MoveNext(selected.value, old(phase), old(cycle)).Done? ==>
        State() == Stopped && breathScale == 1.0 && live == {} &&
        logsCell == AppendToLog(old(logsCell), ExerciseLog(selected.value.id, selected.value.name, now, selected.value.cycles))
      ensures selected.Some? && MoveNext(selected.value, old(phase), old(cycle)).Moved? ==>
        var m := MoveNext(selected.value, old(phase), old(cycle));
        State() == old(State()).(phase := m.phase, cycle := m.cycle, secondsLeft := m.secondsLeft) &&
        breathScale == old(breathScale) && intervalId == old(intervalId) && live == old(live) &&
        logsCell == old(logsCell)
    {
      if selected.None? {
        return;
      }
      var ex := selected.value;
      ghost var target := MoveNext(ex, phase, cycle);
      if phase == Hold2 && cycle >= ex.cycles {
        CompleteExercise(now);
        return;
      }
      // inhale -> hold1 -> exhale -> hold2, and hold2 -> inhale of the next cycle
      var next := NextOf(phase);
      if phase == Hold2 {
        cycle := cycle + 1;
      }
      var nextSeconds := ex.pattern[PhaseIndex(next)];
      if nextSeconds == 0 {
        assert target == MoveNext(ex, next, cycle);
        phase := next;
        secondsLeft := 0;
        MoveToNextPhase(now);
        return;
      }
      assert target == Moved(next, cycle, nextSeconds);
      phase := next;
      secondsLeft := nextSeconds;
    }

    /**
     * One second of the browser clock: the interval callback runs when the
     * interval is live; without a selected exercise it stops the modal.
     */
    method Tick(now: int)
      requires Valid()
      modifies this`isRunning, this`isPaused, this`cycle, this`phase, this`secondsLeft, this`breathScale,
        this`intervalId, this`live, this`logsCell
      ensures Valid()
      ensures old(intervalId).None? ==>
        State() == old(State()) && live == old(live) && logsCell == old(logsCell) && breathScale == old(breathScale)
      ensures old(intervalId).Some? && selected.None? ==> State() == Stopped && live == {}
      ensures old(intervalId).Some? && selected.Some? ==>
        State() == TickSpec(selected.value, old(State())) &&
        (TickCompletes(selected.value, old(State())) ==>
          live == {} &&
          logsCell == AppendToLog(old(logsCell), ExerciseLog(selected.value.id, selected.value.name, now, selected.value.cycles))) &&
        (!TickCompletes(selected.value, old(State())) ==> live == old(live) && logsCell == old(logsCell))
    {
      if intervalId.None? {
        return;
      }
      if isPaused {
        return;
      }
      if selected.None? {
        Stop();
        return;
      }
      var seconds := secondsLeft - 1;
      secondsLeft := seconds;
      if seconds <= 0 {
        MoveToNextPhase(now);
      }
    }

    /** The animation effect: inhale grows the circle, exhale shrinks it, holds keep it. */
    method AnimationEffect()
      modifies this`breathScale
      ensures isRunning && !isPaused && phase == Inhale ==> breathScale == 1.5
      ensures isRunning && !isPaused && phase == Exhale ==> breathScale == 0.7
      ensures !(isRunning && !isPaused && (phase == Inhale || phase == Exhale)) ==> breathScale == old(breathScale)
    {
      if isRunning && !isPaused {
        if phase == Inhale {
          breathScale := 1.5;
        } else if phase == Exhale {
          breathScale := 0.7;
        }
      }
    }
  }
}
