// The guided 4-4-4-4 ("box") breathing session of the coaching page
// (src/app/coaching/coaching.ts, lines 216-341).
//
// The engine's observable fields are a value (`EngineState`); one second of
// the browser's interval is the pure step `TickBody`, and the lemmas below are
// about its iterates. The class `BreathingSession` holds the same fields, the
// interval handle and the two storage keys, and each method is proved to move
// its fields exactly as the pure step says.

module BoxBreathing {
  import opened Common

  /** The four phases of one breathing cycle. */
  datatype Phase = Inhale | Hold1 | Exhale | Hold2

  /** Length of a whole session in seconds. */
  const BreathTotal: int := 120
  /** Length of every phase in seconds. */
  const PhaseLen: int := 4
  /** Kind written into every completion log entry. */
  const LogKind: string := "box-4-4-4-4"

  /** The phase table of `advanceBreathPhase`. */
  function NextPhase(p: Phase): Phase
  {
    match p
    case Inhale => Hold1
    case Hold1 => Exhale
    case Exhale => Hold2
    case Hold2 => Inhale
  }

  /** Phase number `i` of a cycle, counting inhale as 0. */
  function PhaseAt(i: int): Phase
    requires 0 <= i < 4
  {
    if i == 0 then Inhale else if i == 1 then Hold1 else if i == 2 then Exhale else Hold2
  }

  /** What is kept under the state key: each field may be missing or of another type. */
  datatype Snapshot = Snapshot(phase: Option<Phase>, phaseLeft: Option<int>, totalLeft: Option<int>)

  /** One entry of the completion log. */
  datatype BreathLog = BreathLog(ts: int, durationSec: int, kind: string)

  /** The five signals of the engine. */
  datatype EngineState = EngineState(phase: Phase, secondsLeft: int, totalLeft: int, running: bool, completed: bool)

  /** The state `resetBreathing` leaves. */
  const ResetState := EngineState(Inhale, PhaseLen, BreathTotal, false, false)

  /** The reset state after `startBreathing`. */
  const Started := ResetState.(running := true)

  /** What `saveBreathState` writes. */
  function SnapshotOf(e: EngineState): Snapshot
  {
    Snapshot(Some(e.phase), Some(e.secondsLeft), Some(e.totalLeft))
  }

  /** The engine `openBreathing` shows for the contents of the state key. */
  function Restore(c: Cell<Snapshot>): (e: EngineState)
    ensures !e.running && !e.completed
  {
    match c
    case Stored(s) =>
      EngineState(s.phase.GetOr(Inhale), s.phaseLeft.GetOr(PhaseLen), s.totalLeft.GetOr(BreathTotal), false, false)
    case _ => ResetState
  }

  /** Restoring a saved snapshot gives back the saved position, stopped and not completed. */
  lemma RestoreRoundTrip(e: EngineState)
    ensures Restore(Stored(SnapshotOf(e))) == e.(running := false, completed := false)
  {
  }

  /** A missing or unparsable snapshot gives the reset state. */
  lemma RestoreFallback(c: Cell<Snapshot>)
    requires !c.Stored?
    ensures Restore(c) == ResetState
  {
  }

  /** `completeBreathing` on the signals: stopped and completed, position kept. */
  function Completed(e: EngineState): EngineState
  {
    e.(running := false, completed := true)
  }

  /** One run of the interval callback `tickBreathing`. */
  function TickBody(e: EngineState): (r: EngineState)
    ensures e.totalLeft > 0 ==> r.totalLeft == e.totalLeft - 1
    ensures e.totalLeft > 0 && e.secondsLeft > 1 ==> r.phase == e.phase && r.secondsLeft == e.secondsLeft - 1
    ensures e.totalLeft > 0 && e.secondsLeft <= 1 ==> r.phase == NextPhase(e.phase) && r.secondsLeft == PhaseLen
    ensures e.totalLeft <= 0 ==> r == Completed(e)
    ensures r.completed <==> e.completed || e.totalLeft <= 1
    ensures r.running <==> e.running && e.totalLeft > 1
  {
    if e.totalLeft <= 0 then Completed(e)
    else
      var s := e.secondsLeft - 1;
      var t := e.totalLeft - 1;
      var d := if s <= 0 then e.(phase := NextPhase(e.phase), secondsLeft := PhaseLen, totalLeft := t)
               else e.(secondsLeft := s, totalLeft := t);
      if t <= 0 then Completed(d) else d
  }

  /** One second of the browser clock: the callback runs only while the interval is live. */
  function Step(e: EngineState): EngineState
  {
    if e.running then TickBody(e) else e
  }

  /** `k` seconds of the browser clock. */
  function Run(e: EngineState, k: nat): EngineState
  {
    if k == 0 then e else Step(Run(e, k - 1))
  }

  /** The phase countdown is a whole phase or less, but not empty. */
  predicate InRange(e: EngineState)
  {
    1 <= e.secondsLeft <= PhaseLen
  }

  /** Once the phase countdown is in 1..4, it stays there after every tick. */
  lemma {:induction false} RunKeepsInRange(e: EngineState, k: nat)
    requires InRange(e)
    ensures InRange(Run(e, k))
  {
    if k > 0 {
      RunKeepsInRange(e, k - 1);
    }
  }

  /**
   * A running session that is not completed and has `totalLeft` seconds to go
   * completes after exactly `totalLeft` seconds, and counts down by one until then.
   */
  lemma {:induction false} Countdown(e: EngineState, k: nat)
    requires e.running && !e.completed && e.totalLeft >= 1
    ensures Run(e, k).completed <==> k >= e.totalLeft
    ensures Run(e, k).completed ==> !Run(e, k).running
    ensures k < e.totalLeft ==> Run(e, k).running && Run(e, k).totalLeft == e.totalLeft - k
  {
    if k > 0 {
      Countdown(e, k - 1);
    }
  }

  /** From the reset state, exactly 120 seconds of running set `completed`. */
  lemma {:induction false} ResetCompletesAfter120(k: nat)
    ensures Run(Started, k).completed <==> k >= BreathTotal
  {
    Countdown(Started, k);
  }

  /**
   * Where a session started from the reset state stands after `k` < 120
   * seconds: phase number (k / 4) mod 4, with 4 - k mod 4 seconds of it left.
   */
  lemma {:induction false} ResetSchedule(k: nat)
    requires k < BreathTotal
    ensures Run(Started, k)
         == EngineState(PhaseAt((k / PhaseLen) % 4), PhaseLen - k % PhaseLen, BreathTotal - k, true, false)
  {
    if k > 0 {
      ResetSchedule(k - 1);
      var j := k - 1;
      if j % 4 == 3 {
        assert k % 4 == 0 && k / 4 == j / 4 + 1;
        assert NextPhase(PhaseAt((j / 4) % 4)) == PhaseAt((k / 4) % 4);
      } else {
        assert k % 4 == j % 4 + 1 && k / 4 == j / 4;
      }
    }
  }

  /**
   * `breathProgress`: the share of the 120 seconds used, as a rounded
   * percentage, computed in doubles. The double of (120 - 51) / 120 * 100 is
   * 57.49999999999999, so with 51 seconds left the page shows 57 where the
   * exact quotient rounds to 58; every other count in 0..120 rounds as the
   * exact quotient does.
   */
  function BreathProgress(totalLeft: int): (r: int)
    ensures 0 <= totalLeft <= BreathTotal ==> 0 <= r <= 100
  {
    if totalLeft == 51 then 57 else RoundDiv((BreathTotal - totalLeft) * 100, BreathTotal)
  }

  /** The one count where the double and the exact quotient round apart. */
  lemma DoubleRoundingAt51()
    ensures BreathProgress(51) == 57 && RoundDiv((BreathTotal - 51) * 100, BreathTotal) == 58
  {
  }

  /** Progress is 0 exactly at the start, 100 exactly at the end, and in 0..100 between. */
  lemma ProgressBounds(totalLeft: int)
    requires 0 <= totalLeft <= BreathTotal
    ensures 0 <= BreathProgress(totalLeft) <= 100
    ensures BreathProgress(totalLeft) == 0 <==> totalLeft == BreathTotal
    ensures BreathProgress(totalLeft) == 100 <==> totalLeft == 0
  {
  }

  /** Progress never goes down while `totalLeft` does. */
  lemma ProgressMonotone(before: int, after: int)
    requires after <= before
    ensures BreathProgress(before) <= BreathProgress(after)
  {
    RoundDivMonotone((BreathTotal - before) * 100, (BreathTotal - after) * 100, BreathTotal);
    if before == 51 && after != 51 {
      RoundDivMonotone((BreathTotal - 51) * 100, (BreathTotal - after) * 100, BreathTotal);
    } else if after == 51 && before != 51 {
      RoundDivMonotone((BreathTotal - before) * 100, (BreathTotal - 52) * 100, BreathTotal);
    }
  }

  /**
   * The breathing part of the coaching page: the five signals, the modal flag,
   * the interval handle, the intervals the browser runs, and the state and log keys.
   */
  class BreathingSession {
    var phase: Phase
    var secondsLeft: int
    var totalLeft: int
    var running: bool
    var completed: bool
    var showModal: bool
    /** `breathTimer`. */
    var timer: Option<nat>
    /** Handles of the intervals the browser is running. */
    var live: set<nat>
    /** The handle the next `setInterval` returns; browser handles are positive. */
    var nextHandle: nat
    /** The key 'mindora_breath_state'. */
    var stateCell: Cell<Snapshot>
    /** The key 'mindora_breath_logs'. */
    var logsCell: Cell<seq<BreathLog>>

    function State(): EngineState
      reads this
    {
      EngineState(phase, secondsLeft, totalLeft, running, completed)
    }

    /** Every live handle was handed out before. */
    ghost predicate FreshHandles()
      reads this
    {
      0 < nextHandle && forall h :: h in live ==> 0 < h < nextHandle
    }

    /** The interval is live exactly while the session runs, and it is the only one. */
    ghost predicate Valid()
      reads this
    {
      FreshHandles() && live == TimerSet(timer) && (running <==> timer.Some?) && (running ==> !completed)
    }

    constructor (state: Cell<Snapshot>, logs: Cell<seq<BreathLog>>)
      ensures Valid() && State() == ResetState && !showModal && live == {}
      ensures stateCell == state && logsCell == logs
    {
      phase := Inhale;
      secondsLeft := PhaseLen;
      totalLeft := BreathTotal;
      running := false;
      completed := false;
      showModal := false;
      timer := None;
      live := {};
      nextHandle := 1;
      stateCell := state;
      logsCell := logs;
    }

    /** `saveBreathState`. */
    method SaveBreathState()
      modifies this`stateCell
      ensures stateCell == Stored(SnapshotOf(State()))
    {
      stateCell := Stored(Snapshot(Some(phase), Some(secondsLeft), Some(totalLeft)));
    }

    /** `pauseBreathing`: stop the interval and save the position. */
    method PauseBreathing()
      requires Valid()
      modifies this`running, this`timer, this`live, this`stateCell
      ensures Valid() && !running && timer.None? && live == {}
      ensures stateCell == Stored(SnapshotOf(State()))
    {
      running := false;
      if timer.Some? {
        live := live - {timer.value};
        timer := None;
      }
      SaveBreathState();
    }

    /** `resetBreathing`: back to inhale, 4, 120, and no saved position. */
    method ResetBreathing()
      requires Valid()
      modifies this`running, this`timer, this`live, this`stateCell, this`phase, this`secondsLeft,
        this`totalLeft, this`completed
      ensures Valid() && State() == ResetState && live == {}
      ensures stateCell == Absent
    {
      PauseBreathing();
      phase := Inhale;
      secondsLeft := PhaseLen;
      totalLeft := BreathTotal;
      completed := false;
      stateCell := Absent;
    }

    /** `startBreathing`: does nothing when completed or already running. */
    method StartBreathing()
      requires FreshHandles()
      modifies this`running, this`timer, this`live, this`nextHandle
      ensures FreshHandles()
      ensures old(Valid()) ==> Valid()
      ensures old(completed || running) ==> running == old(running) && timer == old(timer) && live == old(live)
      ensures !old(completed || running) ==>
        running && timer == Some(old(nextHandle)) && live == old(live) + {old(nextHandle)}
    {
      if completed {
        return;
      }
      if running {
        return;
      }
      running := true;
      timer := Some(nextHandle);
      live := live + {nextHandle};
      nextHandle := nextHandle + 1;
    }

    /** `advanceBreathPhase`. */
    method AdvanceBreathPhase()
      modifies this`phase, this`secondsLeft
      ensures phase == NextPhase(old(phase)) && secondsLeft == PhaseLen
    {
      phase := NextPhase(phase);
      secondsLeft := PhaseLen;
    }

    /**
     * `completeBreathing`: stop, mark completed, append one log entry and drop
     * the saved position. When the log key does not parse, JSON.parse throws:
     * the log keeps its text and the position saved by the pause stays.
     */
    method CompleteBreathing(now: int)
      requires Valid()
      modifies this`running, this`timer, this`live, this`stateCell, this`completed, this`logsCell
      ensures Valid() && State() == Completed(old(State())) && live == {}
      ensures logsCell == AppendToLog(old(logsCell), BreathLog(now, BreathTotal, LogKind))
      ensures stateCell == if old(logsCell).Unparsable? then Stored(SnapshotOf(State())) else Absent
    {
      PauseBreathing();
      completed := true;
      match logsCell {
        case Unparsable =>
          return;
        case Absent =>
          logsCell := Stored([BreathLog(now, BreathTotal, LogKind)]);
        case Stored(logs) =>
          logsCell := Stored(logs + [BreathLog(now, BreathTotal, LogKind)]);
      }
      stateCell := Absent;
    }

    /** `tickBreathing`, the body of the interval callback. */
    method TickBreathing(now: int)
      requires Valid() && running
      modifies this`running, this`timer, this`live, this`stateCell, this`completed, this`logsCell,
        this`phase, this`secondsLeft, this`totalLeft
      ensures Valid() && State() == TickBody(old(State()))
      ensures !completed ==> stateCell == Stored(SnapshotOf(State())) && logsCell == old(logsCell)
      ensures completed ==> logsCell == AppendToLog(old(logsCell), BreathLog(now, BreathTotal, LogKind))
      ensures completed ==> stateCell == if old(logsCell).Unparsable? then Stored(SnapshotOf(State())) else Absent
    {
      if totalLeft <= 0 {
        CompleteBreathing(now);
        return;
      }
      secondsLeft := secondsLeft - 1;
      totalLeft := totalLeft - 1;
      if secondsLeft <= 0 {
        AdvanceBreathPhase();
      }
      SaveBreathState();
      if totalLeft <= 0 {
        CompleteBreathing(now);
      }
    }

    /** One second of the browser clock: the callback runs when the interval is live. */
    method Tick(now: int)
      requires Valid()
      modifies this`running, this`timer, this`live, this`stateCell, this`completed, this`logsCell,
        this`phase, this`secondsLeft, this`totalLeft
      ensures Valid() && State() == Step(old(State()))
      ensures !old(running) ==> stateCell == old(stateCell) && logsCell == old(logsCell) && live == old(live)
      ensures old(running) && !completed ==> stateCell == Stored(SnapshotOf(State())) && logsCell == old(logsCell)
      ensures old(running) && completed ==>
        logsCell == AppendToLog(old(logsCell), BreathLog(now, BreathTotal, LogKind)) &&
        stateCell == if old(logsCell).Unparsable? then Stored(SnapshotOf(State())) else Absent
    {
      if timer.Some? {
        TickBreathing(now);
      }
    }

    /**
     * `openBreathing`, corrected: the running interval is cleared first, then
     * the saved position (or the reset state) is shown.
     */
    method OpenBreathing()
      requires Valid()
      modifies this
      ensures Valid() && showModal && live == {} && nextHandle == old(nextHandle)
      ensures State() == Restore(old(stateCell))
      ensures stateCell == if old(stateCell).Stored? then old(stateCell) else Absent
      ensures logsCell == old(logsCell)
    {
      if timer.Some? {
        live := live - {timer.value};
        timer := None;
      }
      running := false;
      match stateCell {
        case Stored(s) =>
          phase := s.phase.GetOr(Inhale);
          secondsLeft := s.phaseLeft.GetOr(PhaseLen);
          totalLeft := s.totalLeft.GetOr(BreathTotal);
          completed := false;
        case _ =>
          ResetBreathing();
      }
      showModal := true;
    }

    /**
     * `openBreathing` as written: the snapshot path sets `running` to false
     * but leaves the interval live.
     */
    method OpenBreathingAsWritten()
      requires Valid()
      modifies this
      ensures FreshHandles() && showModal && nextHandle == old(nextHandle)
      ensures State() == Restore(old(stateCell))
      ensures old(stateCell).Stored? ==> stateCell == old(stateCell) && timer == old(timer) && live == old(live)
      ensures !old(stateCell).Stored? ==> Valid() && stateCell == Absent && live == {}
      ensures logsCell == old(logsCell)
    {
      match stateCell {
        case Stored(s) =>
          phase := s.phase.GetOr(Inhale);
          secondsLeft := s.phaseLeft.GetOr(PhaseLen);
          totalLeft := s.totalLeft.GetOr(BreathTotal);
          completed := false;
          running := false;
        case _ =>
          ResetBreathing();
      }
      showModal := true;
    }

    /** `closeBreathing`. */
    method CloseBreathing()
      requires Valid()
      modifies this`running, this`timer, this`live, this`stateCell, this`showModal
      ensures Valid() && !showModal && !running && live == {}
      ensures stateCell == Stored(SnapshotOf(State()))
    {
      PauseBreathing();
      showModal := false;
    }
  }

  /**
   * Start a session, let one second pass, reopen the modal, start again:
   * with `openBreathing` as written two intervals are then live, and the
   * countdown would run at twice the speed.
   */
  method ReopenWhileRunningAsWritten() returns (liveIntervals: nat)
    ensures liveIntervals == 2
  {
    var s := new BreathingSession(Absent, Absent);
    s.OpenBreathing();
    s.StartBreathing();
    s.Tick(0);
    s.OpenBreathingAsWritten();
    var first := s.live;
    assert first == {s.timer.value} && first == s.live;
    s.StartBreathing();
    assert s.live == first + {s.timer.value} && s.timer.value !in first;
    liveIntervals := |s.live|;
  }

  /** The same sequence with the corrected `OpenBreathing` leaves one interval live. */
  method ReopenWhileRunning() returns (liveIntervals: nat)
    ensures liveIntervals == 1
  {
    var s := new BreathingSession(Absent, Absent);
    s.OpenBreathing();
    s.StartBreathing();
    s.Tick(0);
    s.OpenBreathing();
    s.StartBreathing();
    liveIntervals := |s.live|;
  }
}
