// The video-call dialog (src/app/shared/video-call-modal/video-call-modal.component.ts):
// the MM:SS duration text, the one-second duration interval started and
// stopped as the call status changes, the three media toggles and ending
// the call.

module VideoCall {
  import opened Common

  // ---------------------------------------------------------------------
  // The duration text

  /** `padStart(2, '0')`. */
  function Pad2(s: string): (r: string)
    ensures |s| < 2 ==> r == seq(2 - |s|, _ => '0') + s
    ensures |s| >= 2 ==> r == s
  {
    if |s| == 0 then "00" else if |s| == 1 then "0" + s else s
  }

  /** `formatDuration`: whole minutes, a colon, the seconds within the minute, each padded to two digits. */
  function FormatDuration(seconds: nat): (r: string)
    ensures DurationShape(r)
    ensures TextToNat(r[..|r| - 3]) == seconds / 60 && TextToNat(r[|r| - 2..]) == seconds % 60
  {
    var m := Pad2(NatToText(seconds / 60));
    var s := Pad2(NatToText(seconds % 60));
    PaddedValue(seconds / 60);
    PaddedValue(seconds % 60);
    SmallPadsToTwo(seconds % 60);
    assert (m + ":" + s)[..|m|] == m;
    assert (m + ":" + s)[|m| + 1..] == s;
    m + ":" + s
  }

  predicate AllDigits(s: string)
  {
    forall i :: 0 <= i < |s| ==> IsDigit(s[i])
  }

  /** A padded number reads back as the number. */
  lemma PaddedValue(n: nat)
    ensures AllDigits(Pad2(NatToText(n))) && |Pad2(NatToText(n))| >= 2
    ensures TextToNat(Pad2(NatToText(n))) == n
  {
    var t := NatToText(n);
    NatTextRoundTrip(n);
    if |t| == 1 {
      LeadingZero(t);
    }
  }

  /** A number below 60 pads to exactly two digits. */
  lemma SmallPadsToTwo(n: nat)
    requires n < 60
    ensures |Pad2(NatToText(n))| == 2
  {
    if n >= 10 {
      assert NatToText(n) == NatToText(n / 10) + [DigitChar(n % 10)];
      assert n / 10 < 10;
    }
  }

  /** The shape of the text: digits, a colon, then exactly two digits. */
  predicate DurationShape(s: string)
  {
    |s| >= 5 && s[|s| - 3] == ':' && AllDigits(s[..|s| - 3]) && AllDigits(s[|s| - 2..])
  }

  /** Minutes times 60 plus seconds, read off a well-shaped text. */
  function ParseDuration(s: string): nat
    requires DurationShape(s)
  {
    TextToNat(s[..|s| - 3]) * 60 + TextToNat(s[|s| - 2..])
  }

  /** Reading the text back gives the duration. */
  lemma FormatDurationRoundTrip(seconds: nat)
    ensures ParseDuration(FormatDuration(seconds)) == seconds
  {
  }

  /** The text from its two padded parts. */
  lemma FormatParts(seconds: nat, m: string, sec: string)
    requires Pad2(NatToText(seconds / 60)) == m && Pad2(NatToText(seconds % 60)) == sec
    ensures FormatDuration(seconds) == m + ":" + sec
  {
  }

  /** Sixty-five seconds read "01:05"; an hour reads "60:00", since there is no hours field. */
  lemma FormatExamples()
    ensures FormatDuration(65) == "01:05"
    ensures FormatDuration(3600) == "60:00"
  {
    FormatMinuteExample();
    FormatHourExample();
  }

  lemma FormatMinuteExample()
    ensures FormatDuration(65) == "01:05"
  {
    assert NatToText(1) == "1" && NatToText(5) == "5";
    FormatParts(65, "01", "05");
  }

  lemma FormatHourExample()
    ensures FormatDuration(3600) == "60:00"
  {
    assert NatToText(60) == NatToText(6) + [DigitChar(0)] == "60";
    assert NatToText(0) == "0";
    FormatParts(3600, "60", "00");
  }

  // ---------------------------------------------------------------------
  // The media toggles

  datatype Controls = Controls(micMuted: bool, cameraOff: bool, screenSharing: bool)

  datatype Control = Mic | Camera | ScreenShare

  /** One toggle: exactly the named flag flips. */
  function Flip(c: Controls, which: Control): (r: Controls)
    ensures r.micMuted == (c.micMuted != (which == Mic))
    ensures r.cameraOff == (c.cameraOff != (which == Camera))
    ensures r.screenSharing == (c.screenSharing != (which == ScreenShare))
  {
    match which
    case Mic => c.(micMuted := !c.micMuted)
    case Camera => c.(cameraOff := !c.cameraOff)
    case ScreenShare => c.(screenSharing := !c.screenSharing)
  }

  /** The same toggle twice restores the controls. */
  lemma FlipTwice(c: Controls, which: Control)
    ensures Flip(Flip(c, which), which) == c
  {
  }

  /** Different toggles commute. */
  lemma FlipsCommute(c: Controls, a: Control, b: Control)
    ensures Flip(Flip(c, a), b) == Flip(Flip(c, b), a)
  {
  }

  // ---------------------------------------------------------------------
  // The dialog

  datatype Status = Connecting | Connected | Ended

  class VideoCallModal {
    var callStatus: Status
    var callDuration: nat
    var isMicMuted: bool
    var isCameraOff: bool
    var isScreenSharing: bool
    /** `durationInterval`: the handle of the live interval, if any. */
    var durationInterval: Option<nat>
    /** The handles of the intervals the browser would still run. */
    var live: set<nat>
    var nextHandle: nat
    /** How many times `close` was emitted. */
    var closeEvents: nat

    /** The only live interval is the one the field holds, and it runs only while connected. */
    ghost predicate Valid()
      reads this
    {
      0 < nextHandle && (forall h :: h in live ==> 0 < h < nextHandle) &&
      live == TimerSet(durationInterval) && (durationInterval.Some? ==> callStatus == Connected)
    }

    function ControlState(): Controls
      reads this
    {
      Controls(isMicMuted, isCameraOff, isScreenSharing)
    }

    /** The dialog opens connecting, with zero duration, no interval and every toggle off. */
    constructor ()
      ensures Valid() && callStatus == Connecting && callDuration == 0 && ControlState() == Controls(false, false, false)
      ensures durationInterval.None? && live == {} && closeEvents == 0
    {
      callStatus := Connecting;
      callDuration := 0;
      isMicMuted := false;
      isCameraOff := false;
      isScreenSharing := false;
      durationInterval := None;
      live := {};
      nextHandle := 1;
      closeEvents := 0;
    }

    /** `stopDurationTimer`: clears the live interval, if any; a second call changes nothing. */
    method StopDurationTimer()
      modifies this`durationInterval, this`live
      ensures durationInterval.None? && live == old(live) - TimerSet(old(durationInterval))
      ensures old(durationInterval).None? ==> live == old(live)
    {
      if durationInterval.Some? {
        live := live - {durationInterval.value};
        durationInterval := None;
      }
    }

    /** `startDurationTimer`: clears any live interval first, then starts a fresh one. */
    method StartDurationTimer()
      modifies this`durationInterval, this`live, this`nextHandle
      ensures durationInterval == Some(old(nextHandle)) && nextHandle == old(nextHandle) + 1
      ensures live == old(live) - TimerSet(old(durationInterval)) + {old(nextHandle)}
    {
      StopDurationTimer();
      durationInterval := Some(nextHandle);
      live := live + {nextHandle};
      nextHandle := nextHandle + 1;
    }

    /**
     * A new call status, with the effect that watches it: it runs only when
     * the status actually changes, starting the interval on connected and
     * stopping it otherwise.
     */
    method SetStatus(s: Status)
      requires Valid()
      modifies this`callStatus, this`durationInterval, this`live, this`nextHandle
      ensures Valid() && callStatus == s
      ensures s == old(callStatus) ==> durationInterval == old(durationInterval) && live == old(live)
      ensures s != old(callStatus) && s == Connected ==> durationInterval == Some(old(nextHandle)) && live == {old(nextHandle)}
      ensures s != Connected ==> durationInterval.None? && live == {}
    {
      if s == callStatus {
        return;
      }
      callStatus := s;
      if s == Connected {
        StartDurationTimer();
      } else {
        StopDurationTimer();
      }
    }

    /**
     * The 2-second connection timeout as written: it sets connected whatever
     * the status, so it also fires after `endCall`, and the effect then starts
     * the duration interval of an ended call.
     */
    method Connect()
      requires Valid() && callStatus != Connected
      modifies this`callStatus, this`durationInterval, this`live, this`nextHandle
      ensures Valid() && callStatus == Connected && durationInterval.Some? && |live| == 1
      ensures durationInterval == Some(old(nextHandle)) && live == {old(nextHandle)}
    {
      SetStatus(Connected);
    }

    /** The connection timeout as evidently intended: only a connecting call becomes connected. */
    method ConnectIfConnecting()
      requires Valid()
      modifies this`callStatus, this`durationInterval, this`live, this`nextHandle
      ensures Valid()
      ensures old(callStatus) == Connecting ==>
        callStatus == Connected && durationInterval == Some(old(nextHandle)) && live == {old(nextHandle)}
      ensures old(callStatus) != Connecting ==>
        callStatus == old(callStatus) && durationInterval == old(durationInterval) && live == old(live)
    {
      if callStatus == Connecting {
        SetStatus(Connected);
      }
    }

    /** One second of the browser clock: the duration grows by one exactly when the interval is live. */
    method Tick()
      requires Valid()
      modifies this`callDuration
      ensures Valid()
      ensures durationInterval.Some? ==> callDuration == old(callDuration) + 1
      ensures durationInterval.None? ==> callDuration == old(callDuration)
    {
      if durationInterval.Some? {
        callDuration := callDuration + 1;
      }
    }

    /** `formatDuration` of the current duration. */
    function DurationText(): string
      reads this
    {
      FormatDuration(callDuration)
    }

    method ToggleMic()
      modifies this`isMicMuted
      ensures ControlState() == Flip(old(ControlState()), Mic)
    {
      isMicMuted := !isMicMuted;
    }

    method ToggleCamera()
      modifies this`isCameraOff
      ensures ControlState() == Flip(old(ControlState()), Camera)
    {
      isCameraOff := !isCameraOff;
    }

    method ToggleScreenShare()
      modifies this`isScreenSharing
      ensures ControlState() == Flip(old(ControlState()), ScreenShare)
    {
      isScreenSharing := !isScreenSharing;
    }

    /** `endCall` with its delayed close run at once: the call is ended, no interval is live, close is emitted. */
    method EndCall()
      requires Valid()
      modifies this`callStatus, this`durationInterval, this`live, this`nextHandle, this`closeEvents
      ensures Valid() && callStatus == Ended && durationInterval.None? && live == {}
      ensures callDuration == old(callDuration) && closeEvents == old(closeEvents) + 1
    {
      SetStatus(Ended);
      closeEvents := closeEvents + 1;
    }

    /** `closeModal`: stops the interval and emits close, leaving the status as it is. */
    method CloseModal()
      requires Valid()
      modifies this`durationInterval, this`live, this`closeEvents
      ensures Valid() && durationInterval.None? && live == {} && callStatus == old(callStatus)
      ensures closeEvents == old(closeEvents) + 1
    {
      StopDurationTimer();
      closeEvents := closeEvents + 1;
    }

    /** `ngOnDestroy`: no interval outlives the dialog. */
    method Destroy()
      requires Valid()
      modifies this`durationInterval, this`live
      ensures Valid() && durationInterval.None? && live == {}
    {
      StopDurationTimer();
    }
  }

  /** A whole call: connect, `k` seconds, end. The text shown at the end is the MM:SS of `k`. */
  method CallFor(k: nat) returns (shown: string, m: VideoCallModal)
    ensures fresh(m) && m.Valid() && m.callStatus == Ended && m.live == {}
    ensures m.callDuration == k && shown == FormatDuration(k) && DurationShape(shown) && ParseDuration(shown) == k
  {
    m := new VideoCallModal();
    m.ConnectIfConnecting();
    var i := 0;
    while i < k
      invariant 0 <= i <= k
      invariant m.Valid() && m.callStatus == Connected && m.durationInterval.Some? && m.callDuration == i
      modifies m`callDuration
    {
      m.Tick();
      i := i + 1;
    }
    m.EndCall();
    shown := m.DurationText();
    FormatDurationRoundTrip(k);
  }

  /**
   * Ending the call within the first two seconds, as written: the connection
   * timeout still fires, the ended call shows connected again and its
   * duration interval runs until the delayed close.
   */
  method EndBeforeConnectAsWritten() returns (status: Status, liveIntervals: nat)
    ensures status == Connected && liveIntervals == 1
  {
    var m := new VideoCallModal();
    m.EndCall();
    m.Connect();
    status, liveIntervals := m.callStatus, |m.live|;
  }

  /** The same sequence with the corrected timeout: the call stays ended with no interval. */
  method EndBeforeConnect() returns (status: Status, liveIntervals: nat)
    ensures status == Ended && liveIntervals == 0
  {
    var m := new VideoCallModal();
    m.EndCall();
    m.ConnectIfConnecting();
    status, liveIntervals := m.callStatus, |m.live|;
  }
}
