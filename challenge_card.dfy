/**
 * The daily challenge card: which action button shows, how the estimated time becomes a
 * countdown, how the countdown is rendered, and the timer that runs it.
 */
module ChallengeCardModel {
  import opened Wrappers
  import opened Text
  import DailyChallengeModel

  // ---------------------------------------------------------------------------
  // Buttons

  predicate ShowsAccept(isCompleted: bool, timerRunning: bool) {
    !isCompleted && !timerRunning
  }

  predicate ShowsCancel(isCompleted: bool, timerRunning: bool) {
    timerRunning && !isCompleted
  }

  predicate ShowsShare(isCompleted: bool, timerRunning: bool) {
    isCompleted
  }

  /** The three visibility conditions partition the states: exactly one action button is on the card. */
  lemma ExactlyOneButton(isCompleted: bool, timerRunning: bool)
    ensures ShowsAccept(isCompleted, timerRunning) || ShowsCancel(isCompleted, timerRunning) || ShowsShare(isCompleted, timerRunning)
    ensures !(ShowsAccept(isCompleted, timerRunning) && ShowsCancel(isCompleted, timerRunning))
    ensures !(ShowsAccept(isCompleted, timerRunning) && ShowsShare(isCompleted, timerRunning))
    ensures !(ShowsCancel(isCompleted, timerRunning) && ShowsShare(isCompleted, timerRunning))
  {
  }

  // ---------------------------------------------------------------------------
  // Parsing the estimated time

  /**
   * `parseEstimatedTime`: the first space-separated piece times 60 when it parses as an `Int`
   * and some piece is exactly "min"; 10 otherwise.
   */
  function ParseEstimatedTime(text: string): int {
    var comps := Split(text, ' ');
    var num := ParseInt(comps[0]);
    if num.Some? && "min" in comps then num.value * 60 else 10
  }

  /** "N min" is N minutes, in seconds. */
  lemma MinutesParse(n: nat)
    requires n <= IntMax
    ensures ParseEstimatedTime(NatToString(n) + " min") == n * 60
  {
    var digits := NatToString(n);
    assert ' ' !in digits;
    SplitWithoutSeparator("min", ' ');
    SplitAtFirst(digits, ' ', "min");
    assert digits + " min" == digits + [' '] + "min";
    ParseIntRoundTrip(n);
    assert IntToString(n) == digits;
  }

  /** "N mins" has no piece equal to "min": whatever N, it parses to the ten-second default. */
  lemma MinsParseToTen(digits: string)
    requires digits != [] && AllDigits(digits)
    ensures ParseEstimatedTime(digits + " mins") == 10
  {
    assert ' ' !in digits;
    SplitWithoutSeparator("mins", ' ');
    SplitAtFirst(digits, ' ', "mins");
    assert digits + " mins" == digits + [' '] + "mins";
    assert "min" != digits by {
      assert !IsDigit("min"[0]);
    }
  }

  /** Every generated challenge counts down for ten seconds. */
  lemma TemplateTimesParseToTen()
    ensures forall j | 0 <= j < 9 :: ParseEstimatedTime(DailyChallengeModel.TemplateTime(j)) == 10
  {
    forall j | 0 <= j < 9 ensures ParseEstimatedTime(DailyChallengeModel.TemplateTime(j)) == 10 {
      MinsParseToTen(NatToString(DailyChallengeModel.TemplateMinutes[j]));
    }
  }

  // ---------------------------------------------------------------------------
  // Formatting the countdown

  /** Swift's `/` on `Int`, which truncates toward zero. */
  function TruncDiv(a: int, b: int): int
    requires b > 0
  {
    if a >= 0 then a / b else -((-a) / b)
  }

  /** Swift's `%` on `Int`: the remainder takes the sign of the dividend. */
  function TruncRem(a: int, b: int): (r: int)
    requires b > 0
    ensures a == TruncDiv(a, b) * b + r
    ensures a >= 0 ==> 0 <= r < b
    ensures a < 0 ==> -b < r <= 0
  {
    if a >= 0 then a % b else -((-a) % b)
  }

  /** `%02d`: the decimal form, with a leading zero when it would be a single digit. */
  function Pad2(i: int): (r: string)
    ensures |r| >= 2
  {
    if 0 <= i < 10 then "0" + NatToString(i) else IntToString(i)
  }

  /** `formatTime`: minutes and seconds, zero-padded, separated by a colon. */
  function FormatTime(seconds: int): string {
    Pad2(TruncDiv(seconds, 60)) + ":" + Pad2(TruncRem(seconds, 60))
  }

  /** A zero-padded field of a value under 100 is its two digits, and reads back as the value. */
  lemma Pad2TwoDigits(i: nat)
    requires i < 100
    ensures |Pad2(i)| == 2 && AllDigits(Pad2(i)) && DigitsValue(Pad2(i)) == i
  {
    if i < 10 {
      var r := "0" + NatToString(i);
      assert NatToString(i) == [DigitChar(i)];
      assert r[..|r| - 1] == "0";
      assert DigitsValue("0") == 0 by {
        assert "0"[..0] == [];
      }
    } else {
      assert NatToString(i) == NatToString(i / 10) + [DigitChar(i % 10)];
      assert NatToString(i / 10) == [DigitChar(i / 10)];
      NatToStringRoundTrip(i);
    }
  }

  /**
   * For a non-negative count below 100 minutes the rendering is "MM:SS": two digit fields
   * around a colon, the seconds field in 0..59, reading back the count.
   */
  lemma FormatTimeRoundTrip(seconds: nat)
    requires seconds < 6000
    ensures var r := FormatTime(seconds);
      |r| == 5 && r[2] == ':'
      && AllDigits(r[..2]) && AllDigits(r[3..])
      && DigitsValue(r[3..]) < 60
      && DigitsValue(r[..2]) * 60 + DigitsValue(r[3..]) == seconds
  {
    var m := seconds / 60;
    var s := seconds % 60;
    Pad2TwoDigits(m);
    Pad2TwoDigits(s);
    var r := FormatTime(seconds);
    assert r == Pad2(m) + ":" + Pad2(s);
    assert r[..2] == Pad2(m);
    assert r[3..] == Pad2(s);
  }

  // ---------------------------------------------------------------------------
  // The countdown timer

  /** The card's timer state: `timerRunning`, `remainingSeconds`, `showTimer`. */
  datatype TimerState = TimerState(timerRunning: bool, remainingSeconds: int, showTimer: bool)

  const Idle: TimerState := TimerState(false, 0, false)

  /** A timer step and the store action its callback sends, if any. */
  datatype TimerStep = TimerStep(state: TimerState, callback: Option<DailyChallengeModel.Action>)

  /** `startTimer`: count down from the parsed estimate, show the timer, and accept the challenge. */
  function Start(estimatedTime: string): TimerStep {
    TimerStep(TimerState(true, ParseEstimatedTime(estimatedTime), true), Some(DailyChallengeModel.OnAccept))
  }

  /** `stopTimer`: invalidate the timer and hide it; the count stays. */
  function Stop(t: TimerState): TimerState {
    t.(timerRunning := false, showTimer := false)
  }

  /**
   * One firing of the repeating timer. A stopped timer is invalidated and never fires; a running
   * one counts down while seconds remain, and at zero stops and completes the challenge.
   */
  function Tick(t: TimerState): TimerStep {
    if !t.timerRunning then TimerStep(t, None)
    else if t.remainingSeconds > 0 then TimerStep(t.(remainingSeconds := t.remainingSeconds - 1), None)
    else TimerStep(Stop(t), Some(DailyChallengeModel.OnComplete))
  }

  /** The Cancel button: stop the timer, then cancel the challenge. */
  function CancelTapped(t: TimerState): TimerStep {
    TimerStep(Stop(t), Some(DailyChallengeModel.OnCancel))
  }

  /** The state after `n` firings (callbacks dropped). */
  function Ticks(t: TimerState, n: nat): TimerState
    decreases n
  {
    if n == 0 then t else Ticks(Tick(t).state, n - 1)
  }

  /** A tick keeps a non-negative count non-negative, and never increases it. */
  lemma TickNeverNegative(t: TimerState)
    requires t.remainingSeconds >= 0
    ensures 0 <= Tick(t).state.remainingSeconds <= t.remainingSeconds
  {
  }

  /** A running timer with `d` seconds left counts down to zero in `d` ticks, still running and shown. */
  lemma {:induction false} CountsDown(t: TimerState, d: nat)
    requires t.timerRunning && t.remainingSeconds == d
    ensures Ticks(t, d) == t.(remainingSeconds := 0)
    decreases d
  {
    if d > 0 {
      CountsDown(Tick(t).state, d - 1);
    }
  }

  /**
   * Accepting a generated challenge shows the timer at 10 seconds; ten ticks later it reads 0, and
   * the eleventh stops and hides the timer and completes the challenge.
   */
  lemma AcceptedChallengeCompletes(j: nat)
    requires j < 9
    ensures var started := Start(DailyChallengeModel.TemplateTime(j));
      started.callback == Some(DailyChallengeModel.OnAccept)
      && Ticks(started.state, 10) == TimerState(true, 0, true)
      && Tick(TimerState(true, 0, true)) == TimerStep(TimerState(false, 0, false), Some(DailyChallengeModel.OnComplete))
  {
    TemplateTimesParseToTen();
    CountsDown(Start(DailyChallengeModel.TemplateTime(j)).state, 10);
  }

  /** The card's timer, holding its state in place as the view's `@State` does. */
  class CardTimer {
    var timerRunning: bool
    var remainingSeconds: int
    var showTimer: bool

    function Snapshot(): TimerState
      reads this
    {
      TimerState(timerRunning, remainingSeconds, showTimer)
    }

    constructor ()
      ensures Snapshot() == Idle
    {
      timerRunning := false;
      remainingSeconds := 0;
      showTimer := false;
    }

    method StartTimer(estimatedTime: string) returns (callback: Option<DailyChallengeModel.Action>)
      modifies this
      ensures TimerStep(Snapshot(), callback) == Start(estimatedTime)
    {
      var duration := ParseEstimatedTime(estimatedTime);
      remainingSeconds := duration;
      timerRunning := true;
      showTimer := true;
      callback := Some(DailyChallengeModel.OnAccept);
    }

    method StopTimer()
      modifies this
      ensures Snapshot() == Stop(old(Snapshot()))
    {
      timerRunning := false;
      showTimer := false;
    }

    method Fire() returns (callback: Option<DailyChallengeModel.Action>)
      modifies this
      ensures TimerStep(Snapshot(), callback) == Tick(old(Snapshot()))
    {
      callback := None;
      if !timerRunning {
        return;
      }
      if remainingSeconds > 0 {
        remainingSeconds := remainingSeconds - 1;
      } else {
        StopTimer();
        callback := Some(DailyChallengeModel.OnComplete);
      }
    }

    method Cancel() returns (callback: Option<DailyChallengeModel.Action>)
      modifies this
      ensures TimerStep(Snapshot(), callback) == CancelTapped(old(Snapshot()))
    {
      StopTimer();
      callback := Some(DailyChallengeModel.OnCancel);
    }

  }
}
