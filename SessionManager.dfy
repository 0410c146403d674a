/**
 * The run's clock and end condition: a session runs until the player dies,
 * the time limit expires or it is ended by hand; it can be paused and resumed
 * while it runs, and ending it stops the enemy spawner. Engine time is passed
 * in as `now`.
 */
module SessionManager {
  import opened Numeric
  import opened EnemySpawner

  datatype GameOverReason = PlayerDeath | TimeUp | Manual

  /** Seconds left: never negative with the limit on, float.MaxValue with it off. */
  function TimeRemaining(enableTimeLimit: bool, sessionDuration: real, elapsed: real): (r: real)
    ensures !enableTimeLimit ==> r == FloatMaxValue
    ensures enableTimeLimit ==> r >= 0.0 && r >= sessionDuration - elapsed
    ensures enableTimeLimit ==> r == 0.0 || r == sessionDuration - elapsed
  {
    if !enableTimeLimit then FloatMaxValue else Max(0.0, sessionDuration - elapsed)
  }

  /** With the limit on, time is up exactly when the elapsed time reaches the duration. */
  lemma TimeUpIffDurationReached(sessionDuration: real, elapsed: real)
    ensures TimeRemaining(true, sessionDuration, elapsed) <= 0.0 <==> elapsed >= sessionDuration
  {
  }

  /** With the limit on, the time left never grows as time passes. */
  lemma TimeRemainingNonIncreasing(sessionDuration: real, e1: real, e2: real)
    requires e1 <= e2
    ensures TimeRemaining(true, sessionDuration, e2) <= TimeRemaining(true, sessionDuration, e1)
  {
  }

  /** The remainder of C#'s float `%`: truncated division, so the result takes the sign of the dividend. */
  function TruncatedRem(x: real, y: real): (r: real)
    requires y > 0.0
    ensures x >= 0.0 ==> 0.0 <= r < y
    ensures x < 0.0 ==> -y < r <= 0.0
  {
    FloorDivBounds(x, y);
    FloorDivBounds(-x, y);
    if x >= 0.0 then x - y * (x / y).Floor as real
    else -((-x) - y * ((-x) / y).Floor as real)
  }

  /** y times the floor of x / y is the largest multiple of y not above x. */
  lemma FloorDivBounds(x: real, y: real)
    requires y > 0.0
    ensures y * (x / y).Floor as real <= x < y * (x / y).Floor as real + y
  {
    var q := (x / y).Floor as real;
    var d := x / y;
    assert q <= d < q + 1.0;
    assert y * d == x;
    ScaleNonNegative(y, q, d);
    var gap := q + 1.0 - d;
    MulPositive(y, gap);
    assert y * gap == y * q + y - y * d;
    assert y * gap > 0.0;
    assert y * q + y - y * d > 0.0;
    assert y * q + y > x;
  }

  /** The value of a decimal digit character. */
  function DigitValue(c: char): (d: int)
    requires '0' <= c <= '9'
    ensures 0 <= d <= 9
  {
    c as int - '0' as int
  }

  function DigitChar(d: int): (c: char)
    requires 0 <= d <= 9
    ensures '0' <= c <= '9' && DigitValue(c) == d
  {
    ('0' as int + d) as char
  }

  predicate AllDigits(s: string)
  {
    forall i :: 0 <= i < |s| ==> '0' <= s[i] <= '9'
  }

  /** The number a digit string denotes (most significant digit first). */
  function DecimalValue(s: string): nat
    requires AllDigits(s)
  {
    if |s| == 0 then 0 else DecimalValue(s[..|s| - 1]) * 10 + DigitValue(s[|s| - 1])
  }

  /** The shortest decimal representation of n. */
  function DecimalString(n: nat): (s: string)
    ensures |s| >= 1 && AllDigits(s)
    ensures n >= 10 ==> |s| >= 2
  {
    if n < 10 then [DigitChar(n)] else DecimalString(n / 10) + [DigitChar(n % 10)]
  }

  /** Printing a number and reading it back gives the number. */
  lemma {:induction false} DecimalRoundTrip(n: nat)
    ensures DecimalValue(DecimalString(n)) == n
  {
    if n >= 10 {
      var s := DecimalString(n);
      assert s[..|s| - 1] == DecimalString(n / 10);
      DecimalRoundTrip(n / 10);
    }
  }

  /** A leading zero does not change the value of a digit string. */
  lemma {:induction false} LeadingZero(s: string)
    requires AllDigits(s)
    ensures AllDigits("0" + s) && DecimalValue("0" + s) == DecimalValue(s)
  {
    assert AllDigits("0" + s);
    if |s| > 0 {
      assert ("0" + s)[..|s|] == "0" + s[..|s| - 1];
      LeadingZero(s[..|s| - 1]);
    }
  }

  /** The "00" custom format of a non-negative number: at least two digits. */
  function ZeroPad2(n: nat): (s: string)
    ensures |s| >= 2 && AllDigits(s) && DecimalValue(s) == n
    ensures n < 100 ==> |s| == 2
  {
    DecimalRoundTrip(n);
    if n < 10 then
      LeadingZero(DecimalString(n));
      "0" + DecimalString(n)
    else
      assert n < 100 ==> DecimalString(n) == DecimalString(n / 10) + [DigitChar(n % 10)];
      DecimalString(n)
  }

  /** The "00" custom format of any int: a minus sign before the padded magnitude when negative. */
  function Pad2(n: int): (s: string)
    ensures n >= 0 ==> s == ZeroPad2(n)
    ensures n < 0 ==> s == "-" + ZeroPad2(-n)
  {
    if n < 0 then "-" + ZeroPad2(-n) else ZeroPad2(n)
  }

  /** Whole minutes and seconds of a time, as the clock shows them. */
  function ClockMinutes(t: real): int { (t / 60.0).Floor }

  function ClockSeconds(t: real): int { TruncatedRem(t, 60.0).Floor }

  /** "MM:SS" for a time in seconds. */
  function FormatClock(t: real): string
  {
    Pad2(ClockMinutes(t)) + ":" + Pad2(ClockSeconds(t))
  }

  /**
   * For a non-negative time the seconds field lies in 0..59, the minutes
   * are non-negative, and together they are the time rounded down to a
   * whole second.
   */
  lemma ClockFields(t: real)
    requires t >= 0.0
    ensures 0 <= ClockSeconds(t) <= 59 && ClockMinutes(t) >= 0
    ensures (60 * ClockMinutes(t) + ClockSeconds(t)) as real <= t < (60 * ClockMinutes(t) + ClockSeconds(t) + 1) as real
  {
    var q := (t / 60.0).Floor;
    assert q as real <= t / 60.0 < q as real + 1.0;
    assert 60.0 * (q as real) <= t < 60.0 * (q as real) + 60.0;
    var r := t - 60.0 * q as real;
    assert TruncatedRem(t, 60.0) == r;
  }

  /**
   * Below 100 minutes the clock string is exactly five characters, "MM:SS",
   * and reading its two fields back gives the minutes and the seconds.
   */
  lemma ClockStringParses(t: real)
    requires 0.0 <= t < 6000.0
    ensures var s := FormatClock(t);
            |s| == 5 && s[2] == ':' && AllDigits(s[..2]) && AllDigits(s[3..]) &&
            DecimalValue(s[..2]) == ClockMinutes(t) && DecimalValue(s[3..]) == ClockSeconds(t)
  {
    ClockFields(t);
    assert ClockMinutes(t) < 100;
    var s := FormatClock(t);
    assert s[..2] == ZeroPad2(ClockMinutes(t));
    assert s[3..] == ZeroPad2(ClockSeconds(t));
  }

  class SessionManager {
    const sessionDuration: real
    const enableTimeLimit: bool
    /** The spawner found in the scene, if any. */
    const spawner: Spawner?
    var sessionStartTime: real
    var isGameOver: bool
    var isPaused: bool
    var gameOverReason: GameOverReason
    /** Every OnTimeChanged raised: elapsed time and duration. */
    var timeReports: seq<(real, real)>
    /** Every OnGameOver raised: reason and survival time. */
    var gameOvers: seq<(GameOverReason, real)>
    var pauseSignals: nat
    var resumeSignals: nat

    /** Awake and Start: the session starts now, running and not paused. */
    constructor (sessionDuration: real, enableTimeLimit: bool, spawner: Spawner?, now: real)
      ensures this.sessionDuration == sessionDuration && this.enableTimeLimit == enableTimeLimit && this.spawner == spawner
      ensures sessionStartTime == now && !isGameOver && !isPaused
      ensures timeReports == [] && gameOvers == [] && pauseSignals == 0 && resumeSignals == 0
    {
      this.sessionDuration := sessionDuration;
      this.enableTimeLimit := enableTimeLimit;
      this.spawner := spawner;
      sessionStartTime := now;
      isGameOver := false;
      isPaused := false;
      gameOverReason := PlayerDeath;
      timeReports := [];
      gameOvers := [];
      pauseSignals := 0;
      resumeSignals := 0;
    }

    /** Restarts the clock and clears both flags. */
    method StartSession(now: real)
      modifies this`sessionStartTime, this`isGameOver, this`isPaused
      ensures sessionStartTime == now && !isGameOver && !isPaused
    {
      sessionStartTime := now;
      isGameOver := false;
      isPaused := false;
    }

    /** The time elapsed since the session started: non-negative from the start on, and advancing with the clock. */
    function GetSessionTime(now: real): (t: real)
      reads this
      ensures t >= 0.0 <==> now >= sessionStartTime
      ensures t + sessionStartTime == now
    {
      now - sessionStartTime
    }

    function GetTimeRemaining(now: real): (r: real)
      reads this
      ensures r == TimeRemaining(enableTimeLimit, sessionDuration, now - sessionStartTime)
    {
      TimeRemaining(enableTimeLimit, sessionDuration, GetSessionTime(now))
    }

    /** The time the clock shows: the time left with the limit on, the time survived with it off. */
    function GetClockTime(now: real): (t: real)
      reads this
      ensures enableTimeLimit ==> t >= 0.0 && t == TimeRemaining(true, sessionDuration, now - sessionStartTime)
      ensures !enableTimeLimit ==> t == now - sessionStartTime
    {
      if enableTimeLimit then GetTimeRemaining(now) else GetSessionTime(now)
    }

    /** The clock as "MM:SS"; under 100 minutes it reads back as the minutes and seconds of the clock time. */
    function GetTimeString(now: real): (s: string)
      reads this
      ensures 0.0 <= GetClockTime(now) < 6000.0 ==>
                |s| == 5 && s[2] == ':' && AllDigits(s[..2]) && AllDigits(s[3..]) &&
                DecimalValue(s[..2]) == ClockMinutes(GetClockTime(now)) &&
                DecimalValue(s[3..]) == ClockSeconds(GetClockTime(now))
    {
      var t := GetClockTime(now);
      if 0.0 <= t < 6000.0 then
        ClockStringParses(t);
        FormatClock(t)
      else
        FormatClock(t)
    }

    /**
     * Ends the session once: the first call sets the flag, records the
     * reason, stops the spawner and announces the survival time; every
     * later call changes nothing.
     */
    method EndSession(reason: GameOverReason, now: real)
      modifies this`isGameOver, this`gameOverReason, this`gameOvers
      modifies if spawner != null then {spawner} else {}
      ensures old(isGameOver) ==> isGameOver && gameOverReason == old(gameOverReason) && gameOvers == old(gameOvers) &&
                                  (spawner != null ==> unchanged(spawner))
      ensures !old(isGameOver) ==> isGameOver && gameOverReason == reason &&
                                   gameOvers == old(gameOvers) + [(reason, now - sessionStartTime)] &&
                                   (spawner != null ==> !spawner.isSpawningWave && !spawner.isBossActive &&
                                                        spawner.Progress() == old(spawner.Progress()))
    {
      if isGameOver {
        return;
      }
      isGameOver := true;
      gameOverReason := reason;
      var survivalTime := GetSessionTime(now);
      if spawner != null {
        spawner.ForceStopSpawning();
      }
      gameOvers := gameOvers + [(reason, survivalTime)];
    }

    /**
     * The player's death ends a running session with reason PlayerDeath: the
     * spawner stops and OnGameOver reports the survival time. A session that
     * is already over stays as it is.
     */
    method HandlePlayerDeath(now: real)
      modifies this`isGameOver, this`gameOverReason, this`gameOvers
      modifies if spawner != null then {spawner} else {}
      ensures isGameOver
      ensures old(isGameOver) ==> gameOverReason == old(gameOverReason) && gameOvers == old(gameOvers) &&
                                  (spawner != null ==> unchanged(spawner))
      ensures !old(isGameOver) ==> gameOverReason == PlayerDeath &&
                                   gameOvers == old(gameOvers) + [(PlayerDeath, now - sessionStartTime)] &&
                                   (spawner != null ==> !spawner.isSpawningWave && !spawner.isBossActive &&
                                                        spawner.Progress() == old(spawner.Progress()))
    {
      EndSession(PlayerDeath, now);
    }

    /** Pauses only a running session that is not over. */
    method PauseGame()
      modifies this`isPaused, this`pauseSignals
      ensures isPaused == (old(isPaused) || !isGameOver)
      ensures pauseSignals == old(pauseSignals) + if !isGameOver && !old(isPaused) then 1 else 0
    {
      if isGameOver || isPaused {
        return;
      }
      isPaused := true;
      pauseSignals := pauseSignals + 1;
    }

    /** Resumes only a paused session that is not over. */
    method ResumeGame()
      modifies this`isPaused, this`resumeSignals
      ensures isPaused == (old(isPaused) && isGameOver)
      ensures resumeSignals == old(resumeSignals) + if !isGameOver && old(isPaused) then 1 else 0
    {
      if isGameOver || !isPaused {
        return;
      }
      isPaused := false;
      resumeSignals := resumeSignals + 1;
    }

    /** Flips the pause flag, unless the session is over, when nothing changes. */
    method TogglePause()
      modifies this`isPaused, this`pauseSignals, this`resumeSignals
      ensures isGameOver ==> isPaused == old(isPaused) && pauseSignals == old(pauseSignals) && resumeSignals == old(resumeSignals)
      ensures !isGameOver ==> isPaused == !old(isPaused)
      ensures pauseSignals + resumeSignals == old(pauseSignals + resumeSignals) + if isGameOver then 0 else 1
      ensures !isGameOver && old(isPaused) ==> resumeSignals == old(resumeSignals) + 1 && pauseSignals == old(pauseSignals)
      ensures !isGameOver && !old(isPaused) ==> pauseSignals == old(pauseSignals) + 1 && resumeSignals == old(resumeSignals)
    {
      if isGameOver {
        return;
      }
      if isPaused {
        ResumeGame();
      } else {
        PauseGame();
      }
    }

    /**
     * One frame. While over or paused nothing happens. Otherwise the time is
     * announced; with the limit on and no time left the session ends with
     * TimeUp (and a pause request in the same frame is then ignored);
     * otherwise a pause request flips the pause flag.
     */
    method Update(now: real, escapePressed: bool)
      modifies this`isGameOver, this`gameOverReason, this`gameOvers, this`timeReports
      modifies this`isPaused, this`pauseSignals, this`resumeSignals
      modifies if spawner != null then {spawner} else {}
      ensures old(isGameOver || isPaused) ==>
                isGameOver == old(isGameOver) && isPaused == old(isPaused) && gameOvers == old(gameOvers) &&
                timeReports == old(timeReports) && gameOverReason == old(gameOverReason) &&
                pauseSignals == old(pauseSignals) && resumeSignals == old(resumeSignals) &&
                (spawner != null ==> unchanged(spawner))
      ensures !old(isGameOver || isPaused) ==>
                var timeUp := enableTimeLimit && now - sessionStartTime >= sessionDuration;
                timeReports == old(timeReports) + [(now - sessionStartTime, sessionDuration)] &&
                resumeSignals == old(resumeSignals) &&
                (timeUp ==> isGameOver && gameOverReason == TimeUp && !isPaused &&
                            gameOvers == old(gameOvers) + [(TimeUp, now - sessionStartTime)] &&
                            pauseSignals == old(pauseSignals) &&
                            (spawner != null ==> !spawner.isSpawningWave && !spawner.isBossActive &&
                                                 spawner.Progress() == old(spawner.Progress()))) &&
                (!timeUp ==> !isGameOver && isPaused == escapePressed && gameOvers == old(gameOvers) &&
                             gameOverReason == old(gameOverReason) &&
                             pauseSignals == old(pauseSignals) + (if escapePressed then 1 else 0) &&
                             (spawner != null ==> unchanged(spawner)))
    {
      if isGameOver || isPaused {
        return;
      }
      var currentTime := GetSessionTime(now);
      var timeRemaining := GetTimeRemaining(now);
      timeReports := timeReports + [(currentTime, sessionDuration)];
      if enableTimeLimit && timeRemaining <= 0.0 {
        TimeUpIffDurationReached(sessionDuration, currentTime);
        EndSession(TimeUp, now);
      }
      if escapePressed {
        TogglePause();
      }
    }
  }
}
