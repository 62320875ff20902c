/**
 * The frame-rate button of future/web/ui/ui-settings.js and future/web/ui/settings-handlers.js.
 * With automatic rate on, a press turns it off at 20 fps; otherwise the current rate is looked
 * up in [20, 30, 60]: the last entry turns automatic rate back on (keeping the interval), any
 * other moves to the next entry, and a rate not in the list (index -1) moves to the first.
 *
 * The handlers recover the current rate as `1000 / settings.updateInterval` in floating point,
 * where 1000 / (1000 / 30) and 1000 / (1000 / 60) are not 30 and 60, so as written the lookup
 * fails for them. `NextFpsAsWritten` models that comparison; `NextFps`, which the handlers
 * here use, compares the rate itself.
 */
module FpsCycler {

  const FpsOptions: seq<nat> := [20, 30, 60]

  /** The automatic flag and the rate whose interval `updateInterval` holds. */
  datatype Fps = Fps(autoFPS: bool, rate: nat)

  /** `indexOf`: the first index of x in s, or -1. */
  function IndexOf<T(==)>(s: seq<T>, x: T): (r: int)
    ensures -1 <= r < |s|
    ensures r >= 0 ==> s[r] == x && forall j :: 0 <= j < r ==> s[j] != x
    ensures r == -1 <==> x !in s
  {
    if s == [] then -1
    else if s[0] == x then 0
    else var r := IndexOf(s[1..], x); if r == -1 then -1 else r + 1
  }

  /** One press outside settings mode, the rate compared exactly. */
  function NextFps(s: Fps): (r: Fps)
    ensures !r.autoFPS ==> r.rate in FpsOptions
  {
    if s.autoFPS then Fps(false, FpsOptions[0])
    else
      var i := IndexOf(FpsOptions, s.rate);
      if i == |FpsOptions| - 1 then s.(autoFPS := true)
      else Fps(false, FpsOptions[i + 1])
  }

  /** The press applied n times. */
  function Presses(s: Fps, n: nat): Fps
    decreases n
  {
    if n == 0 then s else Presses(NextFps(s), n - 1)
  }

  // ---------------------------------------------------------------- the cycle

  /** From automatic rate the presses go 20, 30, 60 and back to automatic, keeping the 60 fps interval. */
  lemma AutoCycle(s: Fps)
    requires s.autoFPS
    ensures Presses(s, 1) == Fps(false, 20) && Presses(s, 2) == Fps(false, 30)
    ensures Presses(s, 3) == Fps(false, 60) && Presses(s, 4) == Fps(true, 60)
  {
    assert IndexOf(FpsOptions, 20) == 0;
    assert IndexOf(FpsOptions, 30) == 1;
    assert IndexOf(FpsOptions, 60) == 2;
    assert Presses(s, 4) == Presses(Fps(false, 20), 3) == Presses(Fps(false, 30), 2) == Presses(Fps(false, 60), 1);
  }

  /** Every four presses from automatic rate come back to it, so the cycle has period four. */
  lemma {:induction false} Periodic(s: Fps, n: nat)
    requires s.autoFPS
    ensures Presses(s, 4 * n).autoFPS
    ensures n > 0 ==> Presses(s, 4 * n) == Fps(true, 60)
    decreases n
  {
    if n > 0 {
      Periodic(s, n - 1);
      var t := Presses(s, 4 * (n - 1));
      PressesAdd(s, 4 * (n - 1), 4);
      AutoCycle(t);
    }
  }

  lemma {:induction false} PressesAdd(s: Fps, m: nat, n: nat)
    ensures Presses(s, m + n) == Presses(Presses(s, m), n)
    decreases m
  {
    if m > 0 {
      PressesAdd(NextFps(s), m - 1, n);
    }
  }

  /** A rate outside the list moves to 20 fps; the press from 30 goes to 60. */
  lemma Unlisted(s: Fps)
    requires !s.autoFPS && s.rate !in FpsOptions
    ensures NextFps(s) == Fps(false, 20)
    ensures NextFps(Fps(false, 30)) == Fps(false, 60)
  {
    assert IndexOf(FpsOptions, 30) == 1;
  }

  // ---------------------------------------------------------------- as written

  /**
   * `1000 / (1000 / rate)` in IEEE double arithmetic for the listed rates: 1000 / 20 = 50 is
   * exact, while 1000 / 30 and 1000 / 60 round up and the second division rounds below.
   */
  function RecoveredFps(rate: nat): (fps: real)
    requires rate in FpsOptions
    ensures fps == rate as real <==> rate == 20
    ensures rate as real - 0.000001 < fps <= rate as real
  {
    if rate == 20 then 20.0
    else if rate == 30 then 29.999999999999996
    else 59.99999999999999
  }

  /** One press as written: the lookup compares the recovered floating-point rate. */
  function NextFpsAsWritten(s: Fps): (r: Fps)
    requires s.autoFPS || s.rate in FpsOptions
    ensures (!r.autoFPS && r.rate in FpsOptions) || r == s.(autoFPS := true)
  {
    if s.autoFPS then Fps(false, FpsOptions[0])
    else
      var i := IndexOf([20.0, 30.0, 60.0], RecoveredFps(s.rate));
      if i == |FpsOptions| - 1 then s.(autoFPS := true)
      else Fps(false, FpsOptions[i + 1])
  }

  /** The as-written press applied n times. */
  function PressesAsWritten(s: Fps, n: nat): (r: Fps)
    requires s.autoFPS || s.rate in FpsOptions
    ensures r.autoFPS || r.rate in FpsOptions
    decreases n
  {
    if n == 0 then s else PressesAsWritten(NextFpsAsWritten(s), n - 1)
  }

  /** As written, from 30 fps the press goes back to 20 instead of on to 60. */
  lemma ThirtyGoesBack()
    ensures NextFpsAsWritten(Fps(false, 30)) == Fps(false, 20)
    ensures NextFps(Fps(false, 30)) == Fps(false, 60)
  {
    assert IndexOf([20.0, 30.0, 60.0], 29.999999999999996) == -1;
    assert IndexOf(FpsOptions, 30) == 1;
  }

  /**
   * As written, once automatic rate is off the presses alternate 20 and 30 fps for ever:
   * 60 fps and automatic rate are never reached again.
   */
  lemma {:induction false} AsWrittenNeverSixty(s: Fps, n: nat)
    requires s.autoFPS || s.rate == 20 || s.rate == 30
    ensures n > 0 ==> !PressesAsWritten(s, n).autoFPS
    ensures PressesAsWritten(s, n).rate != 60 || (n == 0 && s.rate == 60)
    decreases n
  {
    if n > 0 {
      var t := NextFpsAsWritten(s);
      if s.autoFPS {
        assert t == Fps(false, 20);
      } else if s.rate == 20 {
        assert IndexOf([20.0, 30.0, 60.0], 20.0) == 0;
        assert t == Fps(false, 30);
      } else {
        ThirtyGoesBack();
      }
      AsWrittenNeverSixty(t, n - 1);
    }
  }
}
