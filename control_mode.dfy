/**
 * How the player steers (scripts/ui/controlMode.ts): with the pointer, or
 * with the accelerometer held horizontally or vertically, each either way
 * up. The chosen mode decides whether the two axes are swapped and whether
 * their signs are flipped, and each reading goes through a dead zone and a
 * low-pass filter before it becomes the acceleration the game uses.
 *
 * The browser and the Android wrapper are parameters: whether acceleration
 * is supported, the number read back from local storage, and the axes of
 * each reading. Readings are exact reals.
 */
module ControlModes {
  import opened Wrappers
  import opened Text
  import UiSprites

  /** The modes, in step with lib/shared.h (lines 39-43). */
  const Pointer: int := 0
  const AccelerometerH: int := 1
  const AccelerometerV: int := 2
  const AccelerometerHI: int := 3
  const AccelerometerVI: int := 4

  /** The local storage key the mode is saved under. */
  const ControlModeName: string := "pixel-control-mode"

  /**
   * The icon of each mode (lines 30-36). The sheet declares no `DeviceHI`
   * and no `DeviceVI`, so the last two entries are `undefined` (`None`).
   */
  const ImagesByMode: seq<Option<nat>> := [Some(UiSprites.Hand), Some(UiSprites.DeviceH), Some(UiSprites.DeviceV), None, None]

  predicate IsMode(m: int) {
    Pointer <= m <= AccelerometerVI
  }

  /** The mode `toggleMode` moves to (lines 67-69): the next one, back to the pointer after the last or without acceleration. */
  function NextMode(m: int, accelerationSupported: bool): (r: int)
    ensures IsMode(m) ==> IsMode(r)
    ensures !accelerationSupported ==> r == Pointer
  {
    if m + 1 > AccelerometerVI || !accelerationSupported then Pointer else m + 1
  }

  /** With acceleration, toggling five times visits every mode once and comes back. */
  lemma ToggleCycles(m: int)
    requires IsMode(m)
    ensures NextMode(NextMode(NextMode(NextMode(NextMode(m, true), true), true), true), true) == m
    ensures forall k :: IsMode(k) ==> (k == m || k == NextMode(m, true) || k == NextMode(NextMode(m, true), true)
      || k == NextMode(NextMode(NextMode(m, true), true), true) || k == NextMode(NextMode(NextMode(NextMode(m, true), true), true), true))
  {
  }

  /**
   * The mode `init` chooses (lines 77-81): the pointer without acceleration,
   * otherwise the stored mode, or the pointer when the stored text is not a
   * number (`None`) or is outside 0 to 4.
   */
  function InitialMode(accelerationSupported: bool, stored: Option<int>): (r: int)
    ensures IsMode(r)
    ensures accelerationSupported && stored.Some? && IsMode(stored.value) ==> r == stored.value
    ensures !(accelerationSupported && stored.Some? && IsMode(stored.value)) ==> r == Pointer
  {
    if !accelerationSupported then Pointer
    else if stored.None? || stored.value < Pointer || stored.value > AccelerometerVI then Pointer
    else stored.value
  }

  /** The axes are swapped in the two vertical modes (line 95). */
  predicate SwapsAxes(m: int) {
    m == AccelerometerV || m == AccelerometerVI
  }

  /** The signs are flipped in the two inverted modes (line 96). */
  predicate FlipsSigns(m: int) {
    m == AccelerometerHI || m == AccelerometerVI
  }

  /** A reading as the game's x and y (lines 110-120 and 135-145): swapped, then negated, per the two flags. */
  function Oriented(invertXY: bool, invertSign: bool, rawX: real, rawY: real): (r: (real, real))
  {
    var (x, y) := if invertXY then (rawY, rawX) else (-rawX, rawY);
    if invertSign then (-x, -y) else (x, y)
  }

  /** What each mode makes of a reading (rawX, rawY). */
  lemma OrientedByMode(m: int, rawX: real, rawY: real)
    requires IsMode(m) && m != Pointer
    ensures m == AccelerometerH ==> Oriented(SwapsAxes(m), FlipsSigns(m), rawX, rawY) == (-rawX, rawY)
    ensures m == AccelerometerV ==> Oriented(SwapsAxes(m), FlipsSigns(m), rawX, rawY) == (rawY, rawX)
    ensures m == AccelerometerHI ==> Oriented(SwapsAxes(m), FlipsSigns(m), rawX, rawY) == (rawX, -rawY)
    ensures m == AccelerometerVI ==> Oriented(SwapsAxes(m), FlipsSigns(m), rawX, rawY) == (-rawY, -rawX)
  {
  }

  /** The dead zone (lines 121-124 and 146-149): a component strictly between -0.3 and 0.3 counts as 0. */
  function DeadZone(v: real): (r: real)
    ensures r == 0.0 || r == v
    ensures r == 0.0 <==> -0.3 < v < 0.3
  {
    if v > -0.3 && v < 0.3 then 0.0 else v
  }

  /** The low-pass filter (lines 127-128 and 152-153): four fifths of the old value and one fifth of the new. */
  function Smoothed(previous: real, v: real): real {
    0.8 * previous + 0.2 * v
  }

  /** The filtered value lies between the old value and the reading, so it never leaves a bound both keep to. */
  lemma SmoothedBetween(previous: real, v: real)
    ensures previous <= v ==> previous <= Smoothed(previous, v) <= v
    ensures v <= previous ==> v <= Smoothed(previous, v) <= previous
    ensures Smoothed(previous, v) == previous <==> v == previous
  {
  }

  /** The steering state, kept in static fields in the source. */
  class ControlMode {
    var mode: int
    var accelerationSupported: bool
    var skipAndroid: bool
    var invertXY: bool
    var invertSign: bool
    var accelerationX: real
    var accelerationY: real
    /** Whether the `devicemotion` listener is registered. */
    var listening: bool
    /** The text saved under `ControlModeName`, if any. */
    var stored: Option<string>

    /** The initial values (lines 45-52). */
    constructor()
      ensures mode == Pointer && !accelerationSupported && !skipAndroid && !invertXY && !invertSign
      ensures accelerationX == 0.0 && accelerationY == 0.0 && !listening && stored == None
      ensures Valid()
    {
      mode := Pointer;
      accelerationSupported := false;
      skipAndroid := false;
      invertXY := false;
      invertSign := false;
      accelerationX := 0.0;
      accelerationY := 0.0;
      listening := false;
      stored := None;
    }

    /**
     * The mode is one of the five, it is the pointer without acceleration,
     * and the flags and the listener are those `prepare` sets for it.
     */
    predicate Valid()
      reads this`mode, this`accelerationSupported, this`invertXY, this`invertSign, this`listening
    {
      IsMode(mode) && (!accelerationSupported ==> mode == Pointer)
      && invertXY == SwapsAxes(mode) && invertSign == FlipsSigns(mode) && listening == (mode != Pointer)
    }

    /** `modeImage` (lines 62-64). */
    function ModeImage(): (r: Option<nat>)
      reads this`mode, this`accelerationSupported, this`invertXY, this`invertSign, this`listening
      requires Valid()
      ensures mode == Pointer <==> r == Some(UiSprites.Hand)
      ensures r.Some? <==> mode < AccelerometerHI
    {
      ImagesByMode[mode]
    }

    /** `prepare` (lines 86-99): the flags of the mode, and the listener registered for every mode but the pointer. */
    method Prepare()
      modifies this`invertXY, this`invertSign, this`listening
      ensures invertXY == SwapsAxes(mode) && invertSign == FlipsSigns(mode)
      ensures listening == (mode != Pointer)
    {
      listening := false;
      invertXY := mode == AccelerometerV || mode == AccelerometerVI;
      invertSign := mode == AccelerometerHI || mode == AccelerometerVI;
      if mode != Pointer {
        listening := true;
      }
    }

    /** `toggleMode` (lines 66-73): the next mode, saved as text. */
    method ToggleMode()
      requires Valid()
      modifies this`mode, this`stored, this`invertXY, this`invertSign, this`listening
      ensures mode == NextMode(old(mode), accelerationSupported)
      ensures stored == Some(IntToString(mode))
      ensures Valid()
    {
      var m := mode + 1;
      if m > AccelerometerVI || !accelerationSupported {
        m := Pointer;
      }
      mode := m;
      stored := Some(IntToString(m));
      Prepare();
    }

    /**
     * `init` (lines 75-84): whether acceleration is supported, then the mode
     * from the stored text when it is; `parsed` is what `parseInt` makes of
     * that text (`None` for NaN).
     */
    method Init(supported: bool, parsed: Option<int>)
      modifies this`mode, this`accelerationSupported, this`invertXY, this`invertSign, this`listening
      ensures accelerationSupported == supported
      ensures mode == InitialMode(supported, parsed)
      ensures Valid()
    {
      accelerationSupported := supported;
      if !accelerationSupported {
        mode := Pointer;
      } else {
        mode := if parsed.None? || parsed.value < Pointer || parsed.value > AccelerometerVI then Pointer else parsed.value;
      }
      Prepare();
    }

    /** One reading through the orientation, the dead zone and the filter, shared by the two handlers. */
    method Apply(rawX: real, rawY: real)
      modifies this`accelerationX, this`accelerationY
      ensures accelerationX == Smoothed(old(accelerationX), DeadZone(Oriented(invertXY, invertSign, rawX, rawY).0))
      ensures accelerationY == Smoothed(old(accelerationY), DeadZone(Oriented(invertXY, invertSign, rawX, rawY).1))
    {
      var x: real, y: real;
      if invertXY {
        x := rawY;
        y := rawX;
      } else {
        x := -rawX;
        y := rawY;
      }
      if invertSign {
        x := -x;
        y := -y;
      }
      if x > -0.3 && x < 0.3 {
        x := 0.0;
      }
      if y > -0.3 && y < 0.3 {
        y := 0.0;
      }
      accelerationX := (0.8 * accelerationX) + (0.2 * x);
      accelerationY := (0.8 * accelerationY) + (0.2 * y);
    }

    /**
     * `processAndroidAcceleration` (lines 101-129): every other call is
     * skipped; the others filter the wrapper's reading (getX, getY).
     */
    method ProcessAndroidAcceleration(getX: real, getY: real)
      modifies this`skipAndroid, this`accelerationX, this`accelerationY
      ensures skipAndroid == !old(skipAndroid)
      ensures old(skipAndroid) ==> accelerationX == old(accelerationX) && accelerationY == old(accelerationY)
      ensures !old(skipAndroid) ==> accelerationX == Smoothed(old(accelerationX), DeadZone(Oriented(invertXY, invertSign, getX, getY).0))
      ensures !old(skipAndroid) ==> accelerationY == Smoothed(old(accelerationY), DeadZone(Oriented(invertXY, invertSign, getX, getY).1))
    {
      if skipAndroid {
        skipAndroid := false;
        return;
      }
      skipAndroid := true;
      Apply(getX, getY);
    }

    /** `deviceMotion` (lines 131-154): the browser's reading including gravity, filtered. */
    method DeviceMotion(accX: real, accY: real)
      modifies this`accelerationX, this`accelerationY
      ensures accelerationX == Smoothed(old(accelerationX), DeadZone(Oriented(invertXY, invertSign, accX, accY).0))
      ensures accelerationY == Smoothed(old(accelerationY), DeadZone(Oriented(invertXY, invertSign, accX, accY).1))
    {
      Apply(accX, accY);
    }
  }
}
