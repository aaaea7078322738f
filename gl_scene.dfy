/**
 * `render(vertices, level, levelSpriteSheet, scaleFactor)` of lib/gl.c: the
 * per-frame scene. It settles the finish transition, then draws the level
 * objects, the ball fragments and the pointer cursor, each behind
 * `incrementRectangleCount`, so a full staging buffer goes to `drawNative`
 * before the next rectangle. A finished game flushes what it has, then draws
 * the victory fragments and the face; a last `drawNative` sends the rest.
 *
 * The arrays of `Level` that `render` only reads (object types, visibility
 * flags and positions, fragment times and positions) are a `Scene` value;
 * the fields it writes are those of `LevelState`. `sinf` is a parameter.
 */
module GlScene {
  import opened Wrappers
  import opened Bits
  import opened JsNumbers
  import opened Batching
  import opened SheetLayout
  import opened GlRender
  import Renderer

  const TypeBall: nat := 0
  const TypeCucumber: nat := 3
  /** The bits of an object's visibility that hold a cucumber's fading alpha. */
  const AlphaMask: nat := 0xff00
  /** `3.1415926535f` */
  const Pi: real := 3.1415926535

  /** One level object as `render` reads it: `objectType[i]`, `objectVisibility[i]`, `objectX[i]`, `objectY[i]`. */
  datatype SceneObject = SceneObject(objectType: nat, visibility: nat, x: real, y: real)

  /** The pointer cursor: its centre and its target, in view pixels. */
  datatype Cursor = Cursor(centerX: real, centerY: real, x: real, y: real)

  /** What `render` reads from a `Level` without writing it. */
  datatype Scene = Scene(
    objects: seq<SceneObject>,
    cucumbersAnimating: bool,
    /** `firstIndexByType[TypeCucumber]` and `countByType[TypeCucumber]` */
    cucumberFirst: nat, cucumberCount: nat,
    /** `countByType[TypeBall]` */
    ballCount: nat,
    fragmentsAlive: bool,
    /** Indexed by ball: the time since the ball exploded or was saved, and whether it was saved. */
    fragmentTime: seq<real>, fragmentSaved: seq<bool>,
    /** Indexed by fragment: 64 per ball, then the victory fragments. */
    fragmentX: seq<real>, fragmentY: seq<real>,
    /** `pointerCursorAttached` with the cursor's coordinates. */
    cursor: Option<Cursor>,
    viewY: real, viewHeight: real)

  /** The sizes the C arrays have for the indices `render` uses. */
  predicate ValidScene(sc: Scene) {
    && (forall k :: 0 <= k < |sc.objects| ==> sc.objects[k].objectType < TypeCount)
    && sc.cucumberFirst + sc.cucumberCount <= |sc.objects|
    && sc.ballCount <= |sc.fragmentTime|
    && sc.ballCount + VictoryFragmentCount <= |sc.fragmentSaved|
    && FragmentsPerBall * sc.ballCount + VictoryFragmentCount <= |sc.fragmentX|
    && FragmentsPerBall * sc.ballCount + VictoryFragmentCount <= |sc.fragmentY|
  }

  /*
   * The finish transition (lib/gl.c:399-412).
   */

  /** The fields the finish transition writes, and what `render` returns. */
  datatype FinishState = FinishState(fadeBgAlpha: real, finishedFading: int, finishedThisFrame: int)

  /**
   * A finished level that is not fading yet waits for the fade to reach 1,
   * then spends one frame at 2 (reporting `FinishedThisFrame`), then starts
   * fading from 0: as a preview or as a finished game.
   */
  function FinishTransition(finished: nat, finishedFading: int, preview: bool, fade: real): (r: FinishState)
    ensures r.finishedThisFrame == FinishedThisFrame <==> finished != 0 && finishedFading == 0 && 1.0 <= fade < 2.0
    ensures r.finishedThisFrame == 0 || r.finishedThisFrame == FinishedThisFrame
    ensures r.finishedFading != finishedFading <==> finished != 0 && finishedFading == 0 && fade >= 2.0
    ensures r.finishedFading != finishedFading ==> r.fadeBgAlpha == 0.0 && r.finishedFading == (if preview then FinishedPreview else FinishedGame)
    ensures r.finishedThisFrame == FinishedThisFrame ==> r.fadeBgAlpha == 2.0
    ensures r.finishedThisFrame == 0 && r.finishedFading == finishedFading ==> r.fadeBgAlpha == fade
  {
    if finished != 0 && finishedFading == 0 then
      if fade >= 2.0 then FinishState(0.0, if preview then FinishedPreview else FinishedGame, 0)
      else if fade >= 1.0 then FinishState(2.0, finishedFading, FinishedThisFrame)
      else FinishState(fade, finishedFading, 0)
    else FinishState(fade, finishedFading, 0)
  }

  /**
   * Once the fade of a finished level reaches 1 the transition takes two
   * frames: the first reports `FinishedThisFrame`, the second starts the
   * fading, and from then on the transition leaves the fields alone.
   */
  lemma TransitionTakesTwoFrames(finished: nat, preview: bool, fade: real, fade3: real)
    requires finished != 0 && 1.0 <= fade < 2.0
    ensures var first := FinishTransition(finished, 0, preview, fade);
      var second := FinishTransition(finished, first.finishedFading, preview, first.fadeBgAlpha);
      var third := FinishTransition(finished, second.finishedFading, preview, fade3);
      && first == FinishState(2.0, 0, FinishedThisFrame)
      && second == FinishState(0.0, if preview then FinishedPreview else FinishedGame, 0)
      && third == FinishState(fade3, second.finishedFading, 0)
  {
  }

  /*
   * The rectangles of the scene (lib/gl.c:414-480).
   */

  /** Bit 0 of the visibility: `visibility & VisibilityVisible`. */
  predicate Visible(visibility: nat) {
    And(visibility, VisibilityVisible) != 0
  }

  /** `i & 7`, which picks one of the eight fragment descriptors. */
  function Low3(i: nat): (r: nat)
    ensures r == i % 8
  {
    Pow2Values();
    AndLowMask(i, 3);
    And(i, 7)
  }

  /** `truncf((v * scaleFactor) + 0.5)`: an object coordinate rounded to view pixels. */
  function Rounded(v: real, scaleFactor: real): real {
    Trunc(v * scaleFactor + 0.5) as real
  }

  /** `draw(vertices, levelObjectModelCoordinates, alpha, &levelObjectTextureCoordinatesByType[type], x, y - viewY)` */
  function ObjectRect(base: nat, o: SceneObject, alpha: real, scaleFactor: real, viewY: real): Rect {
    Plain(Field(base, LevelObjectModel), alpha, Field(base, LevelObjectTexture + o.objectType),
      Rounded(o.x, scaleFactor), Rounded(o.y, scaleFactor) - viewY)
  }

  /** Whether the object loop draws an object: a visible one, and while cucumbers animate only one not fading. */
  predicate DrawnObject(o: SceneObject, cucumbersAnimating: bool) {
    Visible(o.visibility) && (!cucumbersAnimating || And(o.visibility, AlphaMask) == 0)
  }

  /** The rectangles of the object loop for objects `hi - 1` down to `lo`, in drawing order. */
  function ObjectsDown(base: nat, objects: seq<SceneObject>, hi: nat, lo: nat, cucumbersAnimating: bool,
                       alpha: real, scaleFactor: real, viewY: real): (r: seq<Rect>)
    requires lo <= hi <= |objects|
    ensures |r| <= hi - lo
    decreases hi - lo
  {
    if lo >= hi then []
    else
      var rest := ObjectsDown(base, objects, hi, lo + 1, cucumbersAnimating, alpha, scaleFactor, viewY);
      rest + (if DrawnObject(objects[lo], cucumbersAnimating) then [ObjectRect(base, objects[lo], alpha, scaleFactor, viewY)] else [])
  }

  /** The fading alpha of a cucumber being collected: `(visibility >> 8) * (1 / 256)`. */
  function CucumberAlpha(visibility: nat): real {
    Shr(visibility, 8) as real * 0.00390625
  }

  /** A cucumber being collected: it fades and grows by `1 + (1 - alpha) * 4` as it fades. */
  function FadingCucumber(base: nat, o: SceneObject, scaleFactor: real, viewY: real): Rect {
    var alpha := CucumberAlpha(o.visibility);
    Scaled(Field(base, LevelObjectModel), alpha, Field(base, LevelObjectTexture + o.objectType), 1.0 + ((1.0 - alpha) * 4.0),
      Rounded(o.x, scaleFactor), Rounded(o.y, scaleFactor) - viewY)
  }

  /** A visible cucumber: a fading one as `FadingCucumber`, the others as plain objects. */
  function CucumberRects(base: nat, o: SceneObject, globalAlpha: real, scaleFactor: real, viewY: real): (r: seq<Rect>)
    ensures |r| <= 1
  {
    if !Visible(o.visibility) then []
    else if Shr(o.visibility, 8) != 0 then [FadingCucumber(base, o, scaleFactor, viewY)]
    else [ObjectRect(base, o, globalAlpha, scaleFactor, viewY)]
  }

  /** The rectangles of the cucumber loop for objects `hi - 1` down to `lo`. */
  function CucumbersDown(base: nat, objects: seq<SceneObject>, hi: nat, lo: nat, globalAlpha: real, scaleFactor: real, viewY: real): (r: seq<Rect>)
    requires lo <= hi <= |objects|
    ensures |r| <= hi - lo
    decreases hi - lo
  {
    if lo >= hi then []
    else
      var rest := CucumbersDown(base, objects, hi, lo + 1, globalAlpha, scaleFactor, viewY);
      rest + CucumberRects(base, objects[lo], globalAlpha, scaleFactor, viewY)
  }

  /** Every object, from the last down; while cucumbers animate, the fading ones come after in a second loop. */
  function ObjectPart(base: nat, sc: Scene, globalAlpha: real, scaleFactor: real, viewY: real): seq<Rect>
    requires ValidScene(sc)
  {
    ObjectsDown(base, sc.objects, |sc.objects|, 0, sc.cucumbersAnimating, globalAlpha, scaleFactor, viewY)
    + if sc.cucumbersAnimating
      then CucumbersDown(base, sc.objects, sc.cucumberFirst + sc.cucumberCount, sc.cucumberFirst, globalAlpha, scaleFactor, viewY)
      else []
  }

  /** The largest time of a ball that was not saved, over balls `hi - 1` down to `lo`, or 0 (the running `max` of lib/gl.c:455-459). */
  function MaxUnsaved(times: seq<real>, saved: seq<bool>, hi: nat, lo: nat): (m: real)
    requires hi <= |times| && hi <= |saved|
    decreases hi - lo
  {
    if lo >= hi then 0.0
    else
      var m := MaxUnsaved(times, saved, hi, lo + 1);
      if m < times[lo] && !saved[lo] then times[lo] else m
  }

  /** `MaxUnsaved` is the maximum of 0 and the times of the balls not saved. */
  lemma {:induction false} MaxUnsavedIsMaximum(times: seq<real>, saved: seq<bool>, hi: nat, lo: nat)
    requires hi <= |times| && hi <= |saved|
    ensures var m := MaxUnsaved(times, saved, hi, lo);
      && m >= 0.0
      && (forall f :: lo <= f < hi && !saved[f] ==> times[f] <= m)
      && (m == 0.0 || exists f :: lo <= f < hi && !saved[f] && times[f] == m)
    decreases hi - lo
  {
    if lo < hi {
      MaxUnsavedIsMaximum(times, saved, hi, lo + 1);
    }
  }

  /** The explosion background: `2 (max / FragmentsMaxTime - 0.5)`, never below 0. */
  function ExplosionAlpha(max: real): (a: real)
    ensures a >= 0.0
    ensures a == 0.0 <==> max <= FragmentsMaxTime * 0.5
  {
    var m := 2.0 * ((max / FragmentsMaxTime) - 0.5);
    if m <= 0.0 then 0.0 else m
  }

  /** Fragment i of a ball, with the ball's alpha, from texture set `j` (0, or 8 for a saved ball). */
  function FragmentRect(base: nat, i: nat, alpha: real, j: nat, x: real, y: real, scaleFactor: real, viewY: real): Rect {
    Plain(Field(base, FragmentModel + Low3(i)), alpha, Field(base, FragmentTexture + j + Low3(i)), x * scaleFactor, y * scaleFactor - viewY)
  }

  /** The alpha of ball f's fragments: its time over the time its fragments live, smoothed. */
  function FragmentAlpha(time: real, saved: bool): real {
    SmoothStep(time / (if saved then FragmentsMaxTimeSaved else FragmentsMaxTime))
  }

  /** The first k fragments of ball f, in the order lib/gl.c:467-470 draws them. */
  function BallFragments(base: nat, sc: Scene, f: nat, k: nat, scaleFactor: real, viewY: real): (r: seq<Rect>)
    requires ValidScene(sc) && f < sc.ballCount && k <= FragmentsPerBall
    ensures |r| == k
  {
    var alpha := FragmentAlpha(sc.fragmentTime[f], sc.fragmentSaved[f]);
    var j := if sc.fragmentSaved[f] then 8 else 0;
    seq(k, c requires 0 <= c < k => FragmentRect(base, FragmentsPerBall * f + c, alpha, j,
      sc.fragmentX[FragmentsPerBall * f + c], sc.fragmentY[FragmentsPerBall * f + c], scaleFactor, viewY))
  }

  /** The fragments of balls `hi - 1` down to `lo`: all 64 of each ball whose time is not zero. */
  function FragmentsDown(base: nat, sc: Scene, hi: nat, lo: nat, scaleFactor: real, viewY: real): (r: seq<Rect>)
    requires ValidScene(sc) && hi <= sc.ballCount
    decreases hi - lo
  {
    if lo >= hi then []
    else
      var rest := FragmentsDown(base, sc, hi, lo + 1, scaleFactor, viewY);
      rest + (if sc.fragmentTime[lo] != 0.0 then BallFragments(base, sc, lo, FragmentsPerBall, scaleFactor, viewY) else [])
  }

  /** The cursor's centre, at the cursor's centre. */
  function CursorCenter(base: nat, c: Cursor, globalAlpha: real, scaleFactor: real): Rect {
    Plain(Field(base, CursorCenterModel), globalAlpha, Field(base, CursorCenterTexture), c.centerX * scaleFactor, c.centerY * scaleFactor)
  }

  /** The cursor's target, at its position rounded toward zero. */
  function CursorTarget(base: nat, c: Cursor, globalAlpha: real, scaleFactor: real): Rect {
    Plain(Field(base, CursorTargetModel), globalAlpha, Field(base, CursorTargetTexture), Trunc(c.x * scaleFactor) as real, Trunc(c.y * scaleFactor) as real)
  }

  function CursorRects(base: nat, c: Cursor, globalAlpha: real, scaleFactor: real): seq<Rect> {
    [CursorCenter(base, c, globalAlpha, scaleFactor), CursorTarget(base, c, globalAlpha, scaleFactor)]
  }

  /** What `render` draws before the finish: objects, fragments, then the cursor. */
  function ScenePart(base: nat, sc: Scene, globalAlpha: real, scaleFactor: real, viewY: real): seq<Rect>
    requires ValidScene(sc)
  {
    ObjectPart(base, sc, globalAlpha, scaleFactor, viewY) + FragmentPart(base, sc, scaleFactor, viewY) + CursorPart(base, sc, globalAlpha, scaleFactor)
  }

  /** The fragments, while any are alive. */
  function FragmentPart(base: nat, sc: Scene, scaleFactor: real, viewY: real): seq<Rect>
    requires ValidScene(sc)
  {
    if sc.fragmentsAlive then FragmentsDown(base, sc, sc.ballCount, 0, scaleFactor, viewY) else []
  }

  /** The cursor, while one is attached. */
  function CursorPart(base: nat, sc: Scene, globalAlpha: real, scaleFactor: real): seq<Rect> {
    match sc.cursor case None => [] case Some(c) => CursorRects(base, c, globalAlpha, scaleFactor)
  }

  /*
   * The end of a finished game (lib/gl.c:482-527).
   */

  /** The face's fade: the level's fade moved on while below 1, then smoothed; from 1 on it is used as it is. */
  function FaceFade(fade: real, deltaSeconds: real): real {
    if fade < 1.0 then FadeUp(fade, deltaSeconds) else fade
  }

  /** The face's alpha: the moved-on fade smoothed, or the fade itself once it reached 1. */
  function FaceAlpha(fade: real, deltaSeconds: real): real {
    if fade < 1.0 then SmoothStep(FaceFade(fade, deltaSeconds)) else fade
  }

  /** The victory clock after the `while (victoryTime >= 2) victoryTime -= 2` loop. */
  function VictoryWrap(v: real): (r: real)
    ensures r < 2.0
    ensures v >= 0.0 ==> 0.0 <= r
    ensures v < 2.0 ==> r == v
  {
    if v < 2.0 then v else v - 2.0 * Floor(v / 2.0) as real
  }

  /** The victory clock after a frame of `deltaSeconds`: it runs at twice the frame rate and wraps at 2. */
  function VictoryAdvance(victoryTime: real, deltaSeconds: real): real {
    VictoryWrap(victoryTime + 2.0 * deltaSeconds)
  }

  /** Victory fragment k is drawn when its ball was saved and it lies inside the view (lib/gl.c:503-509). */
  predicate VictoryShown(sc: Scene, k: nat)
    requires ValidScene(sc) && k < VictoryFragmentCount
  {
    var x, y := sc.fragmentX[FragmentsPerBall * sc.ballCount + k], sc.fragmentY[FragmentsPerBall * sc.ballCount + k];
    sc.fragmentSaved[sc.ballCount + k] && !(x <= -4.0 || x >= BaseWidth + 4.0) && !(y >= sc.viewHeight + 4.0)
  }

  /** Victory fragment k at full alpha, from the saved set of fragment textures. */
  function VictoryRect(base: nat, sc: Scene, k: nat, scaleFactor: real): Rect
    requires ValidScene(sc) && k < VictoryFragmentCount
  {
    var j := FragmentsPerBall * sc.ballCount + k;
    Plain(Field(base, FragmentModel + Low3(j)), 1.0, Field(base, FragmentTexture + 8 + Low3(j)), sc.fragmentX[j] * scaleFactor, sc.fragmentY[j] * scaleFactor)
  }

  function VictoryRects(base: nat, sc: Scene, k: nat, scaleFactor: real): (r: seq<Rect>)
    requires ValidScene(sc) && k < VictoryFragmentCount
    ensures |r| <= 1
  {
    if VictoryShown(sc, k) then [VictoryRect(base, sc, k, scaleFactor)] else []
  }

  /** The first n victory fragments' rectangles. */
  function VictoryUpTo(base: nat, sc: Scene, n: nat, scaleFactor: real): (r: seq<Rect>)
    requires ValidScene(sc) && n <= VictoryFragmentCount
    ensures |r| <= n
  {
    if n == 0 then [] else VictoryUpTo(base, sc, n - 1, scaleFactor) + VictoryRects(base, sc, n - 1, scaleFactor)
  }

  /** The happy face bounces: x swings 10 pixels about the centre, y follows `|sin(pi t)|`. */
  function HappyFace(base: nat, victoryTime: real, alpha: real, scaleFactor: real, sin: real -> real): Rect {
    var swing := if victoryTime > 1.0 then 2.0 - victoryTime else victoryTime;
    var height := sin(Pi * victoryTime) * 25.0;
    Plain(Field(base, FaceModel), alpha, Field(base, HappyFaceTexture),
      Trunc(((BaseWidth * 0.5) + ((swing - 0.5) * 20.0)) * scaleFactor) as real,
      Trunc((75.0 - (if height < 0.0 then -height else height)) * scaleFactor) as real)
  }

  function SadFace(base: nat, alpha: real, scaleFactor: real): Rect {
    Plain(Field(base, FaceModel), alpha, Field(base, SadFaceTexture), Trunc(BaseWidth * scaleFactor * 0.5) as real, 50.0 * scaleFactor)
  }

  /** After the flush of a finished game: the victory fragments and the happy face, or the sad face. */
  function FinishPart(base: nat, sc: Scene, finished: nat, alpha: real, victoryTime: real, scaleFactor: real, sin: real -> real): seq<Rect>
    requires ValidScene(sc)
  {
    if And(finished, FinishedVictory) != 0
    then VictoryUpTo(base, sc, VictoryFragmentCount, scaleFactor) + [HappyFace(base, victoryTime, alpha, scaleFactor, sin)]
    else [SadFace(base, alpha, scaleFactor)]
  }

  /*
   * The methods of `render`, one per loop.
   */

  /** The state of `render` while it emits rectangles read from the sprite sheet at `base`. */
  ghost predicate Drawing(gl: Renderer.WebGL, log0: seq<GLCall>, heap0: seq<real>, base: nat,
                          rects: seq<Rect>, quads: seq<seq<real>>, sent: nat, count: nat)
    reads gl, gl.heap
  {
    Emitted(gl, log0, heap0, quads, sent, count) && Tracks(heap0, gl.verticesPtr, rects, quads)
    && SheetReadable(heap0, gl.verticesPtr, base)
  }

  /** `incrementRectangleCount(); draw*(...)` of a rectangle with model descriptor k and texture descriptor j of the sheet. */
  method EmitSheet(gl: Renderer.WebGL, base: nat, r: Rect, k: nat, j: nat, count: nat,
                   ghost log0: seq<GLCall>, ghost heap0: seq<real>, ghost rects: seq<Rect>, ghost quads: seq<seq<real>>, ghost sent: nat)
    returns (next: nat, ghost sent': nat)
    requires Drawing(gl, log0, heap0, base, rects, quads, sent, count)
    requires k < DescriptorCount && j < DescriptorCount && r.model == Field(base, k) && r.texture == Field(base, j)
    modifies gl`log, gl`rectangleCount, gl.heap
    ensures ReadableBy(heap0, gl.verticesPtr, r)
    ensures Drawing(gl, log0, heap0, base, rects + [r], quads + [Rendered(heap0, r)], sent', next)
  {
    SheetRect(heap0, gl.verticesPtr, base, k, j, r);
    next, sent' := Emit(gl, r, count, log0, heap0, rects, quads, sent);
  }

  /** The finish transition of `render` (lib/gl.c:399-412); returns `finishedThisFrame`. */
  method ApplyFinishTransition(level: LevelState) returns (finishedThisFrame: int)
    modifies level`fadeBgAlpha, level`finishedFading
    ensures var tr := FinishTransition(old(level.finished), old(level.finishedFading), old(level.preview), old(level.fadeBgAlpha));
      level.fadeBgAlpha == tr.fadeBgAlpha && level.finishedFading == tr.finishedFading && finishedThisFrame == tr.finishedThisFrame
  {
    finishedThisFrame := 0;
    if level.finished != 0 && level.finishedFading == 0 {
      if level.fadeBgAlpha >= 2.0 {
        level.fadeBgAlpha := 0.0;
        level.finishedFading := if level.preview then FinishedPreview else FinishedGame;
      } else if level.fadeBgAlpha >= 1.0 {
        level.fadeBgAlpha := 2.0;
        finishedThisFrame := FinishedThisFrame;
      }
    }
  }

  /** The object loop (lib/gl.c:415-421 and 438-443): every object drawn from the last down. */
  method DrawObjects(gl: Renderer.WebGL, sc: Scene, base: nat, alpha: real, scaleFactor: real, viewY: real, count: nat,
                     ghost log0: seq<GLCall>, ghost heap0: seq<real>, ghost rects: seq<Rect>, ghost quads: seq<seq<real>>, ghost sent: nat)
    returns (next: nat, ghost sent': nat, ghost rects': seq<Rect>, ghost quads': seq<seq<real>>)
    requires ValidScene(sc) && Drawing(gl, log0, heap0, base, rects, quads, sent, count)
    modifies gl`log, gl`rectangleCount, gl.heap
    ensures rects' == rects + ObjectsDown(base, sc.objects, |sc.objects|, 0, sc.cucumbersAnimating, alpha, scaleFactor, viewY)
    ensures Drawing(gl, log0, heap0, base, rects', quads', sent', next)
  {
    next, sent', rects', quads' := count, sent, rects, quads;
    assert rects' == rects + [];
    var i := |sc.objects|;
    while i > 0
      invariant 0 <= i <= |sc.objects|
      invariant rects' == rects + ObjectsDown(base, sc.objects, |sc.objects|, i, sc.cucumbersAnimating, alpha, scaleFactor, viewY)
      invariant Drawing(gl, log0, heap0, base, rects', quads', sent', next)
    {
      i := i - 1;
      next, sent', rects', quads' := DrawObject(gl, sc, base, i, alpha, scaleFactor, viewY, next, log0, heap0, rects, rects', quads', sent');
    }
  }

  /** One pass of the object loop: object i, when it is drawn. */
  method DrawObject(gl: Renderer.WebGL, sc: Scene, base: nat, i: nat, alpha: real, scaleFactor: real, viewY: real, count: nat,
                    ghost log0: seq<GLCall>, ghost heap0: seq<real>, ghost prefix: seq<Rect>, ghost rects: seq<Rect>,
                    ghost quads: seq<seq<real>>, ghost sent: nat)
    returns (next: nat, ghost sent': nat, ghost rects': seq<Rect>, ghost quads': seq<seq<real>>)
    requires ValidScene(sc) && i < |sc.objects|
    requires rects == prefix + ObjectsDown(base, sc.objects, |sc.objects|, i + 1, sc.cucumbersAnimating, alpha, scaleFactor, viewY)
    requires Drawing(gl, log0, heap0, base, rects, quads, sent, count)
    modifies gl`log, gl`rectangleCount, gl.heap
    ensures rects' == prefix + ObjectsDown(base, sc.objects, |sc.objects|, i, sc.cucumbersAnimating, alpha, scaleFactor, viewY)
    ensures Drawing(gl, log0, heap0, base, rects', quads', sent', next)
  {
    next, sent', rects', quads' := count, sent, rects, quads;
    var o := sc.objects[i];
    ghost var drawn := ObjectsDown(base, sc.objects, |sc.objects|, i + 1, sc.cucumbersAnimating, alpha, scaleFactor, viewY);
    if DrawnObject(o, sc.cucumbersAnimating) {
      var r := ObjectRect(base, o, alpha, scaleFactor, viewY);
      next, sent' := EmitSheet(gl, base, r, LevelObjectModel, LevelObjectTexture + o.objectType, next, log0, heap0, rects, quads, sent);
      rects', quads' := rects + [r], quads + [Rendered(heap0, r)];
      ObjectsStep(base, sc, i, alpha, scaleFactor, viewY, prefix, drawn, [r]);
    } else {
      ObjectsStep(base, sc, i, alpha, scaleFactor, viewY, prefix, drawn, []);
    }
  }

  lemma ObjectsStep(base: nat, sc: Scene, i: nat, alpha: real, scaleFactor: real, viewY: real, prefix: seq<Rect>, drawn: seq<Rect>, rs: seq<Rect>)
    requires ValidScene(sc) && i < |sc.objects|
    requires drawn == ObjectsDown(base, sc.objects, |sc.objects|, i + 1, sc.cucumbersAnimating, alpha, scaleFactor, viewY)
    requires rs == if DrawnObject(sc.objects[i], sc.cucumbersAnimating) then [ObjectRect(base, sc.objects[i], alpha, scaleFactor, viewY)] else []
    ensures prefix + drawn + rs == prefix + ObjectsDown(base, sc.objects, |sc.objects|, i, sc.cucumbersAnimating, alpha, scaleFactor, viewY)
  {
  }

  /** The cucumber loop while cucumbers animate (lib/gl.c:423-436): from the last cucumber down. */
  method DrawCucumbers(gl: Renderer.WebGL, sc: Scene, base: nat, globalAlpha: real, scaleFactor: real, viewY: real, count: nat,
                       ghost log0: seq<GLCall>, ghost heap0: seq<real>, ghost rects: seq<Rect>, ghost quads: seq<seq<real>>, ghost sent: nat)
    returns (next: nat, ghost sent': nat, ghost rects': seq<Rect>, ghost quads': seq<seq<real>>)
    requires ValidScene(sc) && Drawing(gl, log0, heap0, base, rects, quads, sent, count)
    modifies gl`log, gl`rectangleCount, gl.heap
    ensures rects' == rects + CucumbersDown(base, sc.objects, sc.cucumberFirst + sc.cucumberCount, sc.cucumberFirst, globalAlpha, scaleFactor, viewY)
    ensures Drawing(gl, log0, heap0, base, rects', quads', sent', next)
  {
    next, sent', rects', quads' := count, sent, rects, quads;
    assert rects' == rects + [];
    var hi := sc.cucumberFirst + sc.cucumberCount;
    var i := hi;
    while i > sc.cucumberFirst
      invariant sc.cucumberFirst <= i <= hi
      invariant rects' == rects + CucumbersDown(base, sc.objects, hi, i, globalAlpha, scaleFactor, viewY)
      invariant Drawing(gl, log0, heap0, base, rects', quads', sent', next)
    {
      i := i - 1;
      next, sent', rects', quads' := DrawCucumber(gl, sc, base, i, hi, globalAlpha, scaleFactor, viewY, next, log0, heap0, rects, rects', quads', sent');
    }
  }

  /** One pass of the cucumber loop (lib/gl.c:424-435): a visible cucumber, fading or not. */
  method DrawCucumber(gl: Renderer.WebGL, sc: Scene, base: nat, i: nat, hi: nat, globalAlpha: real, scaleFactor: real, viewY: real, count: nat,
                      ghost log0: seq<GLCall>, ghost heap0: seq<real>, ghost prefix: seq<Rect>, ghost rects: seq<Rect>,
                      ghost quads: seq<seq<real>>, ghost sent: nat)
    returns (next: nat, ghost sent': nat, ghost rects': seq<Rect>, ghost quads': seq<seq<real>>)
    requires ValidScene(sc) && i < hi <= |sc.objects|
    requires rects == prefix + CucumbersDown(base, sc.objects, hi, i + 1, globalAlpha, scaleFactor, viewY)
    requires Drawing(gl, log0, heap0, base, rects, quads, sent, count)
    modifies gl`log, gl`rectangleCount, gl.heap
    ensures rects' == prefix + CucumbersDown(base, sc.objects, hi, i, globalAlpha, scaleFactor, viewY)
    ensures Drawing(gl, log0, heap0, base, rects', quads', sent', next)
  {
    next, sent', rects', quads' := count, sent, rects, quads;
    var o := sc.objects[i];
    ghost var drawn := CucumbersDown(base, sc.objects, hi, i + 1, globalAlpha, scaleFactor, viewY);
    if Visible(o.visibility) {
      var alphaI := Shr(o.visibility, 8);
      var r;
      if alphaI != 0 {
        r := FadingCucumber(base, o, scaleFactor, viewY);
      } else {
        r := ObjectRect(base, o, globalAlpha, scaleFactor, viewY);
      }
      next, sent' := EmitSheet(gl, base, r, LevelObjectModel, LevelObjectTexture + o.objectType, next, log0, heap0, rects, quads, sent);
      rects', quads' := rects + [r], quads + [Rendered(heap0, r)];
      CucumbersStep(base, sc.objects, i, hi, globalAlpha, scaleFactor, viewY, prefix, drawn, [r]);
    } else {
      CucumbersStep(base, sc.objects, i, hi, globalAlpha, scaleFactor, viewY, prefix, drawn, []);
    }
  }

  lemma CucumbersStep(base: nat, objects: seq<SceneObject>, i: nat, hi: nat, globalAlpha: real, scaleFactor: real, viewY: real,
                      prefix: seq<Rect>, drawn: seq<Rect>, rs: seq<Rect>)
    requires i < hi <= |objects|
    requires drawn == CucumbersDown(base, objects, hi, i + 1, globalAlpha, scaleFactor, viewY)
    requires rs == CucumberRects(base, objects[i], globalAlpha, scaleFactor, viewY)
    ensures prefix + drawn + rs == prefix + CucumbersDown(base, objects, hi, i, globalAlpha, scaleFactor, viewY)
  {
  }

  /** The running maximum of lib/gl.c:455-459. */
  method MaxUnsavedTime(sc: Scene) returns (max: real)
    requires ValidScene(sc)
    ensures max == MaxUnsaved(sc.fragmentTime, sc.fragmentSaved, sc.ballCount, 0)
  {
    max := 0.0;
    var f := sc.ballCount;
    while f > 0
      invariant 0 <= f <= sc.ballCount
      invariant max == MaxUnsaved(sc.fragmentTime, sc.fragmentSaved, sc.ballCount, f)
    {
      f := f - 1;
      if max < sc.fragmentTime[f] && !sc.fragmentSaved[f] {
        max := sc.fragmentTime[f];
      }
    }
  }

  /** `level->explosionBgAlpha` from the largest unsaved fragment time (lib/gl.c:460-461). */
  method SetExplosion(level: LevelState, max: real)
    modifies level`explosionBgAlpha
    ensures level.explosionBgAlpha == ExplosionAlpha(max)
  {
    var m := 2.0 * ((max / FragmentsMaxTime) - 0.5);
    level.explosionBgAlpha := if m <= 0.0 then 0.0 else m;
  }

  /** One more fragment of a ball extends its list by that fragment. */
  lemma BallFragmentsStep(base: nat, sc: Scene, f: nat, k: nat, i: nat, alpha: real, j: nat, scaleFactor: real, viewY: real, prefix: seq<Rect>, r: Rect)
    requires ValidScene(sc) && f < sc.ballCount && k < FragmentsPerBall && i == FragmentsPerBall * f + k
    requires alpha == FragmentAlpha(sc.fragmentTime[f], sc.fragmentSaved[f]) && j == if sc.fragmentSaved[f] then 8 else 0
    requires r == FragmentRect(base, i, alpha, j, sc.fragmentX[i], sc.fragmentY[i], scaleFactor, viewY)
    ensures prefix + BallFragments(base, sc, f, k, scaleFactor, viewY) + [r] == prefix + BallFragments(base, sc, f, k + 1, scaleFactor, viewY)
  {
    assert BallFragments(base, sc, f, k + 1, scaleFactor, viewY) == BallFragments(base, sc, f, k, scaleFactor, viewY) + [r];
  }

  /** The 64 fragments of ball f (lib/gl.c:467-470), in increasing index. */
  method DrawBall(gl: Renderer.WebGL, sc: Scene, base: nat, f: nat, scaleFactor: real, viewY: real, count: nat,
                  ghost log0: seq<GLCall>, ghost heap0: seq<real>, ghost rects: seq<Rect>, ghost quads: seq<seq<real>>, ghost sent: nat)
    returns (next: nat, ghost sent': nat, ghost rects': seq<Rect>, ghost quads': seq<seq<real>>)
    requires ValidScene(sc) && f < sc.ballCount && Drawing(gl, log0, heap0, base, rects, quads, sent, count)
    modifies gl`log, gl`rectangleCount, gl.heap
    ensures rects' == rects + BallFragments(base, sc, f, FragmentsPerBall, scaleFactor, viewY)
    ensures Drawing(gl, log0, heap0, base, rects', quads', sent', next)
  {
    next, sent', rects', quads' := count, sent, rects, quads;
    assert rects' == rects + [];
    var alpha := FragmentAlpha(sc.fragmentTime[f], sc.fragmentSaved[f]);
    var j := if sc.fragmentSaved[f] then 8 else 0;
    var i, c := FragmentsPerBall * f, FragmentsPerBall;
    while c > 0
      invariant 0 <= c <= FragmentsPerBall && i == FragmentsPerBall * f + (FragmentsPerBall - c)
      invariant rects' == rects + BallFragments(base, sc, f, FragmentsPerBall - c, scaleFactor, viewY)
      invariant Drawing(gl, log0, heap0, base, rects', quads', sent', next)
    {
      next, sent', rects', quads' := DrawFragment(gl, sc, base, f, i, FragmentsPerBall - c, alpha, j, scaleFactor, viewY, next, log0, heap0, rects, rects', quads', sent');
      i, c := i + 1, c - 1;
    }
  }

  /** Fragment i, the k-th of ball f, with the ball's alpha and texture set `j` (lib/gl.c:468-469). */
  method DrawFragment(gl: Renderer.WebGL, sc: Scene, base: nat, f: nat, i: nat, k: nat, alpha: real, j: nat, scaleFactor: real, viewY: real, count: nat,
                      ghost log0: seq<GLCall>, ghost heap0: seq<real>, ghost prefix: seq<Rect>, ghost rects: seq<Rect>,
                      ghost quads: seq<seq<real>>, ghost sent: nat)
    returns (next: nat, ghost sent': nat, ghost rects': seq<Rect>, ghost quads': seq<seq<real>>)
    requires ValidScene(sc) && f < sc.ballCount && k < FragmentsPerBall && i == FragmentsPerBall * f + k
    requires alpha == FragmentAlpha(sc.fragmentTime[f], sc.fragmentSaved[f]) && j == if sc.fragmentSaved[f] then 8 else 0
    requires rects == prefix + BallFragments(base, sc, f, k, scaleFactor, viewY)
    requires Drawing(gl, log0, heap0, base, rects, quads, sent, count)
    modifies gl`log, gl`rectangleCount, gl.heap
    ensures rects' == prefix + BallFragments(base, sc, f, k + 1, scaleFactor, viewY)
    ensures Drawing(gl, log0, heap0, base, rects', quads', sent', next)
  {
    var r := FragmentRect(base, i, alpha, j, sc.fragmentX[i], sc.fragmentY[i], scaleFactor, viewY);
    next, sent' := EmitSheet(gl, base, r, FragmentModel + Low3(i), FragmentTexture + j + Low3(i), count, log0, heap0, rects, quads, sent);
    rects', quads' := rects + [r], quads + [Rendered(heap0, r)];
    BallFragmentsStep(base, sc, f, k, i, alpha, j, scaleFactor, viewY, prefix, r);
  }

  /** The fragments of every exploding ball, from the last ball down (lib/gl.c:463-472). */
  method DrawBalls(gl: Renderer.WebGL, sc: Scene, base: nat, scaleFactor: real, viewY: real, count: nat,
                   ghost log0: seq<GLCall>, ghost heap0: seq<real>, ghost rects: seq<Rect>, ghost quads: seq<seq<real>>, ghost sent: nat)
    returns (next: nat, ghost sent': nat, ghost rects': seq<Rect>, ghost quads': seq<seq<real>>)
    requires ValidScene(sc) && Drawing(gl, log0, heap0, base, rects, quads, sent, count)
    modifies gl`log, gl`rectangleCount, gl.heap
    ensures rects' == rects + FragmentsDown(base, sc, sc.ballCount, 0, scaleFactor, viewY)
    ensures Drawing(gl, log0, heap0, base, rects', quads', sent', next)
  {
    next, sent', rects', quads' := count, sent, rects, quads;
    assert rects' == rects + [];
    var f := sc.ballCount;
    while f > 0
      invariant 0 <= f <= sc.ballCount
      invariant rects' == rects + FragmentsDown(base, sc, sc.ballCount, f, scaleFactor, viewY)
      invariant Drawing(gl, log0, heap0, base, rects', quads', sent', next)
    {
      f := f - 1;
      next, sent', rects', quads' := DrawExplodingBall(gl, sc, base, f, scaleFactor, viewY, next, log0, heap0, rects, rects', quads', sent');
    }
  }

  /** One pass of the ball loop: ball f's fragments, while its time is not zero. */
  method DrawExplodingBall(gl: Renderer.WebGL, sc: Scene, base: nat, f: nat, scaleFactor: real, viewY: real, count: nat,
                           ghost log0: seq<GLCall>, ghost heap0: seq<real>, ghost prefix: seq<Rect>, ghost rects: seq<Rect>,
                           ghost quads: seq<seq<real>>, ghost sent: nat)
    returns (next: nat, ghost sent': nat, ghost rects': seq<Rect>, ghost quads': seq<seq<real>>)
    requires ValidScene(sc) && f < sc.ballCount
    requires rects == prefix + FragmentsDown(base, sc, sc.ballCount, f + 1, scaleFactor, viewY)
    requires Drawing(gl, log0, heap0, base, rects, quads, sent, count)
    modifies gl`log, gl`rectangleCount, gl.heap
    ensures rects' == prefix + FragmentsDown(base, sc, sc.ballCount, f, scaleFactor, viewY)
    ensures Drawing(gl, log0, heap0, base, rects', quads', sent', next)
  {
    next, sent', rects', quads' := count, sent, rects, quads;
    ghost var drawn := FragmentsDown(base, sc, sc.ballCount, f + 1, scaleFactor, viewY);
    if sc.fragmentTime[f] != 0.0 {
      next, sent', rects', quads' := DrawBall(gl, sc, base, f, scaleFactor, viewY, count, log0, heap0, rects, quads, sent);
      FragmentsStep(base, sc, f, scaleFactor, viewY, prefix, drawn, BallFragments(base, sc, f, FragmentsPerBall, scaleFactor, viewY));
    } else {
      FragmentsStep(base, sc, f, scaleFactor, viewY, prefix, drawn, []);
    }
  }

  lemma FragmentsStep(base: nat, sc: Scene, f: nat, scaleFactor: real, viewY: real, prefix: seq<Rect>, drawn: seq<Rect>, rs: seq<Rect>)
    requires ValidScene(sc) && f < sc.ballCount
    requires drawn == FragmentsDown(base, sc, sc.ballCount, f + 1, scaleFactor, viewY)
    requires rs == if sc.fragmentTime[f] != 0.0 then BallFragments(base, sc, f, FragmentsPerBall, scaleFactor, viewY) else []
    ensures prefix + drawn + rs == prefix + FragmentsDown(base, sc, sc.ballCount, f, scaleFactor, viewY)
  {
  }

  /** The fragment part of `render` (lib/gl.c:446-473): the explosion background, then the fragments. */
  method DrawFragments(gl: Renderer.WebGL, level: LevelState, sc: Scene, base: nat, scaleFactor: real, viewY: real, count: nat,
                       ghost log0: seq<GLCall>, ghost heap0: seq<real>, ghost rects: seq<Rect>, ghost quads: seq<seq<real>>, ghost sent: nat)
    returns (next: nat, ghost sent': nat, ghost rects': seq<Rect>, ghost quads': seq<seq<real>>)
    requires ValidScene(sc) && Drawing(gl, log0, heap0, base, rects, quads, sent, count)
    modifies gl`log, gl`rectangleCount, gl.heap, level`explosionBgAlpha
    ensures level.explosionBgAlpha == ExplosionAlpha(MaxUnsaved(sc.fragmentTime, sc.fragmentSaved, sc.ballCount, 0))
    ensures rects' == rects + FragmentsDown(base, sc, sc.ballCount, 0, scaleFactor, viewY)
    ensures Drawing(gl, log0, heap0, base, rects', quads', sent', next)
  {
    var max := MaxUnsavedTime(sc);
    SetExplosion(level, max);
    next, sent', rects', quads' := DrawBalls(gl, sc, base, scaleFactor, viewY, count, log0, heap0, rects, quads, sent);
  }

  /** The two cursor rectangles (lib/gl.c:475-480). */
  method DrawCursor(gl: Renderer.WebGL, c: Cursor, base: nat, globalAlpha: real, scaleFactor: real, count: nat,
                    ghost log0: seq<GLCall>, ghost heap0: seq<real>, ghost rects: seq<Rect>, ghost quads: seq<seq<real>>, ghost sent: nat)
    returns (next: nat, ghost sent': nat, ghost rects': seq<Rect>, ghost quads': seq<seq<real>>)
    requires Drawing(gl, log0, heap0, base, rects, quads, sent, count)
    modifies gl`log, gl`rectangleCount, gl.heap
    ensures rects' == rects + CursorRects(base, c, globalAlpha, scaleFactor)
    ensures Drawing(gl, log0, heap0, base, rects', quads', sent', next)
  {
    var center := CursorCenter(base, c, globalAlpha, scaleFactor);
    next, sent' := EmitSheet(gl, base, center, CursorCenterModel, CursorCenterTexture, count, log0, heap0, rects, quads, sent);
    rects', quads' := rects + [center], quads + [Rendered(heap0, center)];
    var target := CursorTarget(base, c, globalAlpha, scaleFactor);
    next, sent' := EmitSheet(gl, base, target, CursorTargetModel, CursorTargetTexture, next, log0, heap0, rects', quads', sent');
    rects', quads' := rects' + [target], quads' + [Rendered(heap0, target)];
  }

  /** The objects, fragments and cursor of `render` (lib/gl.c:414-480), from the first slot. */
  method DrawScene(gl: Renderer.WebGL, level: LevelState, sc: Scene, base: nat, globalAlpha: real, scaleFactor: real, viewY: real)
    returns (count: nat, ghost sent: nat, ghost rects: seq<Rect>, ghost quads: seq<seq<real>>)
    requires gl.Valid() && gl.Ready() && gl.rectangleCount == 0 && SheetReadable(gl.heap[..], gl.verticesPtr, base) && ValidScene(sc)
    modifies gl`log, gl`rectangleCount, gl.heap, level`explosionBgAlpha
    ensures level.explosionBgAlpha == if sc.fragmentsAlive then ExplosionAlpha(MaxUnsaved(sc.fragmentTime, sc.fragmentSaved, sc.ballCount, 0)) else old(level.explosionBgAlpha)
    ensures rects == ScenePart(base, sc, globalAlpha, scaleFactor, viewY)
    ensures Drawing(gl, old(gl.log), old(gl.heap[..]), base, rects, quads, sent, count)
  {
    ghost var log0, heap0 := gl.log, gl.heap[..];
    Started(gl);
    TracksStart(heap0, gl.verticesPtr);
    count, sent, rects, quads := DrawObjectPart(gl, sc, base, globalAlpha, scaleFactor, viewY, 0, log0, heap0, [], [], 0);
    count, sent, rects, quads := DrawFragmentPart(gl, level, sc, base, scaleFactor, viewY, count, log0, heap0, rects, quads, sent);
    count, sent, rects, quads := DrawCursorPart(gl, sc, base, globalAlpha, scaleFactor, count, log0, heap0, rects, quads, sent);
    ScenePartSplit(base, sc, globalAlpha, scaleFactor, viewY);
  }

  lemma ScenePartSplit(base: nat, sc: Scene, globalAlpha: real, scaleFactor: real, viewY: real)
    requires ValidScene(sc)
    ensures [] + ObjectPart(base, sc, globalAlpha, scaleFactor, viewY) + FragmentPart(base, sc, scaleFactor, viewY)
      + CursorPart(base, sc, globalAlpha, scaleFactor) == ScenePart(base, sc, globalAlpha, scaleFactor, viewY)
  {
    assert [] + ObjectPart(base, sc, globalAlpha, scaleFactor, viewY) == ObjectPart(base, sc, globalAlpha, scaleFactor, viewY);
  }

  /** The object loops of `render` (lib/gl.c:414-444). */
  method DrawObjectPart(gl: Renderer.WebGL, sc: Scene, base: nat, globalAlpha: real, scaleFactor: real, viewY: real, count: nat,
                        ghost log0: seq<GLCall>, ghost heap0: seq<real>, ghost rects: seq<Rect>, ghost quads: seq<seq<real>>, ghost sent: nat)
    returns (next: nat, ghost sent': nat, ghost rects': seq<Rect>, ghost quads': seq<seq<real>>)
    requires ValidScene(sc) && Drawing(gl, log0, heap0, base, rects, quads, sent, count)
    modifies gl`log, gl`rectangleCount, gl.heap
    ensures rects' == rects + ObjectPart(base, sc, globalAlpha, scaleFactor, viewY)
    ensures Drawing(gl, log0, heap0, base, rects', quads', sent', next)
  {
    next, sent', rects', quads' := DrawObjects(gl, sc, base, globalAlpha, scaleFactor, viewY, count, log0, heap0, rects, quads, sent);
    ghost var objects := ObjectsDown(base, sc.objects, |sc.objects|, 0, sc.cucumbersAnimating, globalAlpha, scaleFactor, viewY);
    ghost var cucumbers := [];
    if sc.cucumbersAnimating {
      cucumbers := CucumbersDown(base, sc.objects, sc.cucumberFirst + sc.cucumberCount, sc.cucumberFirst, globalAlpha, scaleFactor, viewY);
      next, sent', rects', quads' := DrawCucumbers(gl, sc, base, globalAlpha, scaleFactor, viewY, next, log0, heap0, rects', quads', sent');
    } else {
      assert rects' == rects + objects + cucumbers;
    }
    ObjectPartSplit(base, sc, globalAlpha, scaleFactor, viewY, rects, objects, cucumbers);
  }

  lemma ObjectPartSplit(base: nat, sc: Scene, globalAlpha: real, scaleFactor: real, viewY: real, prefix: seq<Rect>, objects: seq<Rect>, cucumbers: seq<Rect>)
    requires ValidScene(sc)
    requires objects == ObjectsDown(base, sc.objects, |sc.objects|, 0, sc.cucumbersAnimating, globalAlpha, scaleFactor, viewY)
    requires cucumbers == if sc.cucumbersAnimating
      then CucumbersDown(base, sc.objects, sc.cucumberFirst + sc.cucumberCount, sc.cucumberFirst, globalAlpha, scaleFactor, viewY) else []
    ensures prefix + objects + cucumbers == prefix + ObjectPart(base, sc, globalAlpha, scaleFactor, viewY)
  {
  }

  /** The fragment part of `render`, while fragments are alive (lib/gl.c:446-473). */
  method DrawFragmentPart(gl: Renderer.WebGL, level: LevelState, sc: Scene, base: nat, scaleFactor: real, viewY: real, count: nat,
                          ghost log0: seq<GLCall>, ghost heap0: seq<real>, ghost rects: seq<Rect>, ghost quads: seq<seq<real>>, ghost sent: nat)
    returns (next: nat, ghost sent': nat, ghost rects': seq<Rect>, ghost quads': seq<seq<real>>)
    requires ValidScene(sc) && Drawing(gl, log0, heap0, base, rects, quads, sent, count)
    modifies gl`log, gl`rectangleCount, gl.heap, level`explosionBgAlpha
    ensures level.explosionBgAlpha == if sc.fragmentsAlive then ExplosionAlpha(MaxUnsaved(sc.fragmentTime, sc.fragmentSaved, sc.ballCount, 0)) else old(level.explosionBgAlpha)
    ensures rects' == rects + FragmentPart(base, sc, scaleFactor, viewY)
    ensures Drawing(gl, log0, heap0, base, rects', quads', sent', next)
  {
    next, sent', rects', quads' := count, sent, rects, quads;
    if sc.fragmentsAlive {
      next, sent', rects', quads' := DrawFragments(gl, level, sc, base, scaleFactor, viewY, count, log0, heap0, rects, quads, sent);
    } else {
      assert rects' == rects + [];
    }
  }

  /** The cursor part of `render`, while a cursor is attached (lib/gl.c:475-480). */
  method DrawCursorPart(gl: Renderer.WebGL, sc: Scene, base: nat, globalAlpha: real, scaleFactor: real, count: nat,
                        ghost log0: seq<GLCall>, ghost heap0: seq<real>, ghost rects: seq<Rect>, ghost quads: seq<seq<real>>, ghost sent: nat)
    returns (next: nat, ghost sent': nat, ghost rects': seq<Rect>, ghost quads': seq<seq<real>>)
    requires Drawing(gl, log0, heap0, base, rects, quads, sent, count)
    modifies gl`log, gl`rectangleCount, gl.heap
    ensures rects' == rects + CursorPart(base, sc, globalAlpha, scaleFactor)
    ensures Drawing(gl, log0, heap0, base, rects', quads', sent', next)
  {
    next, sent', rects', quads' := count, sent, rects, quads;
    match sc.cursor
    case None =>
      assert rects' == rects + [];
    case Some(c) =>
      next, sent', rects', quads' := DrawCursor(gl, c, base, globalAlpha, scaleFactor, count, log0, heap0, rects, quads, sent);
  }

  /** The face's fade of a finished game (lib/gl.c:485-492): returns the face's alpha. */
  method FadeFace(level: LevelState) returns (alpha: real)
    modifies level`fadeBgAlpha
    ensures level.fadeBgAlpha == FaceFade(old(level.fadeBgAlpha), old(level.deltaSeconds))
    ensures alpha == FaceAlpha(old(level.fadeBgAlpha), old(level.deltaSeconds))
  {
    alpha := level.fadeBgAlpha;
    if alpha < 1.0 {
      alpha := alpha + (2.0 * level.deltaSeconds);
      if alpha > 1.0 {
        alpha := 1.0;
      }
      level.fadeBgAlpha := alpha;
      alpha := SmoothStep(alpha);
    }
  }

  /** Taking 2 off a victory clock of at least 2 leaves its wrapped value alone. */
  lemma WrapStep(v: real)
    requires v >= 2.0
    ensures VictoryWrap(v - 2.0) == VictoryWrap(v)
  {
    var n := Floor(v / 2.0);
    assert n as real <= v / 2.0 < n as real + 1.0;
    assert Floor((v - 2.0) / 2.0) == n - 1 by {
      assert (v - 2.0) / 2.0 == v / 2.0 - 1.0;
    }
  }

  /** The victory clock of lib/gl.c:515-519: two seconds per second, wrapped into [0, 2). */
  method AdvanceVictoryTime(level: LevelState) returns (victoryTime: real)
    modifies level`victoryTime
    ensures victoryTime == level.victoryTime == VictoryAdvance(old(level.victoryTime), old(level.deltaSeconds))
  {
    victoryTime := level.victoryTime + (2.0 * level.deltaSeconds);
    ghost var v0 := victoryTime;
    while victoryTime >= 2.0
      invariant VictoryWrap(victoryTime) == VictoryWrap(v0)
      decreases Floor(victoryTime)
    {
      WrapStep(victoryTime);
      victoryTime := victoryTime - 2.0;
    }
    level.victoryTime := victoryTime;
  }

  /** One pass of the victory loop (lib/gl.c:503-512): fragment k, unless it was lost or lies outside the view. */
  method DrawVictoryFragment(gl: Renderer.WebGL, sc: Scene, base: nat, k: nat, limitY: real, scaleFactor: real, count: nat,
                             ghost log0: seq<GLCall>, ghost heap0: seq<real>, ghost prefix: seq<Rect>, ghost rects: seq<Rect>,
                             ghost quads: seq<seq<real>>, ghost sent: nat)
    returns (next: nat, ghost sent': nat, ghost rects': seq<Rect>, ghost quads': seq<seq<real>>)
    requires ValidScene(sc) && k < VictoryFragmentCount && limitY == sc.viewHeight + 4.0
    requires rects == prefix + VictoryUpTo(base, sc, k, scaleFactor)
    requires Drawing(gl, log0, heap0, base, rects, quads, sent, count)
    modifies gl`log, gl`rectangleCount, gl.heap
    ensures rects' == prefix + VictoryUpTo(base, sc, k + 1, scaleFactor)
    ensures Drawing(gl, log0, heap0, base, rects', quads', sent', next)
  {
    next, sent', rects', quads' := count, sent, rects, quads;
    var shown := IsVictoryShown(sc, k, limitY);
    ghost var drawn := VictoryUpTo(base, sc, k, scaleFactor);
    if shown {
      var j := FragmentsPerBall * sc.ballCount + k;
      var r := VictoryRect(base, sc, k, scaleFactor);
      next, sent' := EmitSheet(gl, base, r, FragmentModel + Low3(j), FragmentTexture + 8 + Low3(j), next, log0, heap0, rects, quads, sent);
      rects', quads' := rects + [r], quads + [Rendered(heap0, r)];
      VictoryStep(base, sc, k, scaleFactor, prefix, drawn, [r]);
    } else {
      VictoryStep(base, sc, k, scaleFactor, prefix, drawn, []);
    }
  }

  /** The tests of the victory loop, each a `continue` (lib/gl.c:503-509). */
  method IsVictoryShown(sc: Scene, k: nat, limitY: real) returns (shown: bool)
    requires ValidScene(sc) && k < VictoryFragmentCount && limitY == sc.viewHeight + 4.0
    ensures shown == VictoryShown(sc, k)
  {
    var i, j := sc.ballCount + k, FragmentsPerBall * sc.ballCount + k;
    shown := false;
    if sc.fragmentSaved[i] {
      var x := sc.fragmentX[j];
      if x <= -4.0 || x >= BaseWidth + 4.0 {
        return;
      }
      var y := sc.fragmentY[j];
      if y >= limitY {
        return;
      }
      shown := true;
    }
  }

  /** Victory fragment k's rectangles extend the list of the first k. */
  lemma VictoryStep(base: nat, sc: Scene, k: nat, scaleFactor: real, prefix: seq<Rect>, drawn: seq<Rect>, rs: seq<Rect>)
    requires ValidScene(sc) && k < VictoryFragmentCount
    requires drawn == VictoryUpTo(base, sc, k, scaleFactor) && rs == VictoryRects(base, sc, k, scaleFactor)
    ensures prefix + drawn + rs == prefix + VictoryUpTo(base, sc, k + 1, scaleFactor)
  {
  }

  /** The victory fragments, the saved ones that fell out of the level (lib/gl.c:502-513). */
  method DrawVictory(gl: Renderer.WebGL, sc: Scene, base: nat, scaleFactor: real, count: nat,
                     ghost log0: seq<GLCall>, ghost heap0: seq<real>, ghost rects: seq<Rect>, ghost quads: seq<seq<real>>, ghost sent: nat)
    returns (next: nat, ghost sent': nat, ghost rects': seq<Rect>, ghost quads': seq<seq<real>>)
    requires ValidScene(sc) && Drawing(gl, log0, heap0, base, rects, quads, sent, count)
    modifies gl`log, gl`rectangleCount, gl.heap
    ensures rects' == rects + VictoryUpTo(base, sc, VictoryFragmentCount, scaleFactor)
    ensures Drawing(gl, log0, heap0, base, rects', quads', sent', next)
  {
    next, sent', rects', quads' := count, sent, rects, quads;
    assert rects' == rects + [];
    var limitY := sc.viewHeight + 4.0;
    var k := 0;
    while k < VictoryFragmentCount
      invariant 0 <= k <= VictoryFragmentCount
      invariant rects' == rects + VictoryUpTo(base, sc, k, scaleFactor)
      invariant Drawing(gl, log0, heap0, base, rects', quads', sent', next)
    {
      next, sent', rects', quads' := DrawVictoryFragment(gl, sc, base, k, limitY, scaleFactor, next, log0, heap0, rects, rects', quads', sent');
      k := k + 1;
    }
  }

  /** What a finished game draws after the flush (lib/gl.c:485-527), from the first slot. */
  method DrawFinishedGame(gl: Renderer.WebGL, level: LevelState, sc: Scene, base: nat, scaleFactor: real, sin: real -> real,
                          ghost log0: seq<GLCall>, ghost heap0: seq<real>)
    returns (count: nat, ghost sent: nat, ghost rects: seq<Rect>, ghost quads: seq<seq<real>>)
    requires ValidScene(sc) && Drawing(gl, log0, heap0, base, [], [], 0, 0)
    modifies gl`log, gl`rectangleCount, gl.heap, level`fadeBgAlpha, level`victoryTime
    ensures level.fadeBgAlpha == FaceFade(old(level.fadeBgAlpha), old(level.deltaSeconds))
    ensures level.victoryTime == if And(old(level.finished), FinishedVictory) != 0
      then VictoryAdvance(old(level.victoryTime), old(level.deltaSeconds)) else old(level.victoryTime)
    ensures rects == FinishPart(base, sc, old(level.finished), FaceAlpha(old(level.fadeBgAlpha), old(level.deltaSeconds)), level.victoryTime, scaleFactor, sin)
    ensures Drawing(gl, log0, heap0, base, rects, quads, sent, count)
  {
    var alpha := FadeFace(level);
    if And(level.finished, FinishedVictory) != 0 {
      count, sent, rects, quads := DrawHappyEnd(gl, level, sc, base, alpha, scaleFactor, sin, log0, heap0);
    } else {
      var face := SadFace(base, alpha, scaleFactor);
      count, sent := EmitSheet(gl, base, face, FaceModel, SadFaceTexture, 0, log0, heap0, [], [], 0);
      rects, quads := [face], [Rendered(heap0, face)];
    }
  }

  /** The end of a won game (lib/gl.c:494-522): the victory fragments, the clock, the happy face. */
  method DrawHappyEnd(gl: Renderer.WebGL, level: LevelState, sc: Scene, base: nat, alpha: real, scaleFactor: real, sin: real -> real,
                      ghost log0: seq<GLCall>, ghost heap0: seq<real>)
    returns (count: nat, ghost sent: nat, ghost rects: seq<Rect>, ghost quads: seq<seq<real>>)
    requires ValidScene(sc) && Drawing(gl, log0, heap0, base, [], [], 0, 0)
    modifies gl`log, gl`rectangleCount, gl.heap, level`victoryTime
    ensures level.victoryTime == VictoryAdvance(old(level.victoryTime), old(level.deltaSeconds))
    ensures rects == VictoryUpTo(base, sc, VictoryFragmentCount, scaleFactor) + [HappyFace(base, level.victoryTime, alpha, scaleFactor, sin)]
    ensures Drawing(gl, log0, heap0, base, rects, quads, sent, count)
  {
    count, sent, rects, quads := DrawVictory(gl, sc, base, scaleFactor, 0, log0, heap0, [], [], 0);
    assert rects == VictoryUpTo(base, sc, VictoryFragmentCount, scaleFactor);
    var victoryTime := AdvanceVictoryTime(level);
    var face := HappyFace(base, victoryTime, alpha, scaleFactor, sin);
    count, sent := EmitSheet(gl, base, face, FaceModel, HappyFaceTexture, count, log0, heap0, rects, quads, sent);
    rects, quads := rects + [face], quads + [Rendered(heap0, face)];
  }

  /** The scene of `render` (lib/gl.c:414-480) and the `drawNative` that sends its rest (lib/gl.c:483, 529). */
  method SendScene(gl: Renderer.WebGL, level: LevelState, sc: Scene, base: nat, globalAlpha: real, scaleFactor: real, viewY: real)
    requires gl.Valid() && gl.Ready() && gl.rectangleCount == 0 && SheetReadable(gl.heap[..], gl.verticesPtr, base) && ValidScene(sc)
    modifies gl`log, gl`rectangleCount, gl.heap, level`explosionBgAlpha
    ensures level.explosionBgAlpha == if sc.fragmentsAlive then ExplosionAlpha(MaxUnsaved(sc.fragmentTime, sc.fragmentSaved, sc.ballCount, 0)) else old(level.explosionBgAlpha)
    ensures var rects := ScenePart(base, sc, globalAlpha, scaleFactor, viewY);
      AllFit(old(gl.heap[..]), rects) && gl.log == old(gl.log) + FlushAll(gl.currentTexture, Chunks(Quads(old(gl.heap[..]), rects)))
    ensures gl.Valid() && gl.Ready() && gl.rectangleCount == 0 && gl.verticesPtr == old(gl.verticesPtr) && Unmoved(gl, old(gl.heap[..]))
    ensures gl.currentTexture == old(gl.currentTexture) && gl.Configuration() == old(gl.Configuration())
  {
    ghost var log0, heap0 := gl.log, gl.heap[..];
    var count;
    ghost var sent, rects, quads;
    count, sent, rects, quads := DrawScene(gl, level, sc, base, globalAlpha, scaleFactor, viewY);
    Finish(gl, count, log0, heap0, quads, sent);
  }

  /**
   * The end of a finished game (lib/gl.c:485-527): after the scene was sent,
   * the face and the victory fragments are drawn from the first slot and sent.
   */
  method SendFinishedGame(gl: Renderer.WebGL, level: LevelState, sc: Scene, base: nat, scaleFactor: real, sin: real -> real, ghost heap0: seq<real>)
    requires gl.Valid() && gl.Ready() && gl.rectangleCount == 0 && Unmoved(gl, heap0) && SheetReadable(heap0, gl.verticesPtr, base) && ValidScene(sc)
    modifies gl`log, gl`rectangleCount, gl.heap, level`fadeBgAlpha, level`victoryTime
    ensures old(level.finishedFading) == FinishedGame ==> level.fadeBgAlpha == FaceFade(old(level.fadeBgAlpha), old(level.deltaSeconds))
    ensures old(level.finishedFading) != FinishedGame ==> level.fadeBgAlpha == old(level.fadeBgAlpha)
    ensures level.victoryTime == if old(level.finishedFading) == FinishedGame && And(old(level.finished), FinishedVictory) != 0
      then VictoryAdvance(old(level.victoryTime), old(level.deltaSeconds)) else old(level.victoryTime)
    ensures old(level.finishedFading) != FinishedGame ==> gl.log == old(gl.log)
    ensures var rects := FinishPart(base, sc, old(level.finished), FaceAlpha(old(level.fadeBgAlpha), old(level.deltaSeconds)), level.victoryTime, scaleFactor, sin);
      old(level.finishedFading) == FinishedGame ==>
        AllFit(heap0, rects) && gl.log == old(gl.log) + FlushAll(gl.currentTexture, Chunks(Quads(heap0, rects)))
    ensures gl.Valid() && gl.Ready() && gl.rectangleCount == 0 && Unmoved(gl, heap0)
    ensures gl.currentTexture == old(gl.currentTexture) && gl.Configuration() == old(gl.Configuration())
  {
    if level.finishedFading == FinishedGame {
      ghost var log0 := gl.log;
      assert Chunks([]) == [];
      Restarted(gl, log0, heap0, []);
      var count;
      ghost var sent, rects, quads;
      count, sent, rects, quads := DrawFinishedGame(gl, level, sc, base, scaleFactor, sin, log0, heap0);
      Finish(gl, count, log0, heap0, quads, sent);
    }
  }

  /** `viewY * scaleFactor`, the scroll position in pixels of the framebuffer. */
  function ScaledViewY(sc: Scene, scaleFactor: real): real {
    sc.viewY * scaleFactor
  }

  /**
   * `render(vertices, level, levelSpriteSheet, scaleFactor)` (lib/gl.c:385-532):
   * the finish transition, then the objects, fragments and cursor in one
   * run of `drawNative` calls of at most 512 rectangles each, and for a
   * finished game a second run with the victory fragments and the face.
   * Returns `finishedThisFrame`. `sin` stands for `sinf`.
   */
  method Render(gl: Renderer.WebGL, level: LevelState, sc: Scene, base: nat, scaleFactor: real, sin: real -> real)
    returns (finishedThisFrame: int)
    requires gl.Valid() && gl.Ready() && gl.rectangleCount == 0 && SheetReadable(gl.heap[..], gl.verticesPtr, base) && ValidScene(sc)
    modifies gl`log, gl`rectangleCount, gl.heap, level`fadeBgAlpha, level`finishedFading, level`explosionBgAlpha, level`victoryTime
    ensures var tr := FinishTransition(old(level.finished), old(level.finishedFading), old(level.preview), old(level.fadeBgAlpha));
      && finishedThisFrame == tr.finishedThisFrame && level.finishedFading == tr.finishedFading
      && level.fadeBgAlpha == (if tr.finishedFading == FinishedGame then FaceFade(tr.fadeBgAlpha, old(level.deltaSeconds)) else tr.fadeBgAlpha)
      && level.victoryTime == (if tr.finishedFading == FinishedGame && And(old(level.finished), FinishedVictory) != 0
                               then VictoryAdvance(old(level.victoryTime), old(level.deltaSeconds)) else old(level.victoryTime))
    ensures level.explosionBgAlpha == if sc.fragmentsAlive then ExplosionAlpha(MaxUnsaved(sc.fragmentTime, sc.fragmentSaved, sc.ballCount, 0)) else old(level.explosionBgAlpha)
    ensures var tr := FinishTransition(old(level.finished), old(level.finishedFading), old(level.preview), old(level.fadeBgAlpha));
      var first := ScenePart(base, sc, old(level.globalAlpha), scaleFactor, ScaledViewY(sc, scaleFactor));
      var second := FinishPart(base, sc, old(level.finished), FaceAlpha(tr.fadeBgAlpha, old(level.deltaSeconds)), level.victoryTime, scaleFactor, sin);
      && AllFit(old(gl.heap[..]), first)
      && (tr.finishedFading == FinishedGame ==> AllFit(old(gl.heap[..]), second))
      && gl.log == old(gl.log) + FlushAll(gl.currentTexture, Chunks(Quads(old(gl.heap[..]), first)))
           + (if tr.finishedFading == FinishedGame then FlushAll(gl.currentTexture, Chunks(Quads(old(gl.heap[..]), second))) else [])
    ensures gl.Valid() && gl.Ready() && gl.rectangleCount == 0 && Unmoved(gl, old(gl.heap[..]))
    ensures gl.currentTexture == old(gl.currentTexture) && gl.Configuration() == old(gl.Configuration())
  {
    finishedThisFrame := ApplyFinishTransition(level);
    RenderScene(gl, level, sc, base, scaleFactor, sin);
  }

  /** What `render` draws once the finish transition is applied (lib/gl.c:414-529). */
  method RenderScene(gl: Renderer.WebGL, level: LevelState, sc: Scene, base: nat, scaleFactor: real, sin: real -> real)
    requires gl.Valid() && gl.Ready() && gl.rectangleCount == 0 && SheetReadable(gl.heap[..], gl.verticesPtr, base) && ValidScene(sc)
    modifies gl`log, gl`rectangleCount, gl.heap, level`fadeBgAlpha, level`explosionBgAlpha, level`victoryTime
    ensures level.fadeBgAlpha == if old(level.finishedFading) == FinishedGame then FaceFade(old(level.fadeBgAlpha), old(level.deltaSeconds)) else old(level.fadeBgAlpha)
    ensures level.victoryTime == if old(level.finishedFading) == FinishedGame && And(old(level.finished), FinishedVictory) != 0
      then VictoryAdvance(old(level.victoryTime), old(level.deltaSeconds)) else old(level.victoryTime)
    ensures level.explosionBgAlpha == if sc.fragmentsAlive then ExplosionAlpha(MaxUnsaved(sc.fragmentTime, sc.fragmentSaved, sc.ballCount, 0)) else old(level.explosionBgAlpha)
    ensures AllFit(old(gl.heap[..]), ScenePart(base, sc, old(level.globalAlpha), scaleFactor, ScaledViewY(sc, scaleFactor)))
    ensures old(level.finishedFading) != FinishedGame ==>
      gl.log == old(gl.log) + FlushAll(gl.currentTexture, Chunks(Quads(old(gl.heap[..]), ScenePart(base, sc, old(level.globalAlpha), scaleFactor, ScaledViewY(sc, scaleFactor)))))
    ensures var second := FinishPart(base, sc, old(level.finished), FaceAlpha(old(level.fadeBgAlpha), old(level.deltaSeconds)), level.victoryTime, scaleFactor, sin);
      old(level.finishedFading) == FinishedGame ==> AllFit(old(gl.heap[..]), second)
    ensures var second := FinishPart(base, sc, old(level.finished), FaceAlpha(old(level.fadeBgAlpha), old(level.deltaSeconds)), level.victoryTime, scaleFactor, sin);
      old(level.finishedFading) == FinishedGame ==>
      gl.log == old(gl.log) + FlushAll(gl.currentTexture, Chunks(Quads(old(gl.heap[..]), ScenePart(base, sc, old(level.globalAlpha), scaleFactor, ScaledViewY(sc, scaleFactor)))))
        + FlushAll(gl.currentTexture, Chunks(Quads(old(gl.heap[..]), second)))
    ensures gl.Valid() && gl.Ready() && gl.rectangleCount == 0 && Unmoved(gl, old(gl.heap[..]))
    ensures gl.currentTexture == old(gl.currentTexture) && gl.Configuration() == old(gl.Configuration())
  {
    var viewY := ScaledViewY(sc, scaleFactor);
    var globalAlpha := level.globalAlpha;
    ghost var heap0 := gl.heap[..];
    SendScene(gl, level, sc, base, globalAlpha, scaleFactor, viewY);
    SendFinishedGame(gl, level, sc, base, scaleFactor, sin, heap0);
  }
}
