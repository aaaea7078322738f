/**
 * The render functions of lib/gl.c: `renderBackground`,
 * `renderCompactBackground` and `render` write rectangles straight into the
 * staging buffer of the `WebGL` renderer and hand them to it with
 * `drawNative`, counting them with the `incrementRectangleCount` /
 * `flushRectangleCount` macros.
 *
 * The rectangles a render function writes are described by `Rect` values and
 * the lists the C code produces by specification functions; the methods
 * follow the C loops and are proved to issue exactly the GL calls of those
 * lists, cut into chunks of at most 512 rectangles.
 */
module GlRender {
  import opened Wrappers
  import opened Bits
  import opened JsNumbers
  import opened Batching
  import opened SheetLayout
  import Gl
  import Renderer

  const BaseWidth: real := 420.0
  const FragmentsPerBall: nat := 64
  const VictoryFragmentCount: nat := 500
  const FragmentsMaxTime: real := 1.5
  const FragmentsMaxTimeSaved: real := 3.5
  const FinishedThisFrame: int := 1
  const FinishedVictory: nat := 2
  /** The values of `finishedFading`. */
  const FinishedGame: int := 1
  const FinishedPreview: int := 2
  const VisibilityVisible: nat := 1
  /** `6.283185307f`, the wrap-around of the background angles. */
  const TwoPi: real := 6.283185307
  /** The longest frame the animations advance by, in milliseconds. */
  const MaxDeltaMilliseconds: real := 33.0

  /** A rectangle a render function writes: the draw variant, its descriptors (byte addresses) and arguments. */
  datatype Rect =
    | Plain(model: nat, alpha: real, texture: nat, viewX: real, viewY: real)
    | Scaled(model: nat, alpha: real, texture: nat, scale: real, viewX: real, viewY: real)
    | Rotated(model: nat, alpha: real, texture: nat, cosv: real, sinv: real, viewX: real, viewY: real)

  /** The twelve floats `draw`, `drawScale` or `drawRotate` writes for `r`, reading its descriptors from `heap`. */
  function Rendered(heap: seq<real>, r: Rect): (q: seq<real>)
    requires Gl.Fits(heap, r.model, 4) && Gl.Fits(heap, r.texture, 4)
    ensures |q| == FloatsPerRectangle
  {
    var m := Gl.ModelAt(heap, r.model);
    var t := Gl.TextureAt(heap, r.texture);
    match r
    case Plain(_, alpha, _, viewX, viewY) => Gl.DrawQuad(m, alpha, t, viewX, viewY)
    case Scaled(_, alpha, _, scale, viewX, viewY) => Gl.DrawScaleQuad(m, alpha, t, scale, viewX, viewY)
    case Rotated(_, alpha, _, cosv, sinv, viewX, viewY) => Gl.DrawRotateQuad(m, alpha, t, cosv, sinv, viewX, viewY)
  }

  predicate AllFit(heap: seq<real>, rects: seq<Rect>) {
    forall k :: 0 <= k < |rects| ==> Gl.Fits(heap, rects[k].model, 4) && Gl.Fits(heap, rects[k].texture, 4)
  }

  /** The rectangles the C side writes for `rects`, in order. */
  function Quads(heap: seq<real>, rects: seq<Rect>): (q: seq<seq<real>>)
    requires AllFit(heap, rects)
    ensures |q| == |rects|
  {
    seq(|rects|, k requires 0 <= k < |rects| => Rendered(heap, rects[k]))
  }

  lemma QuadsAppend(heap: seq<real>, a: seq<Rect>, b: seq<Rect>)
    requires AllFit(heap, a) && AllFit(heap, b)
    ensures AllFit(heap, a + b) && Quads(heap, a + b) == Quads(heap, a) + Quads(heap, b)
  {
    assert forall k :: 0 <= k < |a + b| ==> (a + b)[k] == if k < |a| then a[k] else b[k - |a|];
  }

  /** The descriptors of `r` lie in the heap, away from a staging buffer at byte address `staging`. */
  predicate ReadableBy(heap: seq<real>, staging: nat, r: Rect) {
    && Gl.Fits(heap, r.model, 4) && Gl.Fits(heap, r.texture, 4)
    && Gl.Disjoint(staging, Renderer.StagingFloats, r.model, 4)
    && Gl.Disjoint(staging, Renderer.StagingFloats, r.texture, 4)
  }

  /** Every descriptor of a sprite sheet at `base` lies in the heap, away from the staging buffer. */
  predicate SheetReadable(heap: seq<real>, staging: nat, base: nat) {
    forall k :: 0 <= k < DescriptorCount ==>
      Gl.Fits(heap, Field(base, k), 4) && Gl.Disjoint(staging, Renderer.StagingFloats, Field(base, k), 4)
  }

  /** The heap outside the staging buffer of `gl` is as in `heap0`. */
  ghost predicate Unmoved(gl: Renderer.WebGL, heap0: seq<real>)
    reads gl`verticesPtr, gl.heap
  {
    UnmovedIn(gl.heap[..], gl.verticesPtr, heap0)
  }

  /** `h` is as `heap0` outside the staging buffer at `staging`. */
  ghost predicate UnmovedIn(h: seq<real>, staging: nat, heap0: seq<real>) {
    |h| == |heap0|
    && forall k :: 0 <= k < |h| && !(staging / 4 <= k < staging / 4 + Renderer.StagingFloats) ==> h[k] == heap0[k]
  }

  /** A rectangle reads the same floats from two heaps that agree outside the staging buffer. */
  lemma RenderedUnmoved(h0: seq<real>, h1: seq<real>, staging: nat, r: Rect)
    requires |h0| == |h1| && ReadableBy(h0, staging, r)
    requires forall k :: 0 <= k < |h1| && !(staging / 4 <= k < staging / 4 + Renderer.StagingFloats) ==> h1[k] == h0[k]
    ensures ReadableBy(h1, staging, r) && Rendered(h1, r) == Rendered(h0, r)
  {
    assert Gl.ModelAt(h1, r.model) == Gl.ModelAt(h0, r.model);
    assert Gl.TextureAt(h1, r.texture) == Gl.TextureAt(h0, r.texture);
  }

  /** `quads` are the rectangles `rects` write, reading descriptors that lie away from the staging buffer. */
  ghost predicate Tracks(heap0: seq<real>, staging: nat, rects: seq<Rect>, quads: seq<seq<real>>) {
    && (forall k :: 0 <= k < |rects| ==> ReadableBy(heap0, staging, rects[k]))
    && quads == Quads(heap0, rects)
  }

  lemma TracksStart(heap0: seq<real>, staging: nat)
    ensures Tracks(heap0, staging, [], [])
  {
  }

  lemma TracksSnoc(heap0: seq<real>, staging: nat, rects: seq<Rect>, quads: seq<seq<real>>, r: Rect)
    requires Tracks(heap0, staging, rects, quads) && ReadableBy(heap0, staging, r)
    ensures Tracks(heap0, staging, rects + [r], quads + [Rendered(heap0, r)])
  {
    assert forall k :: 0 <= k < |rects| ==> (rects + [r])[k] == rects[k];
  }

  /** The first `sent` of `quads` (a whole number of chunks) went to `drawNative`. */
  ghost predicate Sent(gl: Renderer.WebGL, log0: seq<GLCall>, quads: seq<seq<real>>, sent: nat)
    reads gl`log, gl`currentTexture
  {
    sent <= |quads| && sent % RectangleCapacity == 0
    && gl.log == log0 + FlushAll(gl.currentTexture, Chunks(quads[..sent]))
  }

  /** The rest of `quads` sit in the first `count` slots, and the heap is otherwise as in `heap0`. */
  ghost predicate Staged(gl: Renderer.WebGL, heap0: seq<real>, quads: seq<seq<real>>, sent: nat, count: nat)
    reads gl`rectangleCount, gl`context, gl`verticesPtr, gl.heap
  {
    && gl.Valid() && gl.Ready() && gl.rectangleCount == 0
    && StagedIn(gl.heap[..], gl.verticesPtr, heap0, quads, sent, count)
  }

  /** `Staged`, for the heap contents `h` with the staging buffer at `staging`. */
  ghost predicate StagedIn(h: seq<real>, staging: nat, heap0: seq<real>, quads: seq<seq<real>>, sent: nat, count: nat) {
    && count <= RectangleCapacity && staging / 4 + Renderer.StagingFloats <= |h|
    && UnmovedIn(h, staging, heap0)
    && sent + count == |quads| && Renderer.Slots(h, staging, count) == quads[sent..]
  }

  /**
   * The state of a C render function after emitting `quads`: the first `sent`
   * went to `drawNative`, the remaining `count` are staged, and `gl` has
   * nothing pending of its own.
   */
  ghost predicate Emitted(gl: Renderer.WebGL, log0: seq<GLCall>, heap0: seq<real>, quads: seq<seq<real>>, sent: nat, count: nat)
    reads gl, gl.heap
  {
    Sent(gl, log0, quads, sent) && Staged(gl, heap0, quads, sent, count)
  }

  /** The staged slots, read from the heap of `gl`. */
  function Slots(heap: array<real>, base: nat, n: nat): seq<seq<real>>
    reads heap
    requires base / 4 + FloatsPerRectangle * n <= heap.Length
  {
    Renderer.Slots(heap[..], base, n)
  }

  /** Whole chunks followed by at most one chunk's worth: the chunks of the whole are those of the first part and the rest. */
  lemma {:induction false} ChunksAfterWhole(t: Option<TextureId>, a: seq<seq<real>>, b: seq<seq<real>>)
    requires |a| % RectangleCapacity == 0 && |b| <= RectangleCapacity
    ensures FlushAll(t, Chunks(a + b)) == FlushAll(t, Chunks(a)) + (if |b| == 0 then [] else FlushCalls(t, b))
    decreases |a|
  {
    if |b| == 0 {
      assert a + b == a;
    } else if |a| == 0 {
      assert a + b == b;
      FlushAllCons(t, b, []);
    } else {
      var rest := a[RectangleCapacity..];
      ChunksAfterWhole(t, rest, b);
      assert (a + b)[..RectangleCapacity] == a[..RectangleCapacity];
      assert (a + b)[RectangleCapacity..] == rest + b;
      FlushAllCons(t, a[..RectangleCapacity], Chunks(rest + b));
      FirstChunk(t, a);
    }
  }

  /** The flushes of a chunk list start with that of its first chunk. */
  lemma FlushAllCons(t: Option<TextureId>, c: seq<seq<real>>, rest: seq<seq<seq<real>>>)
    ensures FlushAll(t, [c] + rest) == FlushCalls(t, c) + FlushAll(t, rest)
  {
    assert ([c] + rest)[1..] == rest;
  }

  /** A non-empty whole number of chunks flushes its first 512 rectangles, then the rest. */
  lemma FirstChunk(t: Option<TextureId>, a: seq<seq<real>>)
    requires |a| >= RectangleCapacity
    ensures FlushAll(t, Chunks(a)) == FlushCalls(t, a[..RectangleCapacity]) + FlushAll(t, Chunks(a[RectangleCapacity..]))
  {
    if |a| == RectangleCapacity {
      assert a[..RectangleCapacity] == a && a[RectangleCapacity..] == [];
      FlushAllCons(t, a, []);
    } else {
      FlushAllCons(t, a[..RectangleCapacity], Chunks(a[RectangleCapacity..]));
    }
  }

  /** Before the first rectangle: nothing emitted. */
  lemma Started(gl: Renderer.WebGL)
    requires gl.Valid() && gl.Ready() && gl.rectangleCount == 0
    ensures Emitted(gl, gl.log, gl.heap[..], [], 0, 0)
  {
    assert Chunks([]) == [];
  }

  /** Slot `count` of the staging buffer is where a rectangle with readable descriptors can be written. */
  lemma SlotArguments(heap: seq<real>, staging: nat, count: nat, r: Rect)
    requires staging % 4 == 0 && staging / 4 + Renderer.StagingFloats <= |heap| && count < RectangleCapacity
    requires ReadableBy(heap, staging, r)
    ensures (staging + Renderer.BytesPerRectangle * count) / 4 == staging / 4 + FloatsPerRectangle * count
    ensures Gl.DrawArguments(heap, staging + Renderer.BytesPerRectangle * count, r.model, r.texture)
  {
    var slot := staging + Renderer.BytesPerRectangle * count;
    assert slot == 4 * (staging / 4 + FloatsPerRectangle * count);
  }

  /** `draw`, `drawScale` or `drawRotate` of `r` at byte address `slot`. */
  method Write(heap: array<real>, slot: nat, r: Rect)
    requires Gl.DrawArguments(heap[..], slot, r.model, r.texture)
    modifies heap
    ensures heap[slot / 4..slot / 4 + FloatsPerRectangle] == Rendered(old(heap[..]), r)
    ensures forall k :: 0 <= k < heap.Length && !(slot / 4 <= k < slot / 4 + FloatsPerRectangle) ==> heap[k] == old(heap[k])
  {
    match r
    case Plain(model, alpha, texture, viewX, viewY) =>
      Gl.Draw(heap, slot, model, alpha, texture, viewX, viewY);
    case Scaled(model, alpha, texture, scale, viewX, viewY) =>
      Gl.DrawScale(heap, slot, model, alpha, texture, scale, viewX, viewY);
    case Rotated(model, alpha, texture, cosv, sinv, viewX, viewY) =>
      Gl.DrawRotate(heap, slot, model, alpha, texture, cosv, sinv, viewX, viewY);
  }

  /** Writing the next slot stages one more rectangle. */
  method Stage(gl: Renderer.WebGL, r: Rect, count: nat, ghost heap0: seq<real>, ghost quads: seq<seq<real>>, ghost sent: nat)
    requires Staged(gl, heap0, quads, sent, count) && count < RectangleCapacity
    requires ReadableBy(heap0, gl.verticesPtr, r)
    modifies gl.heap
    ensures Staged(gl, heap0, quads + [Rendered(heap0, r)], sent, count + 1)
  {
    var slot := gl.verticesPtr + Renderer.BytesPerRectangle * count;
    ghost var before := gl.heap[..];
    RenderedUnmoved(heap0, before, gl.verticesPtr, r);
    SlotArguments(before, gl.verticesPtr, count, r);
    Write(gl.heap, slot, r);
    StageStep(heap0, before, gl.heap[..], gl.verticesPtr, count, quads, sent, Rendered(heap0, r));
  }

  /** The heap facts behind `Stage`: one more slot written, nothing outside the staging buffer touched. */
  lemma StageStep(heap0: seq<real>, before: seq<real>, after: seq<real>, staging: nat, count: nat,
                  quads: seq<seq<real>>, sent: nat, q: seq<real>)
    requires StagedIn(before, staging, heap0, quads, sent, count) && count < RectangleCapacity && |after| == |before|
    requires after[staging / 4 + FloatsPerRectangle * count..staging / 4 + FloatsPerRectangle * count + FloatsPerRectangle] == q
    requires forall k :: 0 <= k < |after| && !(staging / 4 + FloatsPerRectangle * count <= k < staging / 4 + FloatsPerRectangle * count + FloatsPerRectangle) ==>
      after[k] == before[k]
    ensures StagedIn(after, staging, heap0, quads + [q], sent, count + 1)
  {
    Renderer.SlotsAppend(before, after, staging, count, q);
    assert (quads + [q])[sent..] == quads[sent..] + [q];
  }

  /** Staging more rectangles does not change what was sent. */
  lemma SentMore(gl: Renderer.WebGL, log0: seq<GLCall>, quads: seq<seq<real>>, sent: nat, more: seq<seq<real>>)
    requires Sent(gl, log0, quads, sent)
    ensures Sent(gl, log0, quads + more, sent)
  {
    assert (quads + more)[..sent] == quads[..sent];
  }

  /** `incrementSmallRectangleCount(); draw*(vertices, ...)`: the next slot, with no capacity check. */
  method EmitSmall(gl: Renderer.WebGL, r: Rect, count: nat,
                   ghost log0: seq<GLCall>, ghost heap0: seq<real>, ghost rects: seq<Rect>, ghost quads: seq<seq<real>>, ghost sent: nat)
    returns (next: nat)
    requires Emitted(gl, log0, heap0, quads, sent, count) && count < RectangleCapacity
    requires Tracks(heap0, gl.verticesPtr, rects, quads) && ReadableBy(heap0, gl.verticesPtr, r)
    modifies gl.heap
    ensures next == count + 1 && Emitted(gl, log0, heap0, quads + [Rendered(heap0, r)], sent, next)
    ensures Tracks(heap0, gl.verticesPtr, rects + [r], quads + [Rendered(heap0, r)])
  {
    TracksSnoc(heap0, gl.verticesPtr, rects, quads, r);
    Stage(gl, r, count, heap0, quads, sent);
    SentMore(gl, log0, quads, sent, [Rendered(heap0, r)]);
    next := count + 1;
  }

  /** `incrementRectangleCount(); draw*(vertices, ...)`: a full buffer goes to `drawNative` first. */
  method Emit(gl: Renderer.WebGL, r: Rect, count: nat,
              ghost log0: seq<GLCall>, ghost heap0: seq<real>, ghost rects: seq<Rect>, ghost quads: seq<seq<real>>, ghost sent: nat)
    returns (next: nat, ghost sent': nat)
    requires Emitted(gl, log0, heap0, quads, sent, count)
    requires Tracks(heap0, gl.verticesPtr, rects, quads) && ReadableBy(heap0, gl.verticesPtr, r)
    modifies gl`log, gl`rectangleCount, gl.heap
    ensures 1 <= next <= RectangleCapacity && Emitted(gl, log0, heap0, quads + [Rendered(heap0, r)], sent', next)
    ensures Tracks(heap0, gl.verticesPtr, rects + [r], quads + [Rendered(heap0, r)])
    ensures gl.currentTexture == old(gl.currentTexture) && gl.Configuration() == old(gl.Configuration())
    ensures gl.verticesPtr == old(gl.verticesPtr)
  {
    var c := count;
    sent' := sent;
    if c >= RectangleCapacity {
      FlushFull(gl, c, log0, heap0, quads, sent);
      sent', c := |quads|, 0;
    }
    next := EmitSmall(gl, r, c, log0, heap0, rects, quads, sent');
  }

  /** The `drawNative` of a full buffer inside `incrementRectangleCount`, after which all of `quads` is sent. */
  method FlushFull(gl: Renderer.WebGL, count: nat, ghost log0: seq<GLCall>, ghost heap0: seq<real>, ghost quads: seq<seq<real>>, ghost sent: nat)
    requires Emitted(gl, log0, heap0, quads, sent, count) && count >= RectangleCapacity
    modifies gl`log, gl`rectangleCount
    ensures Emitted(gl, log0, heap0, quads, |quads|, 0) && gl.verticesPtr == old(gl.verticesPtr)
    ensures gl.currentTexture == old(gl.currentTexture) && gl.Configuration() == old(gl.Configuration())
  {
    assert |quads| == sent + RectangleCapacity;
    assert |quads| % RectangleCapacity == 0;
    Finish(gl, count, log0, heap0, quads, sent);
    Restarted(gl, log0, heap0, quads);
  }

  /** `call_drawNative(rectangleCount)`: the staged rest goes to `drawNative`. */
  method Finish(gl: Renderer.WebGL, count: nat, ghost log0: seq<GLCall>, ghost heap0: seq<real>, ghost quads: seq<seq<real>>, ghost sent: nat)
    requires Emitted(gl, log0, heap0, quads, sent, count)
    modifies gl`log, gl`rectangleCount
    ensures gl.Valid() && gl.Ready() && gl.rectangleCount == 0 && gl.verticesPtr == old(gl.verticesPtr) && Unmoved(gl, heap0)
    ensures gl.log == log0 + FlushAll(gl.currentTexture, Chunks(quads))
    ensures gl.currentTexture == old(gl.currentTexture) && gl.Configuration() == old(gl.Configuration())
  {
    ghost var staged := quads[sent..];
    gl.DrawNative(count);
    assert gl.log == old(gl.log) + (if count == 0 then [] else FlushCalls(gl.currentTexture, staged));
    FlushedRest(gl.currentTexture, log0, old(gl.log), gl.log, quads, sent);
  }

  /** Flushing the staged rest after the whole chunks sent so far flushes the chunks of all of `quads`. */
  lemma FlushedRest(t: Option<TextureId>, log0: seq<GLCall>, before: seq<GLCall>, after: seq<GLCall>, quads: seq<seq<real>>, sent: nat)
    requires sent <= |quads| && sent % RectangleCapacity == 0 && |quads| - sent <= RectangleCapacity
    requires before == log0 + FlushAll(t, Chunks(quads[..sent]))
    requires after == before + (if sent == |quads| then [] else FlushCalls(t, quads[sent..]))
    ensures after == log0 + FlushAll(t, Chunks(quads))
  {
    assert quads == quads[..sent] + quads[sent..];
    ChunksAfterWhole(t, quads[..sent], quads[sent..]);
  }

  /** After a full buffer went to `drawNative`, emitting starts over at slot 0. */
  lemma Restarted(gl: Renderer.WebGL, log0: seq<GLCall>, heap0: seq<real>, quads: seq<seq<real>>)
    requires gl.Valid() && gl.Ready() && gl.rectangleCount == 0 && Unmoved(gl, heap0)
    requires |quads| % RectangleCapacity == 0
    requires gl.log == log0 + FlushAll(gl.currentTexture, Chunks(quads))
    ensures Emitted(gl, log0, heap0, quads, |quads|, 0)
  {
    assert quads[..|quads|] == quads;
    assert quads[|quads|..] == [];
  }

  /** `call_drawNative(rectangleCount)` after at most 512 rectangles: one flush of all of them. */
  method FinishBatch(gl: Renderer.WebGL, count: nat, ghost log0: seq<GLCall>, ghost heap0: seq<real>, ghost rects: seq<Rect>, ghost quads: seq<seq<real>>)
    requires Emitted(gl, log0, heap0, quads, 0, count) && Tracks(heap0, gl.verticesPtr, rects, quads) && count >= 1
    modifies gl`log, gl`rectangleCount
    ensures AllFit(heap0, rects) && gl.log == log0 + FlushCalls(gl.currentTexture, Quads(heap0, rects))
    ensures gl.Valid() && gl.Ready() && gl.rectangleCount == 0 && gl.verticesPtr == old(gl.verticesPtr) && Unmoved(gl, heap0)
    ensures gl.currentTexture == old(gl.currentTexture) && gl.Configuration() == old(gl.Configuration())
  {
    Finish(gl, count, log0, heap0, quads, 0);
    OneChunk(gl.currentTexture, quads);
  }

  /** One to 512 rectangles make a single `drawNative` flush. */
  lemma OneChunk(t: Option<TextureId>, q: seq<seq<real>>)
    requires 1 <= |q| <= RectangleCapacity
    ensures FlushAll(t, Chunks(q)) == FlushCalls(t, q)
  {
    assert FlushAll(t, [q]) == FlushCalls(t, q) + FlushAll(t, []);
  }

  /*
   * Background animation (renderBackground, renderCompactBackground).
   */

  /** The non-constant part of `LevelSpriteSheet`: where its descriptors start, and the background animation. */
  class SpriteSheet {
    const base: nat
    var backgroundLastTime: real
    const backgroundSpeed: seq<real>
    const backgroundAngle: array<real>

    constructor(base: nat, speed: seq<real>, angle: array<real>)
      ensures this.base == base && backgroundSpeed == speed && backgroundAngle == angle && backgroundLastTime == 0.0
    {
      this.base := base;
      backgroundSpeed := speed;
      backgroundAngle := angle;
      backgroundLastTime := 0.0;
    }

    /** The frame time of `renderBackground` (lib/gl.c:304-306, 315): the clamped time since the last frame, which becomes `time`. */
    method Tick(time: real, animate: bool) returns (deltaMilliseconds: real)
      modifies this`backgroundLastTime
      ensures deltaMilliseconds == FrameDelta(time, old(backgroundLastTime), animate) && backgroundLastTime == time
    {
      deltaMilliseconds := FrameDelta(time, backgroundLastTime, animate);
      backgroundLastTime := time;
    }
  }

  /** The fields of `Level` the render functions update. */
  class LevelState {
    var deltaMilliseconds: int
    var deltaSeconds: real
    /** 0 while playing, otherwise `FinishedVictory` or `FinishedLoss`. */
    var finished: nat
    var finishedFading: int
    var preview: bool
    var fadeBgAlpha: real
    var globalAlpha: real
    var explosionBgAlpha: real
    var victoryTime: real

    constructor()
      ensures finished == 0 && finishedFading == 0 && fadeBgAlpha == 0.0 && victoryTime == 0.0
      ensures explosionBgAlpha == 0.0 && globalAlpha == 1.0
    {
      deltaMilliseconds, deltaSeconds := 0, 0.0;
      finished, finishedFading, preview := 0, 0, false;
      fadeBgAlpha, globalAlpha, explosionBgAlpha, victoryTime := 0.0, 1.0, 0.0, 0.0;
    }
  }

  /** The frame time the backgrounds advance by: 0 when not animating, never above 33 ms. */
  function FrameDelta(time: real, lastTime: real, animate: bool): (d: real)
    ensures d <= MaxDeltaMilliseconds
    ensures d < MaxDeltaMilliseconds ==> d == (if animate then time - lastTime else 0.0)
    ensures !animate ==> d == 0.0
  {
    var d := if animate then time - lastTime else 0.0;
    if d >= MaxDeltaMilliseconds then MaxDeltaMilliseconds else d
  }

  /** A frame time in milliseconds as seconds. */
  function Seconds(milliseconds: real): real {
    milliseconds * 0.001
  }

  /** A background angle advanced by one frame, wrapped once by 2π either way. */
  function AdvanceAngle(angle: real, speed: real, deltaSeconds: real): real {
    var a := angle + (speed * deltaSeconds * 0.25);
    if a >= TwoPi then a - TwoPi else if a <= -TwoPi then a + TwoPi else a
  }

  /** Every background angle advanced by one frame. */
  function AdvanceAngles(angles: seq<real>, speeds: seq<real>, deltaSeconds: real): (r: seq<real>)
    requires |speeds| == |angles|
    ensures |r| == |angles| && forall k :: 0 <= k < |angles| ==> r[k] == AdvanceAngle(angles[k], speeds[k], deltaSeconds)
  {
    seq(|angles|, k requires 0 <= k < |angles| => AdvanceAngle(angles[k], speeds[k], deltaSeconds))
  }

  /** Angles in (-2π, 2π) stay there, provided a frame's step is at most 2π. */
  lemma AngleStaysInRange(angle: real, speed: real, deltaSeconds: real)
    requires -TwoPi < angle < TwoPi
    requires -TwoPi <= speed * deltaSeconds * 0.25 <= TwoPi
    ensures -TwoPi < AdvanceAngle(angle, speed, deltaSeconds) < TwoPi
  {
  }

  /** GLSL's `smoothstep` polynomial, `smoothStepF` in lib/physics.c. */
  function SmoothStep(x: real): (r: real)
    ensures 0.0 <= x <= 1.0 ==> 0.0 <= r <= 1.0
    ensures x == 0.0 ==> r == 0.0
    ensures x == 1.0 ==> r == 1.0
  {
    SmoothStepBounds(x);
    x * x * (3.0 - 2.0 * x)
  }

  lemma SmoothStepBounds(x: real)
    ensures 0.0 <= x <= 1.0 ==> 0.0 <= x * x * (3.0 - 2.0 * x) <= 1.0
  {
    if 0.0 <= x <= 1.0 {
      var square, rest := (1.0 - x) * (1.0 - x), 1.0 + 2.0 * x;
      assert x * x * (3.0 - 2.0 * x) == 1.0 - square * rest;
      NonNegativeProduct(square, rest);
      NonNegativeProduct(x * x, 3.0 - 2.0 * x);
    }
  }

  lemma NonNegativeProduct(a: real, b: real)
    requires a >= 0.0 && b >= 0.0
    ensures a * b >= 0.0
  {
  }

  /** The fade of a finished level, one frame on: up by twice the frame's seconds, at most 1. */
  function FadeUp(fade: real, deltaSeconds: real): (f: real)
    ensures f <= 1.0
    ensures deltaSeconds >= 0.0 ==> f >= fade || f == 1.0
  {
    var f := fade + 2.0 * deltaSeconds;
    if f > 1.0 then 1.0 else f
  }

  /** The texture of the fade rectangle: the victory one when `FinishedVictory` is set. */
  function FadeTexture(base: nat, finished: nat): nat {
    if And(finished, FinishedVictory) != 0 then Field(base, FadeBgTexture) else Field(base, FadeBgSadTexture)
  }

  /** The strip of background i, at its new angle. */
  function Strip(base: nat, i: nat, cosv: real, sinv: real, centerX: real, centerY: real): Rect {
    Rotated(Field(base, BackgroundModel + i), 0.3, Field(base, BackgroundTexture + i % 8), cosv, sinv, centerX, centerY)
  }

  /** `f` applied to each of `xs`: the cosines or sines of the background angles. */
  function Applied(f: real -> real, xs: seq<real>): (r: seq<real>)
    ensures |r| == |xs| && forall k :: 0 <= k < |xs| ==> r[k] == f(xs[k])
  {
    seq(|xs|, k requires 0 <= k < |xs| => f(xs[k]))
  }

  /**
   * The strips for backgrounds `from - 1` down to `downTo`, in the order the
   * loop draws them, given the cosine and sine of each background's angle.
   */
  function Strips(base: nat, cosines: seq<real>, sines: seq<real>, from: nat, downTo: nat, centerX: real, centerY: real): (r: seq<Rect>)
    requires downTo <= from <= |cosines| == |sines|
    ensures |r| == from - downTo
    ensures forall j :: 0 <= j < |r| ==> r[j] == Strip(base, from - 1 - j, cosines[from - 1 - j], sines[from - 1 - j], centerX, centerY)
  {
    seq(from - downTo, j requires 0 <= j < from - downTo => Strip(base, from - 1 - j, cosines[from - 1 - j], sines[from - 1 - j], centerX, centerY))
  }

  /** One more background down, one more strip at the end. */
  lemma StripsExtend(base: nat, cosines: seq<real>, sines: seq<real>, from: nat, downTo: nat, centerX: real, centerY: real)
    requires 1 <= downTo <= from <= |cosines| == |sines|
    ensures Strips(base, cosines, sines, from, downTo - 1, centerX, centerY)
      == Strips(base, cosines, sines, from, downTo, centerX, centerY) + [Strip(base, downTo - 1, cosines[downTo - 1], sines[downTo - 1], centerX, centerY)]
  {
  }

  /** The clear rectangle over the full view, which opens both backgrounds' batch in `renderBackground`. */
  function ClearRect(base: nat): Rect {
    Plain(Field(base, FullViewModel), 1.0, Field(base, ClearBackgroundTexture), 0.0, 0.0)
  }

  /** The fade and explosion rectangles of a level, when it is finished or exploding. */
  function LevelRects(base: nat, finished: nat, fadeAlpha: real, explosionBgAlpha: real): (r: seq<Rect>)
    ensures |r| == (if finished != 0 then 1 else 0) + (if explosionBgAlpha != 0.0 then 1 else 0)
  {
    (if finished != 0 then [Plain(Field(base, FullViewModel), fadeAlpha, FadeTexture(base, finished), 0.0, 0.0)] else [])
    + (if explosionBgAlpha != 0.0 then [Plain(Field(base, FullViewModel), explosionBgAlpha, Field(base, ExplosionBgTexture), 0.0, 0.0)] else [])
  }

  /** What a level contributes to `renderBackground`: whether it is finished, its new fade and its explosion. */
  datatype LevelView = LevelView(finished: nat, fadeAlpha: real, explosionBgAlpha: real)

  /** The rectangles `renderBackground` writes: the clear, the 15 strips from the last one down, then the level's. */
  function BackgroundRects(base: nat, cosines: seq<real>, sines: seq<real>, level: Option<LevelView>, centerY: real): (r: seq<Rect>)
    requires |cosines| == |sines| == BackgroundCount
  {
    [ClearRect(base)] + Strips(base, cosines, sines, BackgroundCount, 0, BaseWidth * 0.25, centerY)
    + (match level case None => [] case Some(l) => LevelRects(base, l.finished, l.fadeAlpha, l.explosionBgAlpha))
  }

  /** `renderBackground` sends 16 rectangles, one more for a finished level and one more for an explosion. */
  lemma BackgroundCount16(base: nat, cosines: seq<real>, sines: seq<real>, level: Option<LevelView>, centerY: real)
    requires |cosines| == |sines| == BackgroundCount
    ensures |BackgroundRects(base, cosines, sines, level, centerY)| == 16
      + (if level.Some? && level.value.finished != 0 then 1 else 0)
      + (if level.Some? && level.value.explosionBgAlpha != 0.0 then 1 else 0)
  {
  }

  /** The rectangles `renderCompactBackground` writes: the full fade, then the explosion. */
  function CompactRects(base: nat, finished: nat, explosionBgAlpha: real): (r: seq<Rect>)
  {
    [Plain(Field(base, FullViewModel), 1.0, FadeTexture(base, finished), 0.0, 0.0)]
    + (if explosionBgAlpha != 0.0 then [Plain(Field(base, FullViewModel), explosionBgAlpha, Field(base, ExplosionBgTexture), 0.0, 0.0)] else [])
  }

  lemma CompactCount(base: nat, finished: nat, explosionBgAlpha: real)
    ensures |CompactRects(base, finished, explosionBgAlpha)| == 1 + (if explosionBgAlpha != 0.0 then 1 else 0)
  {
  }

  /** Every rectangle of the sprite sheet is readable once the sheet is. */
  lemma SheetRect(heap: seq<real>, staging: nat, base: nat, k: nat, j: nat, r: Rect)
    requires SheetReadable(heap, staging, base) && k < DescriptorCount && j < DescriptorCount
    requires r.model == Field(base, k) && r.texture == Field(base, j)
    ensures ReadableBy(heap, staging, r)
  {
  }

  /** The frame's fields of the level (lib/gl.c:336-337 and 375-376). */
  method SetDelta(level: LevelState, deltaMilliseconds: real)
    modifies level`deltaMilliseconds, level`deltaSeconds
    ensures level.deltaMilliseconds == Trunc(deltaMilliseconds) && level.deltaSeconds == Seconds(deltaMilliseconds)
  {
    level.deltaMilliseconds := Trunc(deltaMilliseconds);
    level.deltaSeconds := Seconds(deltaMilliseconds);
  }

  /** The fade of a finished level in `renderBackground` (lib/gl.c:340-346): returns the rectangle's alpha. */
  method FadeLevel(level: LevelState) returns (alpha: real)
    modifies level`fadeBgAlpha, level`globalAlpha
    ensures level.fadeBgAlpha == FadeUp(old(level.fadeBgAlpha), level.deltaSeconds)
    ensures alpha == SmoothStep(level.fadeBgAlpha) && level.globalAlpha == 1.0 - alpha * 0.8
  {
    var fade := level.fadeBgAlpha;
    fade := fade + (2.0 * level.deltaSeconds);
    if fade > 1.0 {
      fade := 1.0;
    }
    level.fadeBgAlpha := fade;
    alpha := SmoothStep(fade);
    level.globalAlpha := 1.0 - (alpha * 0.8);
  }

  /**
   * `renderBackground(vertices, level, levelSpriteSheet, baseHeight, time, animate)`:
   * advances the 15 background angles by the clamped frame time and sends
   * the clear, the 15 strips and the level's fade and explosion rectangles
   * to one `drawNative` call. `cos` and `sin` stand for `cosf` and `sinf`.
   */
  method RenderBackground(gl: Renderer.WebGL, level: LevelState?, sheet: SpriteSheet, baseHeight: real, time: real, animate: bool,
                          cos: real -> real, sin: real -> real)
    requires gl.Valid() && gl.Ready() && gl.rectangleCount == 0 && SheetReadable(gl.heap[..], gl.verticesPtr, sheet.base)
    requires sheet.backgroundAngle.Length == BackgroundCount && |sheet.backgroundSpeed| == BackgroundCount
    requires sheet.backgroundAngle != gl.heap
    modifies gl, gl.heap, sheet`backgroundLastTime, sheet.backgroundAngle
    modifies Levels(level)`deltaMilliseconds, Levels(level)`deltaSeconds, Levels(level)`fadeBgAlpha, Levels(level)`globalAlpha
    ensures sheet.backgroundAngle[..] == AdvanceAngles(old(sheet.backgroundAngle[..]), sheet.backgroundSpeed, Seconds(FrameDelta(time, old(sheet.backgroundLastTime), animate)))
    ensures var d := FrameDelta(time, old(sheet.backgroundLastTime), animate);
      && sheet.backgroundLastTime == time
      && (level != null ==> level.deltaMilliseconds == Trunc(d) && level.deltaSeconds == Seconds(d))
      && (level != null && level.finished != 0 ==>
            level.fadeBgAlpha == FadeUp(old(level.fadeBgAlpha), Seconds(d)) && level.globalAlpha == 1.0 - SmoothStep(level.fadeBgAlpha) * 0.8)
    ensures var angles := AdvanceAngles(old(sheet.backgroundAngle[..]), sheet.backgroundSpeed, Seconds(FrameDelta(time, old(sheet.backgroundLastTime), animate)));
      var rects := BackgroundRects(sheet.base, Applied(cos, angles), Applied(sin, angles), View(level), Trunc(baseHeight * 0.25) as real);
      && AllFit(old(gl.heap[..]), rects)
      && gl.log == old(gl.log) + FlushCalls(gl.currentTexture, Quads(old(gl.heap[..]), rects))
    ensures gl.Valid() && gl.Ready() && gl.rectangleCount == 0 && gl.Configuration() == old(gl.Configuration())
    ensures gl.currentTexture == old(gl.currentTexture) && Unmoved(gl, old(gl.heap[..]))
  {
    ghost var angles0 := sheet.backgroundAngle[..];
    var deltaMilliseconds := sheet.Tick(time, animate);
    DrawBackground(gl, level, sheet, deltaMilliseconds, Trunc(baseHeight * 0.25) as real, cos, sin, angles0);
  }

  /** The level as an object set, for the frames of `renderBackground`, whose level may be null. */
  function Levels(level: LevelState?): set<LevelState> {
    if level == null then {} else {level}
  }

  /** What `renderBackground` draws for a level once it has updated it (none for a null level). */
  function View(level: LevelState?): Option<LevelView>
    reads level
  {
    if level == null then None else Some(LevelView(level.finished, SmoothStep(level.fadeBgAlpha), level.explosionBgAlpha))
  }

  /** The drawing part of `renderBackground`, after the frame time is known (lib/gl.c:317-358). */
  method DrawBackground(gl: Renderer.WebGL, level: LevelState?, sheet: SpriteSheet, deltaMilliseconds: real, centerY: real,
                        cos: real -> real, sin: real -> real, ghost angles0: seq<real>)
    requires sheet.backgroundAngle[..] == angles0
    requires gl.Valid() && gl.Ready() && gl.rectangleCount == 0 && SheetReadable(gl.heap[..], gl.verticesPtr, sheet.base)
    requires sheet.backgroundAngle.Length == BackgroundCount && |sheet.backgroundSpeed| == BackgroundCount
    requires sheet.backgroundAngle != gl.heap
    modifies gl, gl.heap, sheet.backgroundAngle
    modifies Levels(level)`deltaMilliseconds, Levels(level)`deltaSeconds, Levels(level)`fadeBgAlpha, Levels(level)`globalAlpha
    ensures sheet.backgroundAngle[..] == AdvanceAngles(angles0, sheet.backgroundSpeed, Seconds(deltaMilliseconds))
    ensures level != null ==> level.deltaMilliseconds == Trunc(deltaMilliseconds) && level.deltaSeconds == Seconds(deltaMilliseconds)
    ensures level != null && level.finished != 0 ==>
      level.fadeBgAlpha == FadeUp(old(level.fadeBgAlpha), Seconds(deltaMilliseconds)) && level.globalAlpha == 1.0 - SmoothStep(level.fadeBgAlpha) * 0.8
    ensures var angles := AdvanceAngles(angles0, sheet.backgroundSpeed, Seconds(deltaMilliseconds));
      var rects := BackgroundRects(sheet.base, Applied(cos, angles), Applied(sin, angles), View(level), centerY);
      && AllFit(old(gl.heap[..]), rects)
      && gl.log == old(gl.log) + FlushCalls(gl.currentTexture, Quads(old(gl.heap[..]), rects))
    ensures gl.Valid() && gl.Ready() && gl.rectangleCount == 0 && gl.Configuration() == old(gl.Configuration())
    ensures gl.currentTexture == old(gl.currentTexture) && Unmoved(gl, old(gl.heap[..]))
  {
    ghost var log0, heap0 := gl.log, gl.heap[..];
    var deltaSeconds := Seconds(deltaMilliseconds);
    var centerX := BaseWidth * 0.25;
    var base := sheet.base;
    var count := DrawClear(gl, base);
    ghost var rects, quads := [ClearRect(base)], [Rendered(heap0, ClearRect(base))];
    ghost var strips;
    count, strips, quads := DrawStrips(gl, sheet, deltaSeconds, cos, sin, centerX, centerY, count, log0, heap0, rects, quads, angles0);
    ghost var angles := AdvanceAngles(angles0, sheet.backgroundSpeed, deltaSeconds);
    assert BackgroundRects(base, Applied(cos, angles), Applied(sin, angles), View(level), centerY)
      == rects + strips + match View(level) case None => [] case Some(l) => LevelRects(base, l.finished, l.fadeAlpha, l.explosionBgAlpha);
    DrawLevelAndFinish(gl, level, base, deltaMilliseconds, count, log0, heap0, rects + strips, quads);
  }

  /** The first rectangle of `renderBackground` (lib/gl.c:317-321): the clear colour over the whole view. */
  method DrawClear(gl: Renderer.WebGL, base: nat) returns (next: nat)
    requires gl.Valid() && gl.Ready() && gl.rectangleCount == 0 && SheetReadable(gl.heap[..], gl.verticesPtr, base)
    modifies gl.heap
    ensures next == 1 && Emitted(gl, old(gl.log), old(gl.heap[..]), [Rendered(old(gl.heap[..]), ClearRect(base))], 0, next)
    ensures Tracks(old(gl.heap[..]), gl.verticesPtr, [ClearRect(base)], [Rendered(old(gl.heap[..]), ClearRect(base))])
  {
    ghost var log0, heap0 := gl.log, gl.heap[..];
    Started(gl);
    TracksStart(heap0, gl.verticesPtr);
    SheetRect(heap0, gl.verticesPtr, base, FullViewModel, ClearBackgroundTexture, ClearRect(base));
    next := EmitSmall(gl, ClearRect(base), 0, log0, heap0, [], [], 0);
  }

  /** The level's rectangles of `renderBackground` and the closing `drawNative` (lib/gl.c:335-358). */
  method DrawLevelAndFinish(gl: Renderer.WebGL, level: LevelState?, base: nat, deltaMilliseconds: real, count: nat,
                            ghost log0: seq<GLCall>, ghost heap0: seq<real>, ghost rects: seq<Rect>, ghost quads: seq<seq<real>>)
    requires Emitted(gl, log0, heap0, quads, 0, count) && Tracks(heap0, gl.verticesPtr, rects, quads)
    requires 1 <= count && count + 2 <= RectangleCapacity && SheetReadable(heap0, gl.verticesPtr, base)
    modifies gl, gl.heap, Levels(level)`deltaMilliseconds, Levels(level)`deltaSeconds, Levels(level)`fadeBgAlpha, Levels(level)`globalAlpha
    ensures level != null ==> level.deltaMilliseconds == Trunc(deltaMilliseconds) && level.deltaSeconds == Seconds(deltaMilliseconds)
    ensures level != null && level.finished != 0 ==>
      level.fadeBgAlpha == FadeUp(old(level.fadeBgAlpha), Seconds(deltaMilliseconds)) && level.globalAlpha == 1.0 - SmoothStep(level.fadeBgAlpha) * 0.8
    ensures var all := rects + match View(level) case None => [] case Some(l) => LevelRects(base, l.finished, l.fadeAlpha, l.explosionBgAlpha);
      && AllFit(heap0, all) && gl.log == log0 + FlushCalls(gl.currentTexture, Quads(heap0, all))
    ensures gl.Valid() && gl.Ready() && gl.rectangleCount == 0 && gl.verticesPtr == old(gl.verticesPtr) && Unmoved(gl, heap0)
    ensures gl.currentTexture == old(gl.currentTexture) && gl.Configuration() == old(gl.Configuration())
  {
    var next;
    ghost var layers, quads';
    next, layers, quads' := DrawLevel(gl, level, base, deltaMilliseconds, count, log0, heap0, rects, quads);
    FinishBatch(gl, next, log0, heap0, rects + layers, quads');
  }

  /** The loop of `renderBackground` (lib/gl.c:323-333): each background, from the last down, turns and is drawn. */
  method DrawStrips(gl: Renderer.WebGL, sheet: SpriteSheet, deltaSeconds: real, cos: real -> real, sin: real -> real, centerX: real, centerY: real,
                    count: nat, ghost log0: seq<GLCall>, ghost heap0: seq<real>, ghost rects: seq<Rect>, ghost quads: seq<seq<real>>,
                    ghost angles0: seq<real>)
    returns (next: nat, ghost strips: seq<Rect>, ghost quads': seq<seq<real>>)
    requires sheet.backgroundAngle[..] == angles0
    requires Emitted(gl, log0, heap0, quads, 0, count) && Tracks(heap0, gl.verticesPtr, rects, quads)
    requires count + BackgroundCount <= RectangleCapacity && SheetReadable(heap0, gl.verticesPtr, sheet.base)
    requires sheet.backgroundAngle.Length == BackgroundCount && |sheet.backgroundSpeed| == BackgroundCount
    requires sheet.backgroundAngle != gl.heap
    modifies gl.heap, sheet.backgroundAngle
    ensures sheet.backgroundAngle[..] == AdvanceAngles(angles0, sheet.backgroundSpeed, deltaSeconds)
    ensures var angles := AdvanceAngles(angles0, sheet.backgroundSpeed, deltaSeconds);
      strips == Strips(sheet.base, Applied(cos, angles), Applied(sin, angles), BackgroundCount, 0, centerX, centerY)
    ensures next == count + BackgroundCount
    ensures Emitted(gl, log0, heap0, quads', 0, next) && Tracks(heap0, gl.verticesPtr, rects + strips, quads')
  {
    var base := sheet.base;
    ghost var angles := AdvanceAngles(angles0, sheet.backgroundSpeed, deltaSeconds);
    ghost var cosines, sines := Applied(cos, angles), Applied(sin, angles);
    next, strips, quads' := count, [], quads;
    assert rects + strips == rects;
    var i := BackgroundCount;
    while i > 0
      invariant 0 <= i <= BackgroundCount && next == count + BackgroundCount - i
      invariant sheet.backgroundAngle[..] == angles0[..i] + angles[i..]
      invariant strips == Strips(base, cosines, sines, BackgroundCount, i, centerX, centerY)
      invariant Emitted(gl, log0, heap0, quads', 0, next) && Tracks(heap0, gl.verticesPtr, rects + strips, quads')
    {
      i := i - 1;
      StripsExtend(base, cosines, sines, BackgroundCount, i + 1, centerX, centerY);
      AnglesStep(angles0, angles, i);
      var strip;
      next, strip := DrawStrip(gl, sheet, i, deltaSeconds, cos, sin, centerX, centerY, next, log0, heap0, rects + strips, quads');
      assert rects + strips + [strip] == rects + (strips + [strip]);
      strips, quads' := strips + [strip], quads' + [Rendered(heap0, strip)];
    }
    assert angles0[..0] + angles[0..] == angles;
  }

  /** Advancing angle i of a sequence advanced from i + 1 on advances it from i on. */
  lemma AnglesStep(angles0: seq<real>, angles: seq<real>, i: nat)
    requires i < |angles0| == |angles|
    ensures (angles0[..i + 1] + angles[i + 1..])[i := angles[i]] == angles0[..i] + angles[i..]
    ensures (angles0[..i + 1] + angles[i + 1..])[i] == angles0[i]
  {
    var a, b := (angles0[..i + 1] + angles[i + 1..])[i := angles[i]], angles0[..i] + angles[i..];
    assert |a| == |b|;
    forall k | 0 <= k < |a|
      ensures a[k] == b[k]
    {
    }
  }

  /** One pass of the loop of `renderBackground`: background `i` turns and is drawn. */
  method DrawStrip(gl: Renderer.WebGL, sheet: SpriteSheet, i: nat, deltaSeconds: real, cos: real -> real, sin: real -> real, centerX: real, centerY: real,
                   count: nat, ghost log0: seq<GLCall>, ghost heap0: seq<real>, ghost rects: seq<Rect>, ghost quads: seq<seq<real>>)
    returns (next: nat, strip: Rect)
    requires i < BackgroundCount == sheet.backgroundAngle.Length == |sheet.backgroundSpeed| && sheet.backgroundAngle != gl.heap
    requires Emitted(gl, log0, heap0, quads, 0, count) && Tracks(heap0, gl.verticesPtr, rects, quads)
    requires count < RectangleCapacity && SheetReadable(heap0, gl.verticesPtr, sheet.base)
    modifies gl.heap, sheet.backgroundAngle
    ensures sheet.backgroundAngle[..] == old(sheet.backgroundAngle[..])[i := AdvanceAngle(old(sheet.backgroundAngle[i]), sheet.backgroundSpeed[i], deltaSeconds)]
    ensures strip == Strip(sheet.base, i, cos(sheet.backgroundAngle[i]), sin(sheet.backgroundAngle[i]), centerX, centerY)
    ensures next == count + 1 && Emitted(gl, log0, heap0, quads + [Rendered(heap0, strip)], 0, next)
    ensures Tracks(heap0, gl.verticesPtr, rects + [strip], quads + [Rendered(heap0, strip)])
  {
    var a := AdvanceAngle(sheet.backgroundAngle[i], sheet.backgroundSpeed[i], deltaSeconds);
    sheet.backgroundAngle[i] := a;
    var base := sheet.base;
    strip := Strip(base, i, cos(a), sin(a), centerX, centerY);
    SheetRect(heap0, gl.verticesPtr, base, BackgroundModel + i, BackgroundTexture + i % 8, strip);
    next := EmitSmall(gl, strip, count, log0, heap0, rects, quads, 0);
  }

  /** The level's part of `renderBackground` (lib/gl.c:335-356), for a level that may be null. */
  method DrawLevel(gl: Renderer.WebGL, level: LevelState?, base: nat, deltaMilliseconds: real, count: nat,
                   ghost log0: seq<GLCall>, ghost heap0: seq<real>, ghost rects: seq<Rect>, ghost quads: seq<seq<real>>)
    returns (next: nat, ghost layers: seq<Rect>, ghost quads': seq<seq<real>>)
    requires Emitted(gl, log0, heap0, quads, 0, count) && Tracks(heap0, gl.verticesPtr, rects, quads)
    requires count + 2 <= RectangleCapacity && SheetReadable(heap0, gl.verticesPtr, base)
    modifies gl.heap, Levels(level)`deltaMilliseconds, Levels(level)`deltaSeconds, Levels(level)`fadeBgAlpha, Levels(level)`globalAlpha
    ensures level != null ==> level.deltaMilliseconds == Trunc(deltaMilliseconds) && level.deltaSeconds == Seconds(deltaMilliseconds)
    ensures level != null && level.finished != 0 ==>
      level.fadeBgAlpha == FadeUp(old(level.fadeBgAlpha), Seconds(deltaMilliseconds)) && level.globalAlpha == 1.0 - SmoothStep(level.fadeBgAlpha) * 0.8
    ensures layers == match View(level) case None => [] case Some(l) => LevelRects(base, l.finished, l.fadeAlpha, l.explosionBgAlpha)
    ensures next == count + |layers|
    ensures Emitted(gl, log0, heap0, quads', 0, next) && Tracks(heap0, gl.verticesPtr, rects + layers, quads')
  {
    next, layers, quads' := count, [], quads;
    if level != null {
      SetDelta(level, deltaMilliseconds);
      next, layers, quads' := DrawLevelLayers(gl, level, base, count, log0, heap0, rects, quads);
    } else {
      assert rects + layers == rects;
    }
  }

  /** The level's part of `renderBackground` (lib/gl.c:339-355): the fade of a finished level, then the explosion. */
  method DrawLevelLayers(gl: Renderer.WebGL, level: LevelState, base: nat, count: nat,
                         ghost log0: seq<GLCall>, ghost heap0: seq<real>, ghost rects: seq<Rect>, ghost quads: seq<seq<real>>)
    returns (next: nat, ghost layers: seq<Rect>, ghost quads': seq<seq<real>>)
    requires Emitted(gl, log0, heap0, quads, 0, count) && Tracks(heap0, gl.verticesPtr, rects, quads)
    requires count + 2 <= RectangleCapacity && SheetReadable(heap0, gl.verticesPtr, base)
    modifies gl.heap, level`fadeBgAlpha, level`globalAlpha
    ensures level.finished != 0 ==>
      level.fadeBgAlpha == FadeUp(old(level.fadeBgAlpha), level.deltaSeconds) && level.globalAlpha == 1.0 - SmoothStep(level.fadeBgAlpha) * 0.8
    ensures level.finished == 0 ==> level.fadeBgAlpha == old(level.fadeBgAlpha) && level.globalAlpha == old(level.globalAlpha)
    ensures layers == LevelRects(base, level.finished, SmoothStep(level.fadeBgAlpha), level.explosionBgAlpha)
    ensures next == count + |layers|
    ensures Emitted(gl, log0, heap0, quads', 0, next) && Tracks(heap0, gl.verticesPtr, rects + layers, quads')
  {
    ghost var fade, explosion;
    next, fade, quads' := DrawFade(gl, level, base, count, log0, heap0, rects, quads);
    next, explosion, quads' := DrawExplosion(gl, base, level.explosionBgAlpha, next, log0, heap0, rects + fade, quads');
    layers := fade + explosion;
    assert rects + fade + explosion == rects + layers;
  }

  /** The fade rectangle of a finished level (lib/gl.c:339-350). */
  method DrawFade(gl: Renderer.WebGL, level: LevelState, base: nat, count: nat,
                  ghost log0: seq<GLCall>, ghost heap0: seq<real>, ghost rects: seq<Rect>, ghost quads: seq<seq<real>>)
    returns (next: nat, ghost layers: seq<Rect>, ghost quads': seq<seq<real>>)
    requires Emitted(gl, log0, heap0, quads, 0, count) && Tracks(heap0, gl.verticesPtr, rects, quads)
    requires count < RectangleCapacity && SheetReadable(heap0, gl.verticesPtr, base)
    modifies gl.heap, level`fadeBgAlpha, level`globalAlpha
    ensures level.finished != 0 ==>
      level.fadeBgAlpha == FadeUp(old(level.fadeBgAlpha), level.deltaSeconds) && level.globalAlpha == 1.0 - SmoothStep(level.fadeBgAlpha) * 0.8
    ensures level.finished == 0 ==> level.fadeBgAlpha == old(level.fadeBgAlpha) && level.globalAlpha == old(level.globalAlpha)
    ensures layers == if level.finished != 0 then [Plain(Field(base, FullViewModel), SmoothStep(level.fadeBgAlpha), FadeTexture(base, level.finished), 0.0, 0.0)] else []
    ensures next == count + |layers|
    ensures Emitted(gl, log0, heap0, quads', 0, next) && Tracks(heap0, gl.verticesPtr, rects + layers, quads')
  {
    next, layers, quads' := count, [], quads;
    assert rects + layers == rects;
    if level.finished != 0 {
      var alpha := FadeLevel(level);
      var fade := Plain(Field(base, FullViewModel), alpha, FadeTexture(base, level.finished), 0.0, 0.0);
      SheetRect(heap0, gl.verticesPtr, base, FullViewModel, if And(level.finished, FinishedVictory) != 0 then FadeBgTexture else FadeBgSadTexture, fade);
      next := EmitSmall(gl, fade, next, log0, heap0, rects, quads', 0);
      layers, quads' := [fade], quads' + [Rendered(heap0, fade)];
    }
  }

  /** The explosion rectangle, drawn while `explosionBgAlpha` is not zero (lib/gl.c:352-355). */
  method DrawExplosion(gl: Renderer.WebGL, base: nat, explosionBgAlpha: real, count: nat,
                       ghost log0: seq<GLCall>, ghost heap0: seq<real>, ghost rects: seq<Rect>, ghost quads: seq<seq<real>>)
    returns (next: nat, ghost layers: seq<Rect>, ghost quads': seq<seq<real>>)
    requires Emitted(gl, log0, heap0, quads, 0, count) && Tracks(heap0, gl.verticesPtr, rects, quads)
    requires count < RectangleCapacity && SheetReadable(heap0, gl.verticesPtr, base)
    modifies gl.heap
    ensures layers == if explosionBgAlpha != 0.0 then [Plain(Field(base, FullViewModel), explosionBgAlpha, Field(base, ExplosionBgTexture), 0.0, 0.0)] else []
    ensures next == count + |layers|
    ensures Emitted(gl, log0, heap0, quads', 0, next) && Tracks(heap0, gl.verticesPtr, rects + layers, quads')
  {
    next, layers, quads' := count, [], quads;
    assert rects + layers == rects;
    if explosionBgAlpha != 0.0 {
      var explosion := Plain(Field(base, FullViewModel), explosionBgAlpha, Field(base, ExplosionBgTexture), 0.0, 0.0);
      SheetRect(heap0, gl.verticesPtr, base, FullViewModel, ExplosionBgTexture, explosion);
      next := EmitSmall(gl, explosion, next, log0, heap0, rects, quads', 0);
      layers, quads' := [explosion], quads' + [Rendered(heap0, explosion)];
    }
  }

  /**
   * `renderCompactBackground(vertices, level, levelSpriteSheet, time)`: one
   * `drawNative` call of the full fade rectangle and, during an explosion,
   * the explosion rectangle.
   */
  method RenderCompactBackground(gl: Renderer.WebGL, level: LevelState, sheet: SpriteSheet, time: real)
    requires gl.Valid() && gl.Ready() && gl.rectangleCount == 0 && SheetReadable(gl.heap[..], gl.verticesPtr, sheet.base)
    modifies gl, gl.heap, sheet`backgroundLastTime, level`deltaMilliseconds, level`deltaSeconds
    ensures var d := FrameDelta(time, old(sheet.backgroundLastTime), true);
      && sheet.backgroundLastTime == time
      && level.deltaMilliseconds == Trunc(d) && level.deltaSeconds == Seconds(d)
    ensures var rects := CompactRects(sheet.base, level.finished, level.explosionBgAlpha);
      && AllFit(old(gl.heap[..]), rects)
      && gl.log == old(gl.log) + FlushCalls(gl.currentTexture, Quads(old(gl.heap[..]), rects))
    ensures gl.Valid() && gl.Ready() && gl.rectangleCount == 0 && gl.Configuration() == old(gl.Configuration())
    ensures gl.currentTexture == old(gl.currentTexture) && Unmoved(gl, old(gl.heap[..]))
  {
    ghost var log0, heap0 := gl.log, gl.heap[..];
    var deltaMilliseconds := sheet.Tick(time, true);

    var count := 0;
    Started(gl);
    TracksStart(heap0, gl.verticesPtr);
    var base := sheet.base;
    var full := Plain(Field(base, FullViewModel), 1.0, FadeTexture(base, level.finished), 0.0, 0.0);
    SheetRect(heap0, gl.verticesPtr, base, FullViewModel, if And(level.finished, FinishedVictory) != 0 then FadeBgTexture else FadeBgSadTexture, full);
    count := EmitSmall(gl, full, count, log0, heap0, [], [], 0);
    ghost var rects, quads := [full], [Rendered(heap0, full)];

    SetDelta(level, deltaMilliseconds);
    if level.explosionBgAlpha != 0.0 {
      var explosion := Plain(Field(base, FullViewModel), level.explosionBgAlpha, Field(base, ExplosionBgTexture), 0.0, 0.0);
      SheetRect(heap0, gl.verticesPtr, base, FullViewModel, ExplosionBgTexture, explosion);
      count := EmitSmall(gl, explosion, count, log0, heap0, rects, quads, 0);
      rects, quads := rects + [explosion], quads + [Rendered(heap0, explosion)];
    }
    assert rects == CompactRects(base, level.finished, level.explosionBgAlpha);
    FinishBatch(gl, count, log0, heap0, rects, quads);
  }
}
