/**
 * The rectangle batching of the WebGL renderer (scripts/gl/webGL.ts), as a
 * pure state machine over an abstract GL call log.
 *
 * A batch is the texture bound for the pending rectangles, the pending
 * rectangles themselves (twelve floats each, in slot order) and the GL calls
 * issued so far. The `WebGL` class is proved to follow these functions.
 */
module Batching {
  import opened Wrappers

  /** `WebGL.RectangleCapacity`, the number of rectangle slots in the staging buffer. */
  const RectangleCapacity: nat := 512
  const FloatsPerRectangle: nat := 12
  /** Two triangles of three indices each. */
  const IndicesPerRectangle: nat := 6

  /** The identity of a `Texture` object. */
  type TextureId = nat
  /** A GL object (program, shader, buffer, framebuffer, context). */
  type Handle = nat

  /** The GL calls the renderer issues, and the buffer calls into the C library. */
  datatype GLCall =
    | BufferSubData(floats: seq<real>)
    | BindTexture(texture: Option<TextureId>)
    | DrawElements(indexCount: nat)
    | BindFramebuffer(framebuffer: Option<Handle>)
    | ViewConstants(width: int, height: int)
    | Viewport(width: int, height: int)
    | Clear
    | IndexBufferData(indices: seq<nat>)
    | VertexBufferData(floatCount: nat)
    | DestroyFramebufferTexture
    | DeleteFramebuffer(deleted: Handle)
    | DeleteProgram(program: Handle)
    | DeleteShader(shader: Handle)
    | DeleteBuffer(buffer: Handle)
    | FreeBuffer(ptr: nat)

  datatype Batch = Batch(current: Option<TextureId>, pending: seq<seq<real>>, log: seq<GLCall>)

  /** Rectangles laid out one after the other. */
  function Flatten(rectangles: seq<seq<real>>): seq<real> {
    if |rectangles| == 0 then [] else Flatten(rectangles[..|rectangles| - 1]) + rectangles[|rectangles| - 1]
  }

  predicate AllRectangles(rectangles: seq<seq<real>>) {
    forall k :: 0 <= k < |rectangles| ==> |rectangles[k]| == FloatsPerRectangle
  }

  /** Upload the rectangles, bind the texture, draw six indices per rectangle. */
  function FlushCalls(texture: Option<TextureId>, rectangles: seq<seq<real>>): seq<GLCall> {
    [BufferSubData(Flatten(rectangles)), BindTexture(texture), DrawElements(IndicesPerRectangle * |rectangles|)]
  }

  /** `flush()`: nothing when no rectangle is pending. */
  function Flush(b: Batch): Batch {
    if |b.pending| == 0 then b else Batch(b.current, [], b.log + FlushCalls(b.current, b.pending))
  }

  /** The condition under which a `draw*` call flushes before writing. */
  predicate MustFlush(b: Batch, texture: TextureId) {
    b.current != Some(texture) || |b.pending| >= RectangleCapacity
  }

  /** `draw`, `drawScale`, `drawRotate`, `drawScaleRotate`: the batching part, given the rectangle written. */
  function Draw(b: Batch, texture: TextureId, rectangle: seq<real>): Batch {
    var f := if MustFlush(b, texture) then Flush(b).(current := Some(texture)) else b;
    f.(pending := f.pending + [rectangle])
  }

  /** `prepareNativeDraw(texture)` */
  function PrepareNativeDraw(b: Batch, texture: TextureId): Batch {
    Flush(b).(current := Some(texture))
  }

  /** `drawNative(n)`: the C side wrote `staged` into the first slots; they become the batch and are flushed. */
  function DrawNative(b: Batch, staged: seq<seq<real>>): Batch {
    Flush(b.(pending := staged))
  }

  /** A run of draws with one texture. */
  function DrawAll(b: Batch, texture: TextureId, rectangles: seq<seq<real>>): Batch
    decreases |rectangles|
  {
    if |rectangles| == 0 then b else DrawAll(Draw(b, texture, rectangles[0]), texture, rectangles[1..])
  }

  /** Consecutive groups of at most `RectangleCapacity` rectangles. */
  function Chunks(rectangles: seq<seq<real>>): seq<seq<seq<real>>>
    decreases |rectangles|
  {
    if |rectangles| == 0 then []
    else if |rectangles| <= RectangleCapacity then [rectangles]
    else [rectangles[..RectangleCapacity]] + Chunks(rectangles[RectangleCapacity..])
  }

  function Concat(chunks: seq<seq<seq<real>>>): seq<seq<real>> {
    if |chunks| == 0 then [] else chunks[0] + Concat(chunks[1..])
  }

  /** One flush per chunk. */
  function FlushAll(texture: Option<TextureId>, chunks: seq<seq<seq<real>>>): seq<GLCall> {
    if |chunks| == 0 then [] else FlushCalls(texture, chunks[0]) + FlushAll(texture, chunks[1..])
  }

  /** An upload carries twelve floats per rectangle, in slot order. */
  lemma {:induction false} FlattenLength(rectangles: seq<seq<real>>)
    requires AllRectangles(rectangles)
    ensures |Flatten(rectangles)| == FloatsPerRectangle * |rectangles|
    ensures forall k, j :: 0 <= k < |rectangles| && 0 <= j < FloatsPerRectangle ==>
      Flatten(rectangles)[FloatsPerRectangle * k + j] == rectangles[k][j]
  {
    if |rectangles| > 0 {
      var init := rectangles[..|rectangles| - 1];
      FlattenLength(init);
      assert AllRectangles(init);
      forall k, j | 0 <= k < |rectangles| && 0 <= j < FloatsPerRectangle
        ensures Flatten(rectangles)[FloatsPerRectangle * k + j] == rectangles[k][j]
      {
        if k < |init| {
          assert rectangles[k] == init[k];
        }
      }
    }
  }

  lemma {:induction false} FlattenAppend(a: seq<seq<real>>, b: seq<seq<real>>)
    ensures Flatten(a + b) == Flatten(a) + Flatten(b)
    decreases |b|
  {
    if |b| == 0 {
      assert a + b == a;
    } else {
      var init := b[..|b| - 1];
      assert (a + b)[..|a + b| - 1] == a + init;
      FlattenAppend(a, init);
    }
  }

  /**
   * `flush` with nothing pending changes nothing; otherwise it uploads exactly
   * the pending rectangles (12 floats each), binds the current texture, draws
   * 6 indices per rectangle, and empties the batch.
   */
  lemma FlushSpec(b: Batch)
    requires AllRectangles(b.pending)
    ensures |b.pending| == 0 ==> Flush(b) == b
    ensures |b.pending| > 0 ==>
      && Flush(b).pending == [] && Flush(b).current == b.current
      && |Flush(b).log| == |b.log| + 3 && Flush(b).log[..|b.log|] == b.log
      && Flush(b).log[|b.log|] == BufferSubData(Flatten(b.pending))
      && |Flatten(b.pending)| == FloatsPerRectangle * |b.pending|
      && Flush(b).log[|b.log| + 1] == BindTexture(b.current)
      && Flush(b).log[|b.log| + 2] == DrawElements(IndicesPerRectangle * |b.pending|)
  {
    FlattenLength(b.pending);
  }

  /**
   * A draw leaves the texture current and one more rectangle pending, in the
   * last slot. It flushes exactly when `MustFlush`; when it does not, the
   * earlier pending rectangles and the log are untouched. With at most
   * `RectangleCapacity` rectangles before, there are between 1 and
   * `RectangleCapacity` after.
   */
  lemma DrawSpec(b: Batch, texture: TextureId, rectangle: seq<real>)
    requires |b.pending| <= RectangleCapacity
    ensures var r := Draw(b, texture, rectangle);
      && r.current == Some(texture)
      && 1 <= |r.pending| <= RectangleCapacity
      && r.pending[|r.pending| - 1] == rectangle
      && (MustFlush(b, texture) ==> r.pending == [rectangle] && r.log == Flush(b).log)
      && (!MustFlush(b, texture) ==> r.pending[..|r.pending| - 1] == b.pending && r.log == b.log)
  {
  }

  /**
   * Drawing texture B while texture A has rectangles pending and room is left
   * issues one flush holding only A's rectangles before B's rectangle is staged.
   */
  lemma TextureSwitch(pending: seq<seq<real>>, log: seq<GLCall>, a: TextureId, b: TextureId, rectangle: seq<real>)
    requires a != b && 1 <= |pending| < RectangleCapacity
    ensures var r := Draw(Batch(Some(a), pending, log), b, rectangle);
      r == Batch(Some(b), [rectangle], log + FlushCalls(Some(a), pending))
  {
  }

  /** `prepareNativeDraw` flushes and retargets the texture without staging any geometry. */
  lemma PrepareNativeDrawSpec(b: Batch, texture: TextureId)
    ensures var r := PrepareNativeDraw(b, texture);
      r.pending == [] && r.current == Some(texture) && r.log == Flush(b).log
  {
  }

  /** `drawNative(n)` flushes the n staged rectangles with the prepared texture and leaves nothing pending. */
  lemma DrawNativeSpec(b: Batch, staged: seq<seq<real>>)
    ensures var r := DrawNative(b, staged);
      && r.pending == [] && r.current == b.current
      && r.log == b.log + (if |staged| == 0 then [] else FlushCalls(b.current, staged))
  {
  }

  /**
   * Chunking: ceil(N / 512) chunks, each of 1 to 512 rectangles, which put
   * back together are the N rectangles in order.
   */
  lemma {:induction false} ChunksSpec(rectangles: seq<seq<real>>)
    ensures |Chunks(rectangles)| == (|rectangles| + RectangleCapacity - 1) / RectangleCapacity
    ensures forall k :: 0 <= k < |Chunks(rectangles)| ==> 1 <= |Chunks(rectangles)[k]| <= RectangleCapacity
    ensures Concat(Chunks(rectangles)) == rectangles
    decreases |rectangles|
  {
    if |rectangles| > RectangleCapacity {
      var rest := rectangles[RectangleCapacity..];
      ChunksSpec(rest);
      assert rectangles[..RectangleCapacity] + rest == rectangles;
      assert Chunks(rectangles)[1..] == Chunks(rest);
    } else if |rectangles| > 0 {
      assert Concat([rectangles]) == rectangles + Concat([]);
    }
  }

  /**
   * From a batch of 1 to 512 pending rectangles of the same texture, drawing
   * more rectangles and flushing issues one flush per chunk of all of them.
   */
  lemma {:induction false} DrawAllFrom(pending: seq<seq<real>>, log: seq<GLCall>, texture: TextureId, rectangles: seq<seq<real>>)
    requires 1 <= |pending| <= RectangleCapacity
    ensures var r := Flush(DrawAll(Batch(Some(texture), pending, log), texture, rectangles));
      r.pending == [] && r.current == Some(texture) && r.log == log + FlushAll(Some(texture), Chunks(pending + rectangles))
    decreases |rectangles|
  {
    var b := Batch(Some(texture), pending, log);
    if |rectangles| == 0 {
      assert pending + rectangles == pending;
      assert FlushAll(Some(texture), [pending]) == FlushCalls(Some(texture), pending);
    } else {
      var q, rest := rectangles[0], rectangles[1..];
      assert rectangles == [q] + rest;
      assert DrawAll(b, texture, rectangles) == DrawAll(Draw(b, texture, q), texture, rest);
      if |pending| < RectangleCapacity {
        assert Draw(b, texture, q) == Batch(Some(texture), pending + [q], log);
        DrawAllFrom(pending + [q], log, texture, rest);
        assert pending + [q] + rest == pending + rectangles;
      } else {
        var log' := log + FlushCalls(Some(texture), pending);
        assert Draw(b, texture, q) == Batch(Some(texture), [q], log');
        DrawAllFrom([q], log', texture, rest);
        var all := pending + rectangles;
        assert all[..RectangleCapacity] == pending;
        assert all[RectangleCapacity..] == [q] + rest;
        assert Chunks(all) == [pending] + Chunks([q] + rest);
        assert FlushAll(Some(texture), Chunks(all)) == FlushCalls(Some(texture), pending) + FlushAll(Some(texture), Chunks([q] + rest)) by {
          assert Chunks(all)[0] == pending;
          assert Chunks(all)[1..] == Chunks([q] + rest);
        }
      }
    }
  }

  /**
   * From an empty batch, N draws of one texture followed by `flush` issue one
   * flush per chunk of at most 512 rectangles (so ceil(N / 512) uploads by
   * `ChunksSpec`), covering all N rectangles in call order.
   */
  lemma DrawAllThenFlush(current: Option<TextureId>, log: seq<GLCall>, texture: TextureId, rectangles: seq<seq<real>>)
    ensures var r := Flush(DrawAll(Batch(current, [], log), texture, rectangles));
      r.pending == [] && r.log == log + FlushAll(Some(texture), Chunks(rectangles))
  {
    if |rectangles| > 0 {
      var b := Batch(current, [], log);
      var q, rest := rectangles[0], rectangles[1..];
      assert DrawAll(b, texture, rectangles) == DrawAll(Draw(b, texture, q), texture, rest);
      assert Draw(b, texture, q) == Batch(Some(texture), [q], log) by {
        assert Flush(b) == b;
      }
      assert [q] + rest == rectangles;
      DrawAllFrom([q], log, texture, rest);
    }
  }
}
