/**
 * `ModelCoordinates` (scripts/gl/modelCoordinates.ts): a sprite rectangle
 * relative to its pivot, written to `HEAPF32` in the field order of
 * `GLModelCoordinates` (lib/gl.c).
 */
module ModelCoords {
  import Gl

  class ModelCoordinates {
    const ptr: nat

    constructor(ptr: nat)
      ensures this.ptr == ptr
    {
      this.ptr := ptr;
    }

    /**
     * `setCoordinates(pivotX, pivotY, width, height)`. The stored rectangle
     * gives back the pivot as (-left, -top) and the size as (right - left,
     * bottom - top), the relations of the commented-out getters; only the four
     * floats at `ptr` change.
     */
    method SetCoordinates(heap: array<real>, pivotX: real, pivotY: real, width: real, height: real)
      requires ptr % 4 == 0 && ptr / 4 + 4 <= heap.Length
      modifies heap
      ensures var m := Gl.ModelAt(heap[..], ptr);
        && -m.left == pivotX && -m.top == pivotY
        && m.right - m.left == width && m.bottom - m.top == height
      ensures forall k :: 0 <= k < heap.Length && !(ptr / 4 <= k < ptr / 4 + 4) ==> heap[k] == old(heap[k])
    {
      var i := ptr / 4;
      heap[i] := if pivotX != 0.0 then -pivotX else 0.0;
      heap[i + 1] := if pivotY != 0.0 then -pivotY else 0.0;
      heap[i + 2] := width - pivotX;
      heap[i + 3] := height - pivotY;
    }
  }
}
