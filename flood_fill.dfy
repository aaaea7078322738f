/**
 * `floodFill` (lib/imageProcessing.c:78-202): a 4-connected scanline fill
 * with an explicit stack. The caller has already recoloured the seed
 * `stack[0]` to `to`; every cell equal to `from` that the fill reaches
 * becomes `to`. A popped cell looks above and below itself, then walks left
 * and then right along its row while the cells are `from`, each walked cell
 * also looking above and below; every cell found above or below is pushed.
 *
 * The proof keeps, besides the frame (`Tracks`) and the stack (`Stacked`),
 * the completeness invariant `Complete`: every cell filled so far is either
 * still on the stack or has no `from` cell among its four neighbours.
 * Each step that writes the arrays is proved by a lemma about sequences.
 */
module FloodFill {
  import opened ImageGrid

  /** Cell k does not hold `from`; a cell outside the buffer does not either. */
  predicate NotFrom(b: seq<Byte>, k: int, from: Byte) {
    !(0 <= k < |b| && b[k] == from)
  }

  /** Neither the cell above c nor the one below holds `from`. */
  predicate Vertical(b: seq<Byte>, s: int, c: int, from: Byte) {
    NotFrom(b, c - s, from) && NotFrom(b, c + s, from)
  }

  predicate LeftClosed(b: seq<Byte>, c: int, from: Byte) {
    NotFrom(b, c - 1, from)
  }

  predicate RightClosed(b: seq<Byte>, c: int, from: Byte) {
    NotFrom(b, c + 1, from)
  }

  /** No 4-neighbour of c holds `from`. */
  predicate Closed(b: seq<Byte>, s: int, c: int, from: Byte) {
    Vertical(b, s, c, from) && LeftClosed(b, c, from) && RightClosed(b, c, from)
  }

  /** What `floodFill` requires: a seed inside the grid and a border without `from`. */
  ghost predicate Grid(w: nat, h: nat, b0: seq<Byte>, seed: int, from: Byte, to: Byte) {
    && GridSize(w, h) <= |b0|
    && from != to && Interior(w, h, seed) && b0[seed] == to
    && forall c {:trigger Interior(w, h, c)} :: 0 <= c < GridSize(w, h) && !Interior(w, h, c) ==> b0[c] != from
  }

  /** `changed` are the cells rewritten from `from` to `to`; all others keep their value. */
  ghost predicate Tracks(w: nat, h: nat, b0: seq<Byte>, b: seq<Byte>, changed: set<int>, from: Byte, to: Byte) {
    && |b| == |b0| && GridSize(w, h) <= |b0|
    && (forall c :: c in changed ==> 0 <= c < GridSize(w, h) && b0[c] == from && b[c] == to)
    && (forall c :: 0 <= c < |b| && c !in changed ==> b[c] == b0[c])
  }

  /** The stack holds filled cells. */
  ghost predicate Stacked(b: seq<Byte>, st: seq<int>, sz: int, changed: set<int>, seed: int, to: Byte) {
    && 0 <= sz <= |st|
    && forall k :: 0 <= k < sz ==> (st[k] in changed || st[k] == seed) && 0 <= st[k] < |b| && b[st[k]] == to
  }

  ghost predicate Invariant(w: nat, h: nat, b0: seq<Byte>, b: seq<Byte>, st: seq<int>, sz: int, area: int,
                            changed: set<int>, seed: int, from: Byte, to: Byte) {
    && Tracks(w, h, b0, b, changed, from, to)
    && Stacked(b, st, sz, changed, seed, to)
    && area == 1 + |changed| && sz <= area
  }

  /** Every filled cell outside [lo, hi] is on the stack or closed. */
  ghost predicate Complete(b: seq<Byte>, s: int, st: seq<int>, sz: int, changed: set<int>, seed: int, from: Byte, lo: int, hi: int)
    requires 0 <= sz <= |st|
  {
    forall c :: (c in changed || c == seed) && !(lo <= c <= hi) ==> c in st[..sz] || Closed(b, s, c, from)
  }

  /** Cells only stop being `from`. */
  ghost predicate Shrinks(b0: seq<Byte>, b: seq<Byte>, from: Byte) {
    |b| == |b0| && forall k :: 0 <= k < |b| && b0[k] != from ==> b[k] != from
  }

  lemma ShrinksTransitive(b0: seq<Byte>, b1: seq<Byte>, b2: seq<Byte>, from: Byte)
    requires Shrinks(b0, b1, from) && Shrinks(b1, b2, from)
    ensures Shrinks(b0, b2, from)
  {
  }

  /** The filled cells are interior and at most one more than the rewritten ones. */
  lemma FilledCount(w: nat, h: nat, b0: seq<Byte>, b: seq<Byte>, changed: set<int>, seed: int, from: Byte, to: Byte)
    requires Grid(w, h, b0, seed, from, to) && Tracks(w, h, b0, b, changed, from, to)
    ensures seed !in changed && 1 + |changed| == |changed + {seed}| <= GridSize(w, h)
  {
    forall c | c in changed + {seed} ensures 0 <= c < GridSize(w, h) {
      Neighbours(w, h, c);
    }
    SubsetOfRange(changed + {seed}, GridSize(w, h));
  }

  /** Rewriting a `from` cell of the grid adds it to `changed`. */
  lemma TracksRewrite(w: nat, h: nat, b0: seq<Byte>, b: seq<Byte>, changed: set<int>, seed: int, from: Byte, to: Byte, i: int)
    requires Grid(w, h, b0, seed, from, to) && Tracks(w, h, b0, b, changed, from, to)
    requires 0 <= i < GridSize(w, h) && b[i] == from
    ensures i !in changed && Interior(w, h, i) && i != seed
    ensures Tracks(w, h, b0, b[i := to], changed + {i}, from, to) && Shrinks(b, b[i := to], from)
    ensures |changed + {i}| == |changed| + 1 && |changed + {i}| < GridSize(w, h)
  {
    FilledCount(w, h, b0, b[i := to], changed + {i}, seed, from, to);
  }

  /** Pushing the rewritten cell keeps the stack distinct and filled. */
  lemma StackedPush(b: seq<Byte>, st: seq<int>, sz: int, changed: set<int>, seed: int, from: Byte, to: Byte, i: int)
    requires Stacked(b, st, sz, changed, seed, to) && sz < |st| && 0 <= i < |b| && b[i] == from && from != to
    ensures Stacked(b[i := to], st[sz := i], sz + 1, changed + {i}, seed, to)
    ensures st[sz := i][..sz + 1] == st[..sz] + [i]
  {
    assert st[sz := i][..sz + 1] == st[..sz] + [i];
  }

  /** A filled cell outside [lo, hi] that was closed stays closed when cells only stop being `from`. */
  lemma CompleteAfter(b: seq<Byte>, b': seq<Byte>, s: int, st: seq<int>, sz: int, st': seq<int>, sz': int,
                      changed: set<int>, changed': set<int>, seed: int, from: Byte, lo: int, hi: int)
    requires 0 <= sz <= |st| && 0 <= sz' <= |st'| && Complete(b, s, st, sz, changed, seed, from, lo, hi)
    requires Shrinks(b, b', from)
    requires forall c :: c in st[..sz] ==> c in st'[..sz']
    requires forall c :: c in changed' && c !in changed ==> c in st'[..sz'] || lo <= c <= hi
    ensures Complete(b', s, st', sz', changed', seed, from, lo, hi)
  {
    forall c | (c in changed' || c == seed) && !(lo <= c <= hi) && c !in st'[..sz']
      ensures Closed(b', s, c, from)
    {
      assert Closed(b, s, c, from);
    }
  }

  /** The state after `buffer[i] = to; stack[stackSize++] = i`. */
  lemma Push(w: nat, h: nat, b0: seq<Byte>, b: seq<Byte>, st: seq<int>, sz: int, area: int,
             changed: set<int>, seed: int, from: Byte, to: Byte, i: int, lo: int, hi: int)
    requires Grid(w, h, b0, seed, from, to) && GridSize(w, h) <= |st|
    requires Invariant(w, h, b0, b, st, sz, area, changed, seed, from, to)
    requires 0 <= i < GridSize(w, h) && b[i] == from
    requires Complete(b, w + 2, st, sz, changed, seed, from, lo, hi)
    ensures sz < |st| && i !in changed
    ensures Invariant(w, h, b0, b[i := to], st[sz := i], sz + 1, area + 1, changed + {i}, seed, from, to)
    ensures Complete(b[i := to], w + 2, st[sz := i], sz + 1, changed + {i}, seed, from, lo, hi)
    ensures Shrinks(b, b[i := to], from)
  {
    TracksRewrite(w, h, b0, b, changed, seed, from, to, i);
    StackedPush(b, st, sz, changed, seed, from, to, i);
    CompleteAfter(b, b[i := to], w + 2, st, sz, st[sz := i], sz + 1, changed, changed + {i}, seed, from, lo, hi);
  }

  /** The state after `buffer[i] = to` for a walked cell in [lo, hi]. */
  lemma Walk(w: nat, h: nat, b0: seq<Byte>, b: seq<Byte>, st: seq<int>, sz: int, area: int,
             changed: set<int>, seed: int, from: Byte, to: Byte, i: int, lo: int, hi: int)
    requires Grid(w, h, b0, seed, from, to) && GridSize(w, h) <= |st|
    requires Invariant(w, h, b0, b, st, sz, area, changed, seed, from, to)
    requires 0 <= i < GridSize(w, h) && b[i] == from && lo <= i <= hi
    requires Complete(b, w + 2, st, sz, changed, seed, from, lo, hi)
    ensures i !in changed
    ensures Invariant(w, h, b0, b[i := to], st, sz, area + 1, changed + {i}, seed, from, to)
    ensures Complete(b[i := to], w + 2, st, sz, changed + {i}, seed, from, lo, hi)
    ensures Shrinks(b, b[i := to], from)
  {
    TracksRewrite(w, h, b0, b, changed, seed, from, to, i);
    CompleteAfter(b, b[i := to], w + 2, st, sz, st, sz, changed, changed + {i}, seed, from, lo, hi);
  }

  /** Exempting more cells keeps `Complete`. */
  lemma Widen(b: seq<Byte>, s: int, st: seq<int>, sz: int, changed: set<int>, seed: int, from: Byte,
              lo: int, hi: int, lo': int, hi': int)
    requires 0 <= sz <= |st| && Complete(b, s, st, sz, changed, seed, from, lo, hi)
    requires lo' <= lo && hi <= hi'
    ensures Complete(b, s, st, sz, changed, seed, from, lo', hi')
  {
  }

  /**
   * `if (buffer[i] == from) { buffer[i] = to; area++; stack[stackSize++] = i; }`:
   * the check above or below a cell. A push always comes with a rewrite, so
   * no cell is pushed twice.
   */
  method Visit(w: nat, h: nat, buffer: array<Byte>, stack: array<int>, from: Byte, to: Byte, i: int, sz: int, area: int,
               ghost b0: seq<Byte>, ghost changed: set<int>, ghost seed: int, ghost lo: int, ghost hi: int)
    returns (sz': int, area': int, ghost changed': set<int>)
    requires 0 <= i < GridSize(w, h)
    requires Grid(w, h, b0, seed, from, to) && GridSize(w, h) <= stack.Length
    requires Invariant(w, h, b0, buffer[..], stack[..], sz, area, changed, seed, from, to)
    requires Complete(buffer[..], w + 2, stack[..], sz, changed, seed, from, lo, hi)
    modifies buffer, stack
    ensures Invariant(w, h, b0, buffer[..], stack[..], sz', area', changed', seed, from, to)
    ensures Complete(buffer[..], w + 2, stack[..], sz', changed', seed, from, lo, hi)
    ensures NotFrom(buffer[..], i, from) && Shrinks(old(buffer[..]), buffer[..], from)
    ensures old(buffer[i]) == from ==>
      changed' == changed + {i} && i !in changed && sz' == sz + 1 && area' == area + 1 && stack[sz] == i
    ensures old(buffer[i]) != from ==>
      changed' == changed && sz' == sz && area' == area && buffer[..] == old(buffer[..]) && stack[..] == old(stack[..])
  {
    sz', area', changed' := sz, area, changed;
    if buffer[i] == from {
      ghost var b, st := buffer[..], stack[..];
      Push(w, h, b0, b, st, sz, area, changed, seed, from, to, i, lo, hi);
      buffer[i] := to;
      stack[sz] := i;
      sz', area', changed' := sz + 1, area + 1, changed + {i};
      assert buffer[..] == b[i := to] && stack[..] == st[sz := i];
    }
  }

  /** `buffer[i] = to; area++;` for a cell of a walk. */
  method Rewrite(w: nat, h: nat, buffer: array<Byte>, stack: array<int>, from: Byte, to: Byte, i: int, sz: int, area: int,
                 ghost b0: seq<Byte>, ghost changed: set<int>, ghost seed: int, ghost lo: int, ghost hi: int)
    returns (area': int, ghost changed': set<int>)
    requires 0 <= i < GridSize(w, h) && lo <= i <= hi
    requires Grid(w, h, b0, seed, from, to) && GridSize(w, h) <= stack.Length
    requires Invariant(w, h, b0, buffer[..], stack[..], sz, area, changed, seed, from, to) && buffer[i] == from
    requires Complete(buffer[..], w + 2, stack[..], sz, changed, seed, from, lo, hi)
    modifies buffer
    ensures Invariant(w, h, b0, buffer[..], stack[..], sz, area', changed', seed, from, to)
    ensures Complete(buffer[..], w + 2, stack[..], sz, changed', seed, from, lo, hi)
    ensures changed' == changed + {i} && i !in changed && area' == area + 1
    ensures buffer[..] == old(buffer[..])[i := to] && Shrinks(old(buffer[..]), buffer[..], from)
  {
    ghost var b := buffer[..];
    Walk(w, h, b0, b, stack[..], sz, area, changed, seed, from, to, i, lo, hi);
    buffer[i] := to;
    changed' := changed + {i};
    area' := area + 1;
  }

  lemma VerticalAfter(b1: seq<Byte>, b2: seq<Byte>, b3: seq<Byte>, s: int, i: int, from: Byte)
    requires Shrinks(b1, b2, from) && Shrinks(b2, b3, from) && NotFrom(b2, i - s, from) && NotFrom(b3, i + s, from)
    ensures Shrinks(b1, b3, from) && Vertical(b3, s, i, from)
  {
  }

  /** The checks above and below the interior cell i (lines 84-98, 109-123 and 159-173). */
  method VisitVertical(w: nat, h: nat, buffer: array<Byte>, stack: array<int>, from: Byte, to: Byte, i: int, sz: int, area: int,
                       ghost b0: seq<Byte>, ghost changed: set<int>, ghost seed: int, ghost lo: int, ghost hi: int)
    returns (sz': int, area': int, ghost changed': set<int>)
    requires Grid(w, h, b0, seed, from, to) && GridSize(w, h) <= stack.Length
    requires Invariant(w, h, b0, buffer[..], stack[..], sz, area, changed, seed, from, to)
    requires Interior(w, h, i)
    requires Complete(buffer[..], w + 2, stack[..], sz, changed, seed, from, lo, hi)
    modifies buffer, stack
    ensures Invariant(w, h, b0, buffer[..], stack[..], sz', area', changed', seed, from, to)
    ensures Complete(buffer[..], w + 2, stack[..], sz', changed', seed, from, lo, hi)
    ensures Shrinks(old(buffer[..]), buffer[..], from) && Vertical(buffer[..], w + 2, i, from)
    ensures changed <= changed' && area <= area' && (area' == area ==> sz' == sz)
  {
    Neighbours(w, h, i);
    ghost var b1 := buffer[..];
    sz', area', changed' := Visit(w, h, buffer, stack, from, to, i - (w + 2), sz, area, b0, changed, seed, lo, hi);
    ghost var b2 := buffer[..];
    sz', area', changed' := Visit(w, h, buffer, stack, from, to, i + (w + 2), sz', area', b0, changed', seed, lo, hi);
    VerticalAfter(b1, b2, buffer[..], w + 2, i, from);
  }

  /**
   * One cell of a walk: `buffer[i] = to; area++;` and then the checks above
   * and below it. `i` joins the exempt range [lo, hi].
   */
  method WalkCell(w: nat, h: nat, buffer: array<Byte>, stack: array<int>, from: Byte, to: Byte, i: int, sz: int, area: int,
                  ghost b0: seq<Byte>, ghost changed: set<int>, ghost seed: int, ghost lo: int, ghost hi: int)
    returns (sz': int, area': int, ghost changed': set<int>)
    requires Grid(w, h, b0, seed, from, to) && GridSize(w, h) <= stack.Length
    requires Invariant(w, h, b0, buffer[..], stack[..], sz, area, changed, seed, from, to)
    requires 0 <= i < buffer.Length && Interior(w, h, i) && buffer[i] == from && lo <= i <= hi
    requires Complete(buffer[..], w + 2, stack[..], sz, changed, seed, from, lo, hi)
    modifies buffer, stack
    ensures Invariant(w, h, b0, buffer[..], stack[..], sz', area', changed', seed, from, to)
    ensures Complete(buffer[..], w + 2, stack[..], sz', changed', seed, from, lo, hi)
    ensures Shrinks(old(buffer[..]), buffer[..], from) && Vertical(buffer[..], w + 2, i, from) && buffer[i] != from
    ensures changed + {i} <= changed' && area < area'
  {
    Neighbours(w, h, i);
    ghost var b1 := buffer[..];
    area', changed' := Rewrite(w, h, buffer, stack, from, to, i, sz, area, b0, changed, seed, lo, hi);
    ghost var b2 := buffer[..];
    ghost var c2 := changed';
    sz', area', changed' := VisitVertical(w, h, buffer, stack, from, to, i, sz, area', b0, changed', seed, lo, hi);
    RewriteKept(b1, b2, buffer[..], i, changed, c2, changed', from, to);
  }

  /** A rewritten cell stays rewritten. */
  lemma RewriteKept(b1: seq<Byte>, b2: seq<Byte>, b3: seq<Byte>, i: int, changed1: set<int>, changed2: set<int>, changed3: set<int>,
                    from: Byte, to: Byte)
    requires 0 <= i < |b1| && b2 == b1[i := to] && from != to && Shrinks(b1, b2, from) && Shrinks(b2, b3, from)
    requires changed2 == changed1 + {i} && changed2 <= changed3
    ensures Shrinks(b1, b3, from) && b3[i] != from && changed1 + {i} <= changed3
  {
    assert b2[i] == to;
  }

  /** The left walk has rewritten i+1 .. stackI-1 and checked above and below i+1 .. stackI. */
  ghost predicate LeftWalked(b: seq<Byte>, s: int, i: int, stackI: int, changed: set<int>, from: Byte) {
    && (forall c :: i < c < stackI ==> c in changed)
    && (forall c :: i < c <= stackI ==> Vertical(b, s, c, from))
    && (forall c :: i + 1 < c <= stackI ==> LeftClosed(b, c, from))
  }

  lemma LeftWalkStep(b: seq<Byte>, b': seq<Byte>, s: int, i: int, stackI: int, changed: set<int>, changed': set<int>, from: Byte)
    requires LeftWalked(b, s, i, stackI, changed, from) && Shrinks(b, b', from)
    requires changed + {i} <= changed' && Vertical(b', s, i, from) && 0 <= i < |b'| && b'[i] != from
    ensures LeftWalked(b', s, i - 1, stackI, changed', from)
  {
    forall c | i - 1 < c <= stackI ensures Vertical(b', s, c, from) {
      if c != i {
        assert Vertical(b, s, c, from);
      }
    }
    forall c | i < c <= stackI ensures LeftClosed(b', c, from) {
      if c != i + 1 {
        assert LeftClosed(b, c, from);
      }
    }
  }

  /** A cell outside the interior never holds `from`. */
  lemma BorderNotFrom(w: nat, h: nat, b0: seq<Byte>, b: seq<Byte>, changed: set<int>, seed: int, from: Byte, to: Byte, i: int)
    requires Grid(w, h, b0, seed, from, to) && Tracks(w, h, b0, b, changed, from, to)
    requires 0 <= i < GridSize(w, h) && !Interior(w, h, i)
    ensures NotFrom(b, i, from)
  {
    assert i !in changed;
  }

  /** Exempting fewer cells keeps `Complete` when the cells no longer exempt are closed. */
  lemma Narrow(b: seq<Byte>, s: int, st: seq<int>, sz: int, changed: set<int>, seed: int, from: Byte,
               lo: int, hi: int, lo': int, hi': int)
    requires 0 <= sz <= |st| && Complete(b, s, st, sz, changed, seed, from, lo, hi)
    requires forall c :: lo <= c <= hi && !(lo' <= c <= hi') ==> Closed(b, s, c, from)
    ensures Complete(b, s, st, sz, changed, seed, from, lo', hi')
  {
  }

  /** When the left walk stops at a cell i that is not `from`, the walked cells are closed. */
  lemma LeftWalkCloses(b: seq<Byte>, s: int, st: seq<int>, sz: int, i: int, stackI: int, changed: set<int>, seed: int,
                       from: Byte, to: Byte)
    requires LeftWalked(b, s, i, stackI, changed, from) && NotFrom(b, i, from) && from != to
    requires 0 <= i < stackI < |b| && b[stackI] == to && forall c :: c in changed ==> 0 <= c < |b| && b[c] == to
    requires 0 <= sz <= |st| && Complete(b, s, st, sz, changed, seed, from, i + 1, stackI)
    ensures Complete(b, s, st, sz, changed, seed, from, stackI, stackI)
    ensures Vertical(b, s, stackI, from) && LeftClosed(b, stackI, from)
  {
    forall c | i < c < stackI ensures Closed(b, s, c, from) {
      assert Vertical(b, s, c, from);
      assert c + 1 == stackI || c + 1 in changed;
      if c != i + 1 {
        assert LeftClosed(b, c, from);
      }
    }
    assert Vertical(b, s, stackI, from);
    if stackI != i + 1 {
      assert LeftClosed(b, stackI, from);
    }
    Narrow(b, s, st, sz, changed, seed, from, i + 1, stackI, stackI, stackI);
  }

  /** The state of the left walk at cell i. */
  ghost predicate LeftState(w: nat, h: nat, b0: seq<Byte>, b: seq<Byte>, st: seq<int>, sz: int, area: int,
                            changed: set<int>, seed: int, from: Byte, to: Byte, stackI: int, i: int) {
    && Invariant(w, h, b0, b, st, sz, area, changed, seed, from, to)
    && Complete(b, w + 2, st, sz, changed, seed, from, i + 1, stackI)
    && LeftWalked(b, w + 2, i, stackI, changed, from)
  }

  /** One iteration of the left walk (lines 103-127). */
  method LeftStep(w: nat, h: nat, buffer: array<Byte>, stack: array<int>, from: Byte, to: Byte, stackI: int, i: int,
                  sz: int, area: int, ghost b0: seq<Byte>, ghost changed: set<int>, ghost seed: int)
    returns (sz': int, area': int, ghost changed': set<int>)
    requires Grid(w, h, b0, seed, from, to) && GridSize(w, h) <= stack.Length
    requires LeftState(w, h, b0, buffer[..], stack[..], sz, area, changed, seed, from, to, stackI, i)
    requires 0 <= i < stackI < buffer.Length && Interior(w, h, i) && buffer[i] == from
    modifies buffer, stack
    ensures LeftState(w, h, b0, buffer[..], stack[..], sz', area', changed', seed, from, to, stackI, i - 1)
    ensures changed <= changed' && area < area'
  {
    Widen(buffer[..], w + 2, stack[..], sz, changed, seed, from, i + 1, stackI, i, stackI);
    ghost var b1 := buffer[..];
    sz', area', changed' := WalkCell(w, h, buffer, stack, from, to, i, sz, area, b0, changed, seed, i, stackI);
    LeftAdvance(w, h, b0, b1, buffer[..], stack[..], sz', area', changed, changed', seed, from, to, stackI, i);
  }

  lemma LeftAdvance(w: nat, h: nat, b0: seq<Byte>, b1: seq<Byte>, b: seq<Byte>, st: seq<int>, sz: int, area: int,
                    changed1: set<int>, changed: set<int>, seed: int, from: Byte, to: Byte, stackI: int, i: int)
    requires LeftWalked(b1, w + 2, i, stackI, changed1, from) && Shrinks(b1, b, from)
    requires changed1 + {i} <= changed && Vertical(b, w + 2, i, from) && 0 <= i < |b| && b[i] != from
    requires Invariant(w, h, b0, b, st, sz, area, changed, seed, from, to)
    requires Complete(b, w + 2, st, sz, changed, seed, from, i, stackI)
    ensures LeftState(w, h, b0, b, st, sz, area, changed, seed, from, to, stackI, i - 1)
  {
    LeftWalkStep(b1, b, w + 2, i, stackI, changed1, changed, from);
  }

  /** The left walk starts at the left neighbour of `stackI`. */
  lemma LeftStart(w: nat, h: nat, b0: seq<Byte>, b: seq<Byte>, st: seq<int>, sz: int, area: int,
                  changed: set<int>, seed: int, from: Byte, to: Byte, stackI: int)
    requires Invariant(w, h, b0, b, st, sz, area, changed, seed, from, to)
    requires Complete(b, w + 2, st, sz, changed, seed, from, stackI, stackI)
    requires Vertical(b, w + 2, stackI, from)
    ensures LeftState(w, h, b0, b, st, sz, area, changed, seed, from, to, stackI, stackI - 1)
  {
  }

  /** Where the left walk stops, at column 0 or at a cell that is not `from`. */
  lemma LeftFinish(w: nat, h: nat, b0: seq<Byte>, b: seq<Byte>, st: seq<int>, sz: int, area: int,
                   changed: set<int>, seed: int, from: Byte, to: Byte, stackI: int, i: int)
    requires Grid(w, h, b0, seed, from, to) && GridSize(w, h) <= |st|
    requires LeftState(w, h, b0, b, st, sz, area, changed, seed, from, to, stackI, i)
    requires (stackI in changed || stackI == seed) && Interior(w, h, stackI) && 0 <= i < stackI
    requires Column(w, i) == 0 || b[i] != from
    ensures Invariant(w, h, b0, b, st, sz, area, changed, seed, from, to)
    ensures Complete(b, w + 2, st, sz, changed, seed, from, stackI, stackI)
    ensures Vertical(b, w + 2, stackI, from) && LeftClosed(b, stackI, from)
  {
    Neighbours(w, h, stackI);
    if Column(w, i) == 0 {
      BorderNotFrom(w, h, b0, b, changed, seed, from, to, i);
    }
    LeftWalkCloses(b, w + 2, st, sz, i, stackI, changed, seed, from, to);
  }

  /**
   * Lines 100-127: from the left neighbour of `stackI`, rewrite every `from`
   * cell of the row, checking above and below each, until a cell is not
   * `from` or column 0 is reached. Afterwards every filled cell but `stackI`
   * is on the stack or closed, and `stackI` has only its right side left.
   */
  method LeftWalk(w: nat, h: nat, buffer: array<Byte>, stack: array<int>, from: Byte, to: Byte, stackI: int, sz: int, area: int,
                  ghost b0: seq<Byte>, ghost changed: set<int>, ghost seed: int)
    returns (sz': int, area': int, ghost changed': set<int>)
    requires Grid(w, h, b0, seed, from, to) && GridSize(w, h) <= stack.Length
    requires Invariant(w, h, b0, buffer[..], stack[..], sz, area, changed, seed, from, to)
    requires (stackI in changed || stackI == seed) && Interior(w, h, stackI)
    requires Complete(buffer[..], w + 2, stack[..], sz, changed, seed, from, stackI, stackI)
    requires Vertical(buffer[..], w + 2, stackI, from)
    modifies buffer, stack
    ensures Invariant(w, h, b0, buffer[..], stack[..], sz', area', changed', seed, from, to)
    ensures Complete(buffer[..], w + 2, stack[..], sz', changed', seed, from, stackI, stackI)
    ensures Vertical(buffer[..], w + 2, stackI, from) && LeftClosed(buffer[..], stackI, from)
    ensures changed <= changed' && area <= area' && (area' == area ==> sz' == sz)
  {
    sz', area', changed' := sz, area, changed;
    var i := stackI - 1;
    var x := i % (w + 2);
    ghost var y := Row(w, stackI);
    ghost var rowStart := stackI - Column(w, stackI);
    Neighbours(w, h, stackI);
    RowCell(w, stackI, x, i);
    LeftStart(w, h, b0, buffer[..], stack[..], sz, area, changed, seed, from, to, stackI);
    while x >= 1 && buffer[i] == from
      invariant 0 <= x < Column(w, stackI) && i == rowStart + x && Row(w, i) == y && Column(w, i) == x
      invariant LeftState(w, h, b0, buffer[..], stack[..], sz', area', changed', seed, from, to, stackI, i)
      invariant changed <= changed' && area <= area' && (area' == area ==> sz' == sz)
      decreases x
    {
      assert Interior(w, h, i);
      sz', area', changed' := LeftStep(w, h, buffer, stack, from, to, stackI, i, sz', area', b0, changed', seed);
      i := i - 1;
      x := x - 1;
      RowCell(w, stackI, x, i);
    }
    LeftFinish(w, h, b0, buffer[..], stack[..], sz', area', changed', seed, from, to, stackI, i);
  }

  /** The right walk has rewritten stackI+1 .. i-1 and checked above and below stackI .. i-1. */
  ghost predicate RightWalked(b: seq<Byte>, s: int, i: int, stackI: int, changed: set<int>, from: Byte) {
    && (forall c :: stackI < c < i ==> c in changed)
    && (forall c :: stackI <= c < i ==> Vertical(b, s, c, from))
    && (forall c :: stackI <= c < i - 1 ==> RightClosed(b, c, from))
    && LeftClosed(b, stackI, from)
  }

  lemma RightWalkStep(b: seq<Byte>, b': seq<Byte>, s: int, i: int, stackI: int, changed: set<int>, changed': set<int>, from: Byte)
    requires RightWalked(b, s, i, stackI, changed, from) && Shrinks(b, b', from) && stackI < i
    requires changed + {i} <= changed' && Vertical(b', s, i, from) && 0 <= i < |b'| && b'[i] != from
    ensures RightWalked(b', s, i + 1, stackI, changed', from)
  {
    forall c | stackI <= c < i + 1 ensures Vertical(b', s, c, from) {
      if c != i {
        assert Vertical(b, s, c, from);
      }
    }
    forall c | stackI <= c < i ensures RightClosed(b', c, from) {
      if c != i - 1 {
        assert RightClosed(b, c, from);
      }
    }
    assert LeftClosed(b, stackI, from);
  }

  /** When the right walk stops at a cell i that is not `from`, `stackI` and the walked cells are closed. */
  lemma RightWalkCloses(b: seq<Byte>, s: int, st: seq<int>, sz: int, i: int, stackI: int, changed: set<int>, seed: int,
                        from: Byte, to: Byte)
    requires RightWalked(b, s, i, stackI, changed, from) && NotFrom(b, i, from) && from != to
    requires 0 <= stackI < i && stackI < |b| && b[stackI] == to && forall c :: c in changed ==> 0 <= c < |b| && b[c] == to
    requires 0 <= sz <= |st| && Complete(b, s, st, sz, changed, seed, from, stackI, i - 1)
    ensures Complete(b, s, st, sz, changed, seed, from, 1, 0)
  {
    forall c | stackI <= c < i ensures Closed(b, s, c, from) {
      assert Vertical(b, s, c, from);
      if c != stackI {
        assert c - 1 == stackI || c - 1 in changed;
      } else {
        assert LeftClosed(b, stackI, from);
      }
      if c != i - 1 {
        assert RightClosed(b, c, from);
      }
    }
    Narrow(b, s, st, sz, changed, seed, from, stackI, i - 1, 1, 0);
  }

  /** The state of the right walk at cell i. */
  ghost predicate RightState(w: nat, h: nat, b0: seq<Byte>, b: seq<Byte>, st: seq<int>, sz: int, area: int,
                             changed: set<int>, seed: int, from: Byte, to: Byte, stackI: int, i: int) {
    && Invariant(w, h, b0, b, st, sz, area, changed, seed, from, to)
    && Complete(b, w + 2, st, sz, changed, seed, from, stackI, i - 1)
    && RightWalked(b, w + 2, i, stackI, changed, from)
  }

  /** One iteration of the right walk (lines 153-177). */
  method RightStep(w: nat, h: nat, buffer: array<Byte>, stack: array<int>, from: Byte, to: Byte, stackI: int, i: int,
                   sz: int, area: int, ghost b0: seq<Byte>, ghost changed: set<int>, ghost seed: int)
    returns (sz': int, area': int, ghost changed': set<int>)
    requires Grid(w, h, b0, seed, from, to) && GridSize(w, h) <= stack.Length
    requires RightState(w, h, b0, buffer[..], stack[..], sz, area, changed, seed, from, to, stackI, i)
    requires 0 <= stackI < i < buffer.Length && Interior(w, h, i) && buffer[i] == from
    modifies buffer, stack
    ensures RightState(w, h, b0, buffer[..], stack[..], sz', area', changed', seed, from, to, stackI, i + 1)
    ensures changed <= changed' && area < area'
  {
    Widen(buffer[..], w + 2, stack[..], sz, changed, seed, from, stackI, i - 1, stackI, i);
    ghost var b1 := buffer[..];
    sz', area', changed' := WalkCell(w, h, buffer, stack, from, to, i, sz, area, b0, changed, seed, stackI, i);
    RightAdvance(w, h, b0, b1, buffer[..], stack[..], sz', area', changed, changed', seed, from, to, stackI, i);
  }

  lemma RightAdvance(w: nat, h: nat, b0: seq<Byte>, b1: seq<Byte>, b: seq<Byte>, st: seq<int>, sz: int, area: int,
                     changed1: set<int>, changed: set<int>, seed: int, from: Byte, to: Byte, stackI: int, i: int)
    requires RightWalked(b1, w + 2, i, stackI, changed1, from) && Shrinks(b1, b, from) && stackI < i
    requires changed1 + {i} <= changed && Vertical(b, w + 2, i, from) && 0 <= i < |b| && b[i] != from
    requires Invariant(w, h, b0, b, st, sz, area, changed, seed, from, to)
    requires Complete(b, w + 2, st, sz, changed, seed, from, stackI, i)
    ensures RightState(w, h, b0, b, st, sz, area, changed, seed, from, to, stackI, i + 1)
  {
    RightWalkStep(b1, b, w + 2, i, stackI, changed1, changed, from);
  }

  /** The right walk starts at the right neighbour of `stackI`. */
  lemma RightStart(w: nat, h: nat, b0: seq<Byte>, b: seq<Byte>, st: seq<int>, sz: int, area: int,
                   changed: set<int>, seed: int, from: Byte, to: Byte, stackI: int)
    requires Invariant(w, h, b0, b, st, sz, area, changed, seed, from, to)
    requires Complete(b, w + 2, st, sz, changed, seed, from, stackI, stackI)
    requires Vertical(b, w + 2, stackI, from) && LeftClosed(b, stackI, from)
    ensures RightState(w, h, b0, b, st, sz, area, changed, seed, from, to, stackI, stackI + 1)
  {
  }

  /** Where the right walk stops, at column w + 1 or at a cell that is not `from`. */
  lemma RightFinish(w: nat, h: nat, b0: seq<Byte>, b: seq<Byte>, st: seq<int>, sz: int, area: int,
                    changed: set<int>, seed: int, from: Byte, to: Byte, stackI: int, i: int)
    requires Grid(w, h, b0, seed, from, to) && GridSize(w, h) <= |st|
    requires RightState(w, h, b0, b, st, sz, area, changed, seed, from, to, stackI, i)
    requires (stackI in changed || stackI == seed) && Interior(w, h, stackI) && stackI < i < GridSize(w, h)
    requires Column(w, i) == w + 1 || b[i] != from
    ensures Invariant(w, h, b0, b, st, sz, area, changed, seed, from, to)
    ensures Complete(b, w + 2, st, sz, changed, seed, from, 1, 0)
  {
    Neighbours(w, h, stackI);
    if Column(w, i) == w + 1 {
      BorderNotFrom(w, h, b0, b, changed, seed, from, to, i);
    }
    RightWalkCloses(b, w + 2, st, sz, i, stackI, changed, seed, from, to);
  }

  /**
   * Lines 150-177: the same walk to the right of `stackI`, up to column w.
   * Afterwards every filled cell is on the stack or closed.
   */
  method RightWalk(w: nat, h: nat, buffer: array<Byte>, stack: array<int>, from: Byte, to: Byte, stackI: int, sz: int, area: int,
                   ghost b0: seq<Byte>, ghost changed: set<int>, ghost seed: int)
    returns (sz': int, area': int, ghost changed': set<int>)
    requires Grid(w, h, b0, seed, from, to) && GridSize(w, h) <= stack.Length
    requires Invariant(w, h, b0, buffer[..], stack[..], sz, area, changed, seed, from, to)
    requires (stackI in changed || stackI == seed) && Interior(w, h, stackI)
    requires Complete(buffer[..], w + 2, stack[..], sz, changed, seed, from, stackI, stackI)
    requires Vertical(buffer[..], w + 2, stackI, from) && LeftClosed(buffer[..], stackI, from)
    modifies buffer, stack
    ensures Invariant(w, h, b0, buffer[..], stack[..], sz', area', changed', seed, from, to)
    ensures Complete(buffer[..], w + 2, stack[..], sz', changed', seed, from, 1, 0)
    ensures changed <= changed' && area <= area' && (area' == area ==> sz' == sz)
  {
    sz', area', changed' := sz, area, changed;
    var i := stackI + 1;
    var x := i % (w + 2);
    ghost var y := Row(w, stackI);
    ghost var rowStart := stackI - Column(w, stackI);
    Neighbours(w, h, stackI);
    RowCell(w, stackI, x, i);
    RightStart(w, h, b0, buffer[..], stack[..], sz, area, changed, seed, from, to, stackI);
    while x <= w && buffer[i] == from
      invariant Column(w, stackI) < x <= w + 1 && i == rowStart + x && Row(w, i) == y && Column(w, i) == x
      invariant RightState(w, h, b0, buffer[..], stack[..], sz', area', changed', seed, from, to, stackI, i)
      invariant changed <= changed' && area <= area' && (area' == area ==> sz' == sz)
      decreases w + 1 - x
    {
      assert Interior(w, h, i);
      sz', area', changed' := RightStep(w, h, buffer, stack, from, to, stackI, i, sz', area', b0, changed', seed);
      i := i + 1;
      x := x + 1;
      RowCell(w, stackI, x, i);
    }
    RightFinish(w, h, b0, buffer[..], stack[..], sz', area', changed', seed, from, to, stackI, i);
  }

  /** Popping the top cell: it is the one cell that may now be neither stacked nor closed. */
  lemma Pop(b: seq<Byte>, s: int, st: seq<int>, sz: int, changed: set<int>, seed: int, from: Byte)
    requires 0 < sz <= |st| && Complete(b, s, st, sz, changed, seed, from, 1, 0)
    ensures Complete(b, s, st, sz - 1, changed, seed, from, st[sz - 1], st[sz - 1])
  {
    assert st[..sz] == st[..sz - 1] + [st[sz - 1]];
  }

  /** One iteration of the outer loop, after the pop: above, below, left walk, right walk. */
  method Scan(w: nat, h: nat, buffer: array<Byte>, stack: array<int>, from: Byte, to: Byte, stackI: int, sz: int, area: int,
              ghost b0: seq<Byte>, ghost changed: set<int>, ghost seed: int)
    returns (sz': int, area': int, ghost changed': set<int>)
    requires Grid(w, h, b0, seed, from, to) && GridSize(w, h) <= stack.Length
    requires Invariant(w, h, b0, buffer[..], stack[..], sz, area, changed, seed, from, to)
    requires (stackI in changed || stackI == seed) && Interior(w, h, stackI)
    requires Complete(buffer[..], w + 2, stack[..], sz, changed, seed, from, stackI, stackI)
    modifies buffer, stack
    ensures Invariant(w, h, b0, buffer[..], stack[..], sz', area', changed', seed, from, to)
    ensures Complete(buffer[..], w + 2, stack[..], sz', changed', seed, from, 1, 0)
    ensures changed <= changed' && area <= area' && (area' == area ==> sz' == sz)
  {
    Neighbours(w, h, stackI);
    sz', area', changed' := VisitVertical(w, h, buffer, stack, from, to, stackI, sz, area, b0, changed, seed, stackI, stackI);
    sz', area', changed' := LeftWalk(w, h, buffer, stack, from, to, stackI, sz', area', b0, changed', seed);
    sz', area', changed' := RightWalk(w, h, buffer, stack, from, to, stackI, sz', area', b0, changed', seed);
  }

  /**
   * `floodFill(w, h, buffer, bufferStride, from, to, stack)`: the cells
   * rewritten are exactly `changed`, each was `from` and is `to`; the result
   * is 1 (the seed) plus their number; and no filled cell keeps a `from`
   * 4-neighbour. Diagonal neighbours are not followed.
   */
  method Fill(w: nat, h: nat, buffer: array<Byte>, bufferStride: int, from: Byte, to: Byte, stack: array<int>)
    returns (area: int, ghost changed: set<int>)
    requires bufferStride == w + 2 && GridSize(w, h) <= buffer.Length && GridSize(w, h) <= stack.Length
    requires 0 < stack.Length && 0 <= stack[0] < buffer.Length && Interior(w, h, stack[0]) && buffer[stack[0]] == to
    requires from != to
    requires forall c :: 0 <= c < GridSize(w, h) && !Interior(w, h, c) ==> buffer[c] != from
    modifies buffer, stack
    ensures forall c :: 0 <= c < buffer.Length ==>
      (c in changed <==> old(buffer[c]) == from && buffer[c] == to) && (c !in changed ==> buffer[c] == old(buffer[c]))
    ensures forall c :: c in changed ==> Interior(w, h, c)
    ensures area == 1 + |changed| && area <= GridSize(w, h)
    ensures forall c :: c in changed || c == old(stack[0]) ==> Closed(buffer[..], bufferStride, c, from)
  {
    ghost var b0 := buffer[..];
    ghost var seed := stack[0];
    var stackSize := 1;
    area := 1;
    changed := {};
    assert Grid(w, h, b0, seed, from, to);
    assert Invariant(w, h, b0, buffer[..], stack[..], stackSize, area, changed, seed, from, to);
    while stackSize > 0
      invariant Invariant(w, h, b0, buffer[..], stack[..], stackSize, area, changed, seed, from, to)
      invariant Complete(buffer[..], bufferStride, stack[..], stackSize, changed, seed, from, 1, 0)
      decreases GridSize(w, h) + 1 - area, stackSize
    {
      FilledCount(w, h, b0, buffer[..], changed, seed, from, to);
      Pop(buffer[..], bufferStride, stack[..], stackSize, changed, seed, from);
      stackSize := stackSize - 1;
      var stackI := stack[stackSize];
      stackSize, area, changed := Scan(w, h, buffer, stack, from, to, stackI, stackSize, area, b0, changed, seed);
    }
    FilledCount(w, h, b0, buffer[..], changed, seed, from, to);
  }
}
