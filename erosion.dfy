/**
 * `erase1` of lib/imageProcessing.c:443-460: starting from one set cell,
 * clear it and every set neighbour that is one pixel thin (no set cell on
 * both sides horizontally, or none on both sides vertically), until no such
 * neighbour is left.
 *
 * The C stack is a fixed array of `maxStackSize` cells; a cell can be pushed
 * more than once before it is cleared, so the model keeps the stack as an
 * unbounded sequence.
 */
module Erosion {
  import opened ImageGrid

  /** `cwNeighborOffsets4`: the cells above, right of, below and left of a cell. */
  function Offset4(w: nat, n: int): int {
    if n == 0 then -(w + 2) else if n == 1 then 1 else if n == 2 then w + 2 else -1
  }

  /** The test of lines 454-456: `j` is set and is one pixel thin. */
  predicate Thin(b: seq<Byte>, w: nat, j: int) {
    && w + 2 <= j < |b| - (w + 2) && b[j] != 0
    && ((b[j - 1] == 0 && b[j + 1] == 0) || (b[j - (w + 2)] == 0 && b[j + (w + 2)] == 0))
  }

  /** The four neighbours of `c` hold what they held in `b0`. */
  predicate Untouched(b0: seq<Byte>, b: seq<Byte>, w: nat, c: int) {
    && |b0| == |b| && w + 2 <= c < |b| - (w + 2)
    && b[c - 1] == b0[c - 1] && b[c + 1] == b0[c + 1]
    && b[c - (w + 2)] == b0[c - (w + 2)] && b[c + (w + 2)] == b0[c + (w + 2)]
  }

  /** `b` is `b0` with some cells cleared and nothing else changed. */
  predicate Cleared(b0: seq<Byte>, b: seq<Byte>) {
    |b| == |b0| && forall k :: 0 <= k < |b| ==> b[k] == b0[k] || b[k] == 0
  }

  /** The neighbours 0..n-1 of `i` that `erase1` pushes, in the order it pushes them. */
  function ThinNeighbours(b: seq<Byte>, w: nat, i: int, n: int): (r: seq<int>)
    requires 0 <= n <= 4
    ensures forall k :: 0 <= k < |r| ==> Thin(b, w, r[k])
    ensures forall k :: 0 <= k < |r| ==> Adjacent(w, i, r[k])
    ensures forall m :: 0 <= m < n && Thin(b, w, i + Offset4(w, m)) ==> i + Offset4(w, m) in r
  {
    if n == 0 then []
    else
      var j := i + Offset4(w, n - 1);
      ThinNeighbours(b, w, i, n - 1) + (if Thin(b, w, j) then [j] else [])
  }

  /** The number of set cells. */
  function SetCount(b: seq<Byte>): nat {
    if b == [] then 0 else SetCount(b[..|b| - 1]) + (if b[|b| - 1] != 0 then 1 else 0)
  }

  /** The number of stack entries whose cell is already clear. */
  function ClearEntries(b: seq<Byte>, st: seq<int>): nat {
    if st == [] then 0
    else ClearEntries(b, st[..|st| - 1]) + (if 0 <= st[|st| - 1] < |b| && b[st[|st| - 1]] == 0 then 1 else 0)
  }

  /** Clearing a set cell lowers the count of set cells by one. */
  lemma {:induction false} SetCountClear(b: seq<Byte>, i: int)
    requires 0 <= i < |b| && b[i] != 0
    ensures SetCount(b[i := 0]) == SetCount(b) - 1
    decreases |b|
  {
    var b' := b[i := 0];
    if i < |b| - 1 {
      assert b'[..|b| - 1] == b[..|b| - 1][i := 0];
      SetCountClear(b[..|b| - 1], i);
    } else {
      assert b'[..|b| - 1] == b[..|b| - 1];
    }
  }

  /** Pushing set cells adds no clear entry. */
  lemma {:induction false} ClearEntriesPush(b: seq<Byte>, st: seq<int>, pushed: seq<int>)
    requires forall k :: 0 <= k < |pushed| ==> 0 <= pushed[k] < |b| && b[pushed[k]] != 0
    ensures ClearEntries(b, st + pushed) == ClearEntries(b, st)
    decreases |pushed|
  {
    if pushed != [] {
      var last := |pushed| - 1;
      assert (st + pushed)[..|st + pushed| - 1] == st + pushed[..last];
      assert (st + pushed)[|st + pushed| - 1] == pushed[last];
      ClearEntriesPush(b, st, pushed[..last]);
    } else {
      assert st + pushed == st;
    }
  }

  /** `b` with each of `cells` set to 0: the buffer after a run of `buffer[i] = 0`, in any order. */
  function ClearAll(b: seq<Byte>, cells: seq<int>): (r: seq<Byte>)
    ensures |r| == |b|
  {
    seq(|b|, k requires 0 <= k < |b| => if k in cells then 0 else b[k])
  }

  /** `c` is one of the four neighbours of `i`. */
  predicate Adjacent(w: nat, i: int, c: int) {
    c == i - (w + 2) || c == i + 1 || c == i + (w + 2) || c == i - 1
  }

  /**
   * `c` was pushed while `order` was being cleared: it is a neighbour of some
   * `order[j]` and was thin right after `order[j]` was cleared.
   */
  ghost predicate Pushed(b0: seq<Byte>, w: nat, order: seq<int>, c: int) {
    exists j :: 0 <= j < |order| && Adjacent(w, order[j], c) && Thin(ClearAll(b0, order[..j + 1]), w, c)
  }

  /**
   * The cells `erase1` pops, in order, from the buffer `b0`: the first is
   * `initial`, and every later one was pushed as a thin neighbour of an
   * earlier one.
   */
  ghost predicate Chain(b0: seq<Byte>, w: nat, initial: int, order: seq<int>) {
    && |order| > 0 && order[0] == initial
    && forall k {:trigger order[k]} :: 1 <= k < |order| ==> Pushed(b0, w, order[..k], order[k])
  }

  /** The history the loop of lines 447-459 keeps: the buffer is `b0` with the popped cells cleared. */
  ghost predicate History(w: nat, initial: int, b0: seq<Byte>, b: seq<Byte>, st: seq<int>, order: seq<int>) {
    && b == ClearAll(b0, order)
    && (order == [] ==> st == [initial])
    && (order != [] ==> Chain(b0, w, initial, order) && forall t :: 0 <= t < |st| ==> Pushed(b0, w, order, st[t]))
  }

  /** A cell pushed during a run of clearings stays pushed when the run goes on. */
  lemma PushedExtend(b0: seq<Byte>, w: nat, order: seq<int>, x: int, c: int)
    requires Pushed(b0, w, order, c)
    ensures Pushed(b0, w, order + [x], c)
  {
    var j :| 0 <= j < |order| && Adjacent(w, order[j], c) && Thin(ClearAll(b0, order[..j + 1]), w, c);
    assert (order + [x])[..j + 1] == order[..j + 1];
    assert (order + [x])[j] == order[j];
  }

  /** Popping a pushed cell extends the chain by it. */
  lemma ChainSnoc(b0: seq<Byte>, w: nat, initial: int, order: seq<int>, i: int)
    requires Chain(b0, w, initial, order) && Pushed(b0, w, order, i)
    ensures Chain(b0, w, initial, order + [i])
  {
    var o := order + [i];
    forall k | 1 <= k < |o| ensures Pushed(b0, w, o[..k], o[k]) {
      if k < |order| {
        assert o[..k] == order[..k];
      } else {
        assert o[..k] == order;
      }
    }
  }

  /** One iteration keeps the history, with the popped cell appended to it. */
  lemma HistoryStep(w: nat, initial: int, b0: seq<Byte>, b: seq<Byte>, st: seq<int>, order: seq<int>)
    requires History(w, initial, b0, b, st, order) && st != [] && 0 <= st[|st| - 1] < |b|
    ensures var i := st[|st| - 1]; var b' := b[i := 0];
      History(w, initial, b0, b', st[..|st| - 1] + ThinNeighbours(b', w, i, 4), order + [i])
  {
    var i := st[|st| - 1];
    var b' := b[i := 0];
    var o := order + [i];
    var pushed := ThinNeighbours(b', w, i, 4);
    var st' := st[..|st| - 1] + pushed;
    ClearAllSnoc(b0, order, i);
    if order == [] {
      assert o == [initial];
    } else {
      ChainSnoc(b0, w, initial, order, i);
    }
    forall t | 0 <= t < |st'| ensures Pushed(b0, w, o, st'[t]) {
      if t < |st| - 1 {
        assert st'[t] == st[t];
        PushedExtend(b0, w, order, i, st[t]);
      } else {
        assert st'[t] == pushed[t - (|st| - 1)];
        PushedLast(b0, w, o, st'[t]);
      }
    }
  }

  /** Clearing one more cell of the grid. */
  lemma ClearAllSnoc(b0: seq<Byte>, order: seq<int>, i: int)
    requires 0 <= i < |b0|
    ensures ClearAll(b0, order + [i]) == ClearAll(b0, order)[i := 0]
  {
    forall k | 0 <= k < |b0| ensures ClearAll(b0, order + [i])[k] == ClearAll(b0, order)[i := 0][k] {
      assert k in order + [i] <==> k in order || k == i;
    }
  }

  /** A neighbour thin right after the last cell was cleared is pushed. */
  lemma PushedLast(b0: seq<Byte>, w: nat, o: seq<int>, c: int)
    requires o != [] && Adjacent(w, o[|o| - 1], c) && Thin(ClearAll(b0, o), w, c)
    ensures Pushed(b0, w, o, c)
  {
    assert o[..|o|] == o;
  }

  /**
   * `order[k]` was cleared for a reason the erase pass has: it was thin
   * when its `erase1` call began, or it was pushed by an earlier cell.
   */
  ghost predicate Justified(b0: seq<Byte>, w: nat, order: seq<int>, k: int)
    requires 0 <= k < |order|
  {
    Thin(ClearAll(b0, order[..k]), w, order[k]) || Pushed(b0, w, order[..k], order[k])
  }

  ghost predicate JustifiedAll(b0: seq<Byte>, w: nat, order: seq<int>) {
    forall k :: 0 <= k < |order| ==> Justified(b0, w, order, k)
  }

  /** Clearing one run and then another is clearing both. */
  lemma ClearAllAppend(b: seq<Byte>, a: seq<int>, c: seq<int>)
    ensures ClearAll(b, a + c) == ClearAll(ClearAll(b, a), c)
  {
    forall k | 0 <= k < |b| ensures ClearAll(b, a + c)[k] == ClearAll(ClearAll(b, a), c)[k] {
      assert k in a + c <==> k in a || k in c;
    }
  }

  /** The prefixes of `a + c` that end inside `c`. */
  lemma Slices(a: seq<int>, c: seq<int>, k: int)
    requires 0 <= k < |c|
    ensures (a + c)[..|a| + k] == a + c[..k] && (a + c)[..|a| + k + 1] == a + c[..k + 1]
    ensures (a + c)[|a| + k] == c[k]
  {
    assert (a + c)[..|a| + k] == a + c[..k];
    assert (a + c)[..|a| + k + 1] == a + c[..k + 1];
  }

  /** A cell pushed while clearing `s` after `a` is pushed while clearing `a + s`. */
  lemma PushedShift(b: seq<Byte>, w: nat, a: seq<int>, s: seq<int>, c: int)
    requires Pushed(ClearAll(b, a), w, s, c)
    ensures Pushed(b, w, a + s, c)
  {
    var j :| 0 <= j < |s| && Adjacent(w, s[j], c) && Thin(ClearAll(ClearAll(b, a), s[..j + 1]), w, c);
    var k := |a| + j;
    Slices(a, s, j);
    ClearAllAppend(b, a, s[..j + 1]);
    assert ClearAll(b, (a + s)[..k + 1]) == ClearAll(ClearAll(b, a), s[..j + 1]);
    assert Adjacent(w, (a + s)[k], c);
  }

  /** A chain started from a thin cell is justified. */
  lemma ChainJustified(b0: seq<Byte>, w: nat, initial: int, order: seq<int>)
    requires Chain(b0, w, initial, order) && Thin(b0, w, initial)
    ensures JustifiedAll(b0, w, order)
  {
    assert order[..0] == [];
    forall k | 0 <= k < |order| ensures Justified(b0, w, order, k) {
      if k == 0 {
        assert ClearAll(b0, order[..0]) == b0;
      } else {
        assert Pushed(b0, w, order[..k], order[k]);
      }
    }
  }

  /** An entry of the first run keeps its reason when a second run follows. */
  lemma JustifiedKeep(b: seq<Byte>, w: nat, a: seq<int>, c: seq<int>, k: int)
    requires 0 <= k < |a| && Justified(b, w, a, k)
    ensures Justified(b, w, a + c, k)
  {
    assert (a + c)[..k] == a[..k];
    assert (a + c)[k] == a[k];
  }

  /** An entry of the second run, justified from where the first left the buffer, is justified in both. */
  lemma JustifiedShift(b: seq<Byte>, w: nat, a: seq<int>, c: seq<int>, k: int)
    requires 0 <= k < |c| && Justified(ClearAll(b, a), w, c, k)
    ensures Justified(b, w, a + c, |a| + k)
  {
    Slices(a, c, k);
    ClearAllAppend(b, a, c[..k]);
    assert ClearAll(b, (a + c)[..|a| + k]) == ClearAll(ClearAll(b, a), c[..k]);
    if !Thin(ClearAll(ClearAll(b, a), c[..k]), w, c[k]) {
      PushedShift(b, w, a, c[..k], c[k]);
    }
  }

  /** Two justified runs, the second from where the first left the buffer, make one. */
  lemma JustifiedAppend(b: seq<Byte>, w: nat, a: seq<int>, c: seq<int>)
    requires JustifiedAll(b, w, a) && JustifiedAll(ClearAll(b, a), w, c)
    ensures JustifiedAll(b, w, a + c) && ClearAll(b, a + c) == ClearAll(ClearAll(b, a), c)
  {
    ClearAllAppend(b, a, c);
    forall k | 0 <= k < |a + c| ensures Justified(b, w, a + c, k) {
      if k < |a| {
        JustifiedKeep(b, w, a, c, k);
      } else {
        JustifiedShift(b, w, a, c, k - |a|);
      }
    }
  }

  /** What holds each time the loop of lines 447-459 tests `stackSize > 0`. */
  ghost predicate Invariant(w: nat, h: nat, initial: int, b0: seq<Byte>, b: seq<Byte>, st: seq<int>) {
    && BorderClear(w, h, b) && Cleared(b0, b) && Interior(w, h, initial)
    && (forall k :: 0 <= k < |st| ==> Interior(w, h, st[k]))
    && (b[initial] == 0 || initial in st)
    && (forall c :: Thin(b, w, c) ==> c in st || Untouched(b0, b, w, c))
  }

  /** A neighbour of an interior cell is a cell of the grid, and a set one has its own neighbours in the grid. */
  lemma NeighbourInGrid(w: nat, h: nat, b: seq<Byte>, i: int, n: int)
    requires BorderClear(w, h, b) && Interior(w, h, i) && 0 <= n < 4
    ensures 0 <= i + Offset4(w, n) < GridSize(w, h)
    ensures b[i + Offset4(w, n)] != 0 ==>
      Interior(w, h, i + Offset4(w, n)) && w + 2 <= i + Offset4(w, n) < GridSize(w, h) - (w + 2)
  {
    Neighbours(w, h, i);
    var j := i + Offset4(w, n);
    if b[j] != 0 {
      SetIsInterior(w, h, b, j);
      Neighbours(w, h, j);
    }
  }

  /** Clearing an interior cell keeps the border clear. */
  lemma ClearKeepsBorder(w: nat, h: nat, b: seq<Byte>, i: int)
    requires BorderClear(w, h, b) && Interior(w, h, i) && i < |b|
    ensures BorderClear(w, h, b[i := 0])
  {
  }

  /** `c` is none of `i`'s four neighbours and not `i` itself, so clearing `i` leaves `c` as thin as it was. */
  lemma ThinFar(w: nat, b: seq<Byte>, b0: seq<Byte>, i: int, c: int)
    requires 0 <= i < |b| && c != i && !Adjacent(w, i, c)
    ensures Thin(b[i := 0], w, c) == Thin(b, w, c)
    ensures Untouched(b0, b, w, c) ==> Untouched(b0, b[i := 0], w, c)
  {
  }

  /** One iteration: pop `i`, clear it, push its thin neighbours. */
  lemma Step(w: nat, h: nat, initial: int, b0: seq<Byte>, b: seq<Byte>, st: seq<int>)
    requires Invariant(w, h, initial, b0, b, st) && st != []
    ensures var i := st[|st| - 1];
      Interior(w, h, i) && i < |b| &&
      Invariant(w, h, initial, b0, b[i := 0], st[..|st| - 1] + ThinNeighbours(b[i := 0], w, i, 4))
  {
    var i := st[|st| - 1];
    Neighbours(w, h, i);
    Neighbours(w, h, initial);
    var b' := b[i := 0];
    var pushed := ThinNeighbours(b', w, i, 4);
    ClearKeepsBorder(w, h, b, i);
    StepEntries(w, h, b', st, pushed, st[..|st| - 1] + pushed);
    if initial != i && b[initial] != 0 {
      StillStacked(st, pushed, initial);
    }
    StepPending(w, b0, b, st);
  }

  /** The pushed cells are interior ones, as the remaining entries are. */
  lemma StepEntries(w: nat, h: nat, b': seq<Byte>, st: seq<int>, pushed: seq<int>, st': seq<int>)
    requires st != [] && BorderClear(w, h, b') && Interior(w, h, st[|st| - 1])
    requires forall k :: 0 <= k < |st| ==> Interior(w, h, st[k])
    requires pushed == ThinNeighbours(b', w, st[|st| - 1], 4) && st' == st[..|st| - 1] + pushed
    ensures forall k :: 0 <= k < |st'| ==> Interior(w, h, st'[k])
  {
    var rest := st[..|st| - 1];
    PushedInterior(w, h, b', st[|st| - 1]);
    forall k | 0 <= k < |st'| ensures Interior(w, h, st'[k]) {
      if k < |rest| {
        assert st'[k] == st[k];
      } else {
        assert st'[k] == pushed[k - |rest|];
      }
    }
  }

  /** The thin neighbours of an interior cell are interior cells. */
  lemma PushedInterior(w: nat, h: nat, b: seq<Byte>, i: int)
    requires BorderClear(w, h, b) && Interior(w, h, i)
    ensures forall k :: 0 <= k < |ThinNeighbours(b, w, i, 4)| ==> Interior(w, h, ThinNeighbours(b, w, i, 4)[k])
  {
    NeighbourInGrid(w, h, b, i, 0);
    NeighbourInGrid(w, h, b, i, 1);
    NeighbourInGrid(w, h, b, i, 2);
    NeighbourInGrid(w, h, b, i, 3);
  }

  /** A cell thin after the iteration was pushed, is still stacked, or keeps its neighbours. */
  lemma StepPending(w: nat, b0: seq<Byte>, b: seq<Byte>, st: seq<int>)
    requires st != [] && 0 <= st[|st| - 1] < |b|
    requires forall c :: Thin(b, w, c) ==> c in st || Untouched(b0, b, w, c)
    ensures var i := st[|st| - 1]; var b' := b[i := 0];
      forall c :: Thin(b', w, c) ==> c in st[..|st| - 1] + ThinNeighbours(b', w, i, 4) || Untouched(b0, b', w, c)
  {
    var i := st[|st| - 1];
    var b' := b[i := 0];
    var pushed := ThinNeighbours(b', w, i, 4);
    forall c | Thin(b', w, c) ensures c in st[..|st| - 1] + pushed || Untouched(b0, b', w, c) {
      if Adjacent(w, i, c) {
        assert c == i + Offset4(w, 0) || c == i + Offset4(w, 1) || c == i + Offset4(w, 2) || c == i + Offset4(w, 3);
        assert c in pushed;
      } else {
        ThinFar(w, b, b0, i, c);
        if c in st {
          StillStacked(st, pushed, c);
        }
      }
    }
  }

  /** An entry below the top of the stack is still there after the pop and the pushes. */
  lemma StillStacked(st: seq<int>, pushed: seq<int>, x: int)
    requires x in st && x != st[|st| - 1]
    ensures x in st[..|st| - 1] + pushed
  {
    var k :| 0 <= k < |st| && st[k] == x;
    assert (st[..|st| - 1] + pushed)[k] == x;
  }

  /** One iteration lowers the set cells, or keeps them and lowers the clear entries. */
  lemma StepDecreases(w: nat, b: seq<Byte>, st: seq<int>)
    requires st != [] && 0 <= st[|st| - 1] < |b|
    ensures var i := st[|st| - 1]; var b' := b[i := 0];
      var st' := st[..|st| - 1] + ThinNeighbours(b', w, i, 4);
      SetCount(b') < SetCount(b) || (SetCount(b') == SetCount(b) && ClearEntries(b', st') < ClearEntries(b, st))
  {
    var i := st[|st| - 1];
    var b' := b[i := 0];
    var pushed := ThinNeighbours(b', w, i, 4);
    if b[i] != 0 {
      SetCountClear(b, i);
    } else {
      assert b' == b;
      ClearEntriesPush(b', st[..|st| - 1], pushed);
    }
  }

  /**
   * Lines 452-458 for the cell `i` just cleared: push each neighbour, in
   * clockwise order from the top, that is set and one pixel thin.
   */
  method PushThinNeighbours(w: nat, h: nat, buffer: array<Byte>, i: int, stack: seq<int>) returns (stack': seq<int>)
    requires BorderClear(w, h, buffer[..]) && Interior(w, h, i)
    ensures stack' == stack + ThinNeighbours(buffer[..], w, i, 4)
  {
    ghost var b := buffer[..];
    stack' := stack;
    for n := 0 to 4
      invariant stack' == stack + ThinNeighbours(b, w, i, n)
    {
      NeighbourInGrid(w, h, b, i, n);
      var j := i + Offset4(w, n);
      ghost var pushed := stack';
      var thin := buffer[j] != 0 &&
        ((buffer[j - 1] == 0 && buffer[j + 1] == 0) || (buffer[j - (w + 2)] == 0 && buffer[j + (w + 2)] == 0));
      assert thin == Thin(b, w, j);
      if thin {
        stack' := stack' + [j];
      }
      PushStep(b, w, i, n, stack, pushed, stack');
    }
  }

  /** Neighbour `n` extends the pushed cells exactly when it is thin. */
  lemma PushStep(b: seq<Byte>, w: nat, i: int, n: int, stack: seq<int>, pushed: seq<int>, pushed': seq<int>)
    requires 0 <= n < 4 && pushed == stack + ThinNeighbours(b, w, i, n)
    requires pushed' == if Thin(b, w, i + Offset4(w, n)) then pushed + [i + Offset4(w, n)] else pushed
    ensures pushed' == stack + ThinNeighbours(b, w, i, n + 1)
  {
  }

  /**
   * `erase1(initialI, ...)`: clears `initial` and, transitively, every thin
   * neighbour of a cleared cell. Only cells are cleared, and afterwards no
   * thin cell has a neighbour this call cleared. `order` is the sequence of
   * popped cells: the buffer is the old one with exactly those cleared, and
   * each after the first was thin, next to an earlier one, when it was pushed.
   */
  method Erase1(w: nat, h: nat, buffer: array<Byte>, initial: int) returns (ghost order: seq<int>)
    requires BorderClear(w, h, buffer[..]) && Interior(w, h, initial)
    modifies buffer
    ensures BorderClear(w, h, buffer[..]) && Cleared(old(buffer[..]), buffer[..])
    ensures buffer[initial] == 0
    ensures forall c :: Thin(buffer[..], w, c) ==> Untouched(old(buffer[..]), buffer[..], w, c)
    ensures Chain(old(buffer[..]), w, initial, order) && buffer[..] == ClearAll(old(buffer[..]), order)
  {
    ghost var b0 := buffer[..];
    Neighbours(w, h, initial);
    var stack := [initial];
    order := [];
    while |stack| > 0
      invariant 0 <= initial < buffer.Length
      invariant Invariant(w, h, initial, b0, buffer[..], stack)
      invariant History(w, initial, b0, buffer[..], stack, order)
      decreases SetCount(buffer[..]), ClearEntries(buffer[..], stack)
    {
      ghost var b := buffer[..];
      ghost var st := stack;
      Step(w, h, initial, b0, b, st);
      StepDecreases(w, b, st);
      HistoryStep(w, initial, b0, b, st, order);
      var i := stack[|stack| - 1];
      stack := stack[..|stack| - 1];
      buffer[i] := 0;
      assert buffer[..] == b[i := 0];
      order := order + [i];
      stack := PushThinNeighbours(w, h, buffer, i, stack);
    }
    Finished(w, h, initial, b0, buffer[..]);
    HistoryFinished(w, initial, b0, buffer[..], order);
  }

  /** With the stack empty, something was popped, so the history is a chain. */
  lemma HistoryFinished(w: nat, initial: int, b0: seq<Byte>, b: seq<Byte>, order: seq<int>)
    requires History(w, initial, b0, b, [], order)
    ensures Chain(b0, w, initial, order) && b == ClearAll(b0, order)
  {
  }

  /** With the stack empty, the invariant is the contract of `Erase1`. */
  lemma Finished(w: nat, h: nat, initial: int, b0: seq<Byte>, b: seq<Byte>)
    requires Invariant(w, h, initial, b0, b, [])
    ensures BorderClear(w, h, b) && Cleared(b0, b)
    ensures b[initial] == 0
    ensures forall c :: Thin(b, w, c) ==> Untouched(b0, b, w, c)
  {
  }
}
