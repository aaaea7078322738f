/**
 * The bookkeeping of the level editor (scripts/view/editorView.ts): the
 * icon shown for each object of the level, kept in a list parallel to the
 * level's objects, the number of balls among them, the tool in use, the
 * order `mouseUp` puts the objects in, and the developer key sequence.
 *
 * An icon is an `ObjectImage`: a span showing a sprite of the UI sheet and
 * the object it stands for. Canvas drawing, element positions and styles,
 * the clock, `confirm` and whether a view is loading or a modal is shown
 * are not modelled, or become parameters.
 */
module EditorViews {
  import opened Wrappers
  import opened Constants
  import opened LevelObjects
  import opened Sequences
  import Levels
  import UiSprites

  /** The tools (lines 32-38). */
  const ToolPencil: int := 0
  const ToolEraser: int := 1
  const ToolBall: int := 2
  const ToolGoal: int := 3
  const ToolBomb: int := 4
  const ToolCucumber: int := 5
  const ToolDeleteObject: int := 6

  /** `LevelObject.ImagesByType` (scripts/level/levelObject.ts, line 47): the icon of each type. */
  const ImagesByType: seq<nat> := [UiSprites.Ball, UiSprites.Goal, UiSprites.Bomb, UiSprites.Cucumber]

  /** `radiusSq` (line 551): a click picks an object no more than one icon size away. */
  const RadiusSquared: int := IconSize * IconSize

  /** The milliseconds the developer key sequence must be typed in (lines 912 and 915). */
  const KeyTimeout: int := 2000

  /** The tools that place objects (lines 454 and 692). */
  predicate IsObjectTool(t: int) {
    ToolBall <= t <= ToolCucumber
  }

  /** The object type an object tool places (line 693). */
  function ObjectTypeOfTool(t: int): (k: int)
    requires IsObjectTool(t)
    ensures 0 <= k < TypeCount
  {
    TypeBall + t - ToolBall
  }

  /** The object tool of a type, the toolbar's order of the object buttons. */
  function ToolOfType(k: int): (t: int)
    requires 0 <= k < TypeCount
    ensures IsObjectTool(t)
  {
    ToolBall + k
  }

  /** The two maps are inverse, and each object tool places the object it is named after. */
  lemma ToolTypeRoundTrip(t: int, k: int)
    ensures IsObjectTool(t) ==> ToolOfType(ObjectTypeOfTool(t)) == t
    ensures 0 <= k < TypeCount ==> ObjectTypeOfTool(ToolOfType(k)) == k
    ensures ObjectTypeOfTool(ToolBall) == TypeBall && ObjectTypeOfTool(ToolGoal) == TypeGoal
    ensures ObjectTypeOfTool(ToolBomb) == TypeBomb && ObjectTypeOfTool(ToolCucumber) == TypeCucumber
  {
  }

  /** The icon of an object: the sheet's sprite of its type and the object itself (`objectImage.object`). */
  class ObjectImage {
    const sprite: nat
    const levelObject: LevelObject

    /** `UISpriteSheet.create(LevelObject.ImagesByType[object.type])` with the object attached (lines 582 and 588). */
    constructor(o: LevelObject)
      requires 0 <= o.kind < TypeCount
      ensures levelObject == o && sprite == ImagesByType[o.kind]
    {
      levelObject := o;
      sprite := ImagesByType[o.kind];
    }
  }

  /** The objects the icons stand for, in order. */
  function ObjectsOf(s: seq<ObjectImage>): (r: seq<LevelObject>)
    ensures |r| == |s| && forall k :: 0 <= k < |s| ==> r[k] == s[k].levelObject
  {
    seq(|s|, k requires 0 <= k < |s| => s[k].levelObject)
  }

  predicate IsBall(image: ObjectImage) {
    image.levelObject.kind == TypeBall
  }

  /** The number of icons that stand for a ball. */
  function Balls(s: seq<ObjectImage>): (n: nat)
    ensures n <= |s|
  {
    if |s| == 0 then 0 else (if IsBall(s[0]) then 1 else 0) + Balls(s[1..])
  }

  /** Counting the balls of two lists one after the other. */
  lemma {:induction false} BallsAppend(a: seq<ObjectImage>, b: seq<ObjectImage>)
    ensures Balls(a + b) == Balls(a) + Balls(b)
  {
    if |a| == 0 {
      assert a + b == b;
    } else {
      BallsAppend(a[1..], b);
      assert (a + b)[1..] == a[1..] + b;
    }
  }

  /** Taking one icon out takes its ball, if it is one, out of the count. */
  lemma {:induction false} BallsWithout(s: seq<ObjectImage>, i: nat)
    requires i < |s|
    ensures Balls(Without(s, i)) == Balls(s) - (if IsBall(s[i]) then 1 else 0)
  {
    var w := Without(s, i);
    if i == 0 {
      assert w == s[1..];
    } else {
      var v := Without(s[1..], i - 1);
      BallsWithout(s[1..], i - 1);
      assert w == [s[0]] + v && w[1..] == v;
    }
  }

  /** Splicing the same position out of parallel lists keeps them parallel. */
  lemma SpliceParallel(images: seq<ObjectImage>, objects: seq<LevelObject>, i: nat)
    requires objects == ObjectsOf(images) && i < |images|
    ensures ObjectsOf(Without(images, i)) == Without(objects, i)
    ensures Balls(Without(images, i)) == Balls(images) - (if IsBall(images[i]) then 1 else 0)
  {
    BallsWithout(images, i);
  }

  /** Every object has one of the four types, as the constructor of a level object ensures. */
  predicate TypesValid(objects: seq<LevelObject>) {
    forall k :: 0 <= k < |objects| ==> 0 <= objects[k].kind < TypeCount
  }

  /** Object `o` is picked by a click at (x, y) looking for type `kind`, any type when it is negative (lines 555-565). */
  predicate Near(o: LevelObject, kind: int, x: int, y: int)
    reads o
  {
    (kind < 0 || o.kind == kind) && RadiusSquared >= (x - o.x) * (x - o.x) + (y - o.y) * (y - o.y)
  }

  /**
   * The index of the first object from position `from` on that a click at
   * (x, y) picks, looking for type `kind`, or -1 when none does: where the
   * loop of `findObjectWithinRadius` stops.
   */
  function FirstNear(objects: seq<LevelObject>, kind: int, x: int, y: int, from: nat): (i: int)
    reads objects
    decreases |objects| - from
    ensures i == -1 || from <= i < |objects|
    ensures i == -1 <==> forall k :: from <= k < |objects| ==> !Near(objects[k], kind, x, y)
    ensures i >= 0 ==> Near(objects[i], kind, x, y) && forall k :: from <= k < i ==> !Near(objects[k], kind, x, y)
  {
    if from >= |objects| then -1
    else if Near(objects[from], kind, x, y) then from
    else FirstNear(objects, kind, x, y, from + 1)
  }

  /** An icon with the key `mouseUp` sorts by: the type and the y coordinate of its object when sorting starts. */
  datatype Entry = Entry(kind: int, y: int, image: ObjectImage)

  /** The comparator of line 401: by type, then by y the other way round; negative when a goes first. */
  function Compare(a: Entry, b: Entry): (c: int)
    ensures c < 0 <==> a.kind < b.kind || (a.kind == b.kind && a.y > b.y)
    ensures c == 0 <==> a.kind == b.kind && a.y == b.y
    ensures c > 0 <==> b.kind < a.kind || (a.kind == b.kind && b.y > a.y)
  {
    if a.kind - b.kind != 0 then a.kind - b.kind else b.y - a.y
  }

  lemma CompareTransitive(a: Entry, b: Entry, c: Entry)
    requires Compare(a, b) <= 0 && Compare(b, c) <= 0
    ensures Compare(a, c) <= 0
  {
  }

  /** No entry goes before one earlier in the list: balls first, then goals, bombs and cucumbers, each kind from the bottom up. */
  predicate Sorted(s: seq<Entry>) {
    forall i, j :: 0 <= i < j < |s| ==> Compare(s[i], s[j]) <= 0
  }

  /** `x` inserted before the first element it goes before. */
  function Insert(x: Entry, s: seq<Entry>): (r: seq<Entry>)
    ensures |r| == |s| + 1
  {
    if |s| == 0 then [x]
    else if Compare(x, s[0]) < 0 then [x] + s
    else [s[0]] + Insert(x, s[1..])
  }

  /** Inserting adds exactly `x`. */
  lemma {:induction false} InsertPermutes(x: Entry, s: seq<Entry>)
    ensures multiset(Insert(x, s)) == multiset(s) + multiset{x}
  {
    if |s| > 0 && Compare(x, s[0]) >= 0 {
      InsertPermutes(x, s[1..]);
      assert s == [s[0]] + s[1..];
    }
  }

  /** Inserting into a sorted list keeps it sorted. */
  lemma {:induction false} InsertSorted(x: Entry, s: seq<Entry>)
    requires Sorted(s)
    ensures Sorted(Insert(x, s))
  {
    if |s| == 0 {
    } else if Compare(x, s[0]) < 0 {
      InsertFront(x, s);
    } else {
      var tail := s[1..];
      SortedTail(s);
      InsertSorted(x, tail);
      InsertBounded(s[0], x, tail);
      assert Insert(x, s) == [s[0]] + Insert(x, tail);
    }
  }

  /** An entry that goes before the head of a sorted list, and so before all of it, can lead it. */
  lemma InsertFront(x: Entry, s: seq<Entry>)
    requires Sorted(s) && |s| > 0 && Compare(x, s[0]) < 0
    ensures Sorted([x] + s)
  {
    forall j | 0 <= j < |s| ensures Compare(x, s[j]) <= 0 {
      if j > 0 {
        CompareTransitive(x, s[0], s[j]);
      }
    }
  }

  lemma SortedTail(s: seq<Entry>)
    requires Sorted(s) && |s| > 0
    ensures Sorted(s[1..])
  {
    forall i, j | 0 <= i < j < |s| - 1 ensures Compare(s[1..][i], s[1..][j]) <= 0 {
      assert s[1..][i] == s[i + 1] && s[1..][j] == s[j + 1];
    }
  }

  /** An entry no later than `x` and than every element of `s` is no later than any element of `Insert(x, s)`. */
  lemma InsertBounded(y: Entry, x: Entry, s: seq<Entry>)
    requires Compare(y, x) <= 0 && forall k :: 0 <= k < |s| ==> Compare(y, s[k]) <= 0
    ensures forall k :: 0 <= k < |s| + 1 ==> Compare(y, Insert(x, s)[k]) <= 0
  {
    var r := Insert(x, s);
    InsertPermutes(x, s);
    forall k | 0 <= k < |r| ensures Compare(y, r[k]) <= 0 {
      assert r[k] in multiset(r);
      if r[k] != x {
        assert r[k] in multiset(s);
        var m :| 0 <= m < |s| && s[m] == r[k];
      }
    }
  }

  /**
   * The entries in the comparator's order, by insertion: `Array.prototype.sort`
   * is stable, and an entry inserted from the end goes after every entry it
   * does not go before.
   */
  function Sort(s: seq<Entry>): (r: seq<Entry>)
    ensures |r| == |s|
  {
    if |s| == 0 then [] else Insert(s[|s| - 1], Sort(s[..|s| - 1]))
  }

  /** The result of `Sort` is sorted and holds the same entries. */
  lemma {:induction false} SortSpec(s: seq<Entry>)
    ensures Sorted(Sort(s)) && multiset(Sort(s)) == multiset(s)
  {
    if |s| > 0 {
      SortSpec(s[..|s| - 1]);
      InsertSorted(s[|s| - 1], Sort(s[..|s| - 1]));
      InsertPermutes(s[|s| - 1], Sort(s[..|s| - 1]));
      assert s == s[..|s| - 1] + [s[|s| - 1]];
    }
  }

  /** The icons of a list of entries. */
  function ImagesOf(s: seq<Entry>): (r: seq<ObjectImage>)
    ensures |r| == |s| && forall k :: 0 <= k < |s| ==> r[k] == s[k].image
  {
    seq(|s|, k requires 0 <= k < |s| => s[k].image)
  }

  /** Inserting an entry adds its icon, and its ball if it is one. */
  lemma {:induction false} InsertKeepsImages(x: Entry, s: seq<Entry>)
    ensures multiset(ImagesOf(Insert(x, s))) == multiset(ImagesOf(s)) + multiset{x.image}
    ensures Balls(ImagesOf(Insert(x, s))) == Balls(ImagesOf(s)) + (if IsBall(x.image) then 1 else 0)
  {
    if |s| == 0 {
      assert ImagesOf(Insert(x, s)) == [x.image];
    } else if Compare(x, s[0]) < 0 {
      assert ImagesOf(Insert(x, s)) == [x.image] + ImagesOf(s);
      BallsAppend([x.image], ImagesOf(s));
    } else {
      var inserted, tail := ImagesOf(Insert(x, s[1..])), ImagesOf(s[1..]);
      InsertKeepsImages(x, s[1..]);
      assert ImagesOf(Insert(x, s)) == [s[0].image] + inserted;
      assert ImagesOf(s) == [s[0].image] + tail;
      assert Balls(ImagesOf(Insert(x, s))) == Balls([s[0].image]) + Balls(inserted) by {
        BallsAppend([s[0].image], inserted);
      }
      assert Balls(ImagesOf(s)) == Balls([s[0].image]) + Balls(tail) by {
        BallsAppend([s[0].image], tail);
      }
    }
  }

  /** Sorting rearranges the icons: the same icons, and so the same number of balls. */
  lemma {:induction false} SortKeepsImages(s: seq<Entry>)
    ensures multiset(ImagesOf(Sort(s))) == multiset(ImagesOf(s))
    ensures Balls(ImagesOf(Sort(s))) == Balls(ImagesOf(s))
  {
    if |s| > 0 {
      var p, x := s[..|s| - 1], s[|s| - 1];
      var sorted, images := ImagesOf(Sort(s)), ImagesOf(s);
      assert sorted == ImagesOf(Insert(x, Sort(p)));
      assert images == ImagesOf(p) + [x.image];
      SortKeepsImages(p);
      InsertKeepsImages(x, Sort(p));
      assert multiset(sorted) == multiset(images);
      assert Balls(sorted) == Balls(images) by {
        BallsAppend(ImagesOf(p), [x.image]);
      }
    }
  }

  /** The icons and their keys as the heap holds them. */
  function Entries(s: seq<ObjectImage>): (r: seq<Entry>)
    reads set i | i in s :: i.levelObject
    ensures |r| == |s| && forall k :: 0 <= k < |s| ==> r[k] == Entry(s[k].levelObject.kind, s[k].levelObject.y, s[k])
  {
    if |s| == 0 then [] else [Entry(s[0].levelObject.kind, s[0].levelObject.y, s[0])] + Entries(s[1..])
  }

  /** The icons as `mouseUp` sorts them (lines 401-404). */
  function SortedImages(s: seq<ObjectImage>): (r: seq<ObjectImage>)
    reads set i | i in s :: i.levelObject
    ensures |r| == |s|
  {
    ImagesOf(Sort(Entries(s)))
  }

  /**
   * The sorted icons are the same icons, with the same number of balls, in
   * the comparator's order: by type, then from the largest y down.
   */
  lemma SortedImagesSpec(s: seq<ObjectImage>)
    ensures Sorted(Entries(SortedImages(s)))
    ensures multiset(SortedImages(s)) == multiset(s)
    ensures Balls(SortedImages(s)) == Balls(s)
  {
    var e := Entries(s);
    var t := Sort(e);
    var r := ImagesOf(t);
    SortSpec(e);
    SortKeepsImages(e);
    assert ImagesOf(e) == s;
    forall k | 0 <= k < |t| ensures t[k] == Entry(r[k].levelObject.kind, r[k].levelObject.y, r[k]) {
      assert t[k] in multiset(e);
      var m :| 0 <= m < |e| && e[m] == t[k];
    }
    assert Entries(r) == t;
  }

  /** Sorting keeps every object's type one of the four. */
  lemma SortedImagesTypes(s: seq<ObjectImage>)
    requires TypesValid(ObjectsOf(s))
    ensures TypesValid(ObjectsOf(SortedImages(s)))
  {
    var r := SortedImages(s);
    SortedImagesSpec(s);
    forall k | 0 <= k < |r| ensures 0 <= r[k].levelObject.kind < TypeCount {
      assert r[k] in multiset(s);
      var m :| 0 <= m < |s| && s[m] == r[k];
    }
  }

  /** What a keystroke leads to besides the counter (lines 915-924). */
  datatype DevAction = NoAction | DevDebug | DevSave

  /** The developer key sequence's state after a keystroke, and what it sets off. */
  datatype KeyUpResult = KeyUpResult(counter: int, time: int, action: DevAction)

  /**
   * `documentKeyUp` (lines 902-930) on the counter and the time of the last
   * "d": nothing while `blocked` (a view loading or a modal shown); "d"
   * starts the sequence; "b" within the timeout advances it and any other key
   * ends it; the key after that ends it too, and "g" (when `confirmed`) or
   * "s" within the timeout of the "d" starts the developer action.
   */
  function KeyUp(counter: int, time: int, key: string, now: int, blocked: bool, confirmed: bool): (r: KeyUpResult)
    ensures blocked ==> r == KeyUpResult(counter, time, NoAction)
    ensures !blocked && key == "d" ==> r == KeyUpResult(1, now, NoAction)
    ensures !blocked ==> r.counter == 0 || r.counter == 1 || r.counter == 2 || r.counter == counter
    ensures r.counter == 1 && !blocked ==> key == "d"
    ensures r.counter == 2 && !blocked ==> counter == 1 && key == "b" && now - time < KeyTimeout
    ensures r.action == DevDebug <==> !blocked && counter == 2 && key == "g" && now - time < KeyTimeout && confirmed
    ensures r.action == DevSave <==> !blocked && counter == 2 && key == "s" && now - time < KeyTimeout
    ensures !blocked && key != "d" && (counter == 1 || counter == 2) && r.counter != 2 ==> r.counter == 0
    ensures key != "d" ==> r.time == time
  {
    if blocked then KeyUpResult(counter, time, NoAction)
    else if key == "d" then KeyUpResult(1, now, NoAction)
    else if counter == 1 then KeyUpResult(if key == "b" && now - time < KeyTimeout then 2 else 0, time, NoAction)
    else if counter == 2 then
      var action := if now - time >= KeyTimeout then NoAction else if key == "g" && confirmed then DevDebug else if key == "s" then DevSave else NoAction;
      KeyUpResult(0, time, action)
    else KeyUpResult(counter, time, NoAction)
  }

  /** "d", "b" and "g" typed within the timeout of the "d" start the debug action once confirmed, from any state. */
  lemma DebugSequence(counter: int, time: int, t0: int, t1: int, t2: int, confirmed: bool)
    requires t1 - t0 < KeyTimeout && t2 - t0 < KeyTimeout
    ensures var r0 := KeyUp(counter, time, "d", t0, false, confirmed);
      var r1 := KeyUp(r0.counter, r0.time, "b", t1, false, confirmed);
      var r2 := KeyUp(r1.counter, r1.time, "g", t2, false, confirmed);
      r2.action == (if confirmed then DevDebug else NoAction) && r2.counter == 0
  {
  }

  /** "d", "b" and "s" typed within the timeout of the "d" start the save action, from any state. */
  lemma SaveSequence(counter: int, time: int, t0: int, t1: int, t2: int, confirmed: bool)
    requires t1 - t0 < KeyTimeout && t2 - t0 < KeyTimeout
    ensures var r0 := KeyUp(counter, time, "d", t0, false, confirmed);
      var r1 := KeyUp(r0.counter, r0.time, "b", t1, false, confirmed);
      var r2 := KeyUp(r1.counter, r1.time, "s", t2, false, confirmed);
      r2.action == DevSave && r2.counter == 0
  {
  }

  /** The editor's state that the modelled operations read and write. */
  class EditorView {
    /** The level being edited; null until `attach` loads it. */
    var level: Levels.Level?
    var tool: int
    var lastObjectType: int
    var levelBallCount: int
    /** `objectImages`: one icon per object of the level, in the same order. */
    var images: seq<ObjectImage>
    var objectImageDrag: Option<ObjectImage>
    var pointerCursorAttached: bool
    var dirty: bool
    var keyUpTime: int
    var keyUpCounter: int

    /** The initial values (lines 152-177). */
    constructor()
      ensures level == null && tool == ToolPencil && lastObjectType == TypeBall && levelBallCount == 0
      ensures images == [] && objectImageDrag == None && !pointerCursorAttached && !dirty
      ensures keyUpTime == 0 && keyUpCounter == 0
      ensures Detached()
    {
      level := null;
      tool := ToolPencil;
      lastObjectType := TypeBall;
      levelBallCount := 0;
      images := [];
      objectImageDrag := None;
      pointerCursorAttached := false;
      dirty := false;
      keyUpTime := 0;
      keyUpCounter := 0;
    }

    /** Before `attach`: no level, no icons, no balls. */
    predicate Detached()
      reads this`level, this`images, this`levelBallCount, this`lastObjectType
    {
      level == null && images == [] && levelBallCount == 0 && 0 <= lastObjectType < TypeCount
    }

    /**
     * The icons stand for the first objects of the level, in order, every
     * object has one of the four types, and `levelBallCount` is the number of
     * balls among the objects with an icon.
     */
    predicate Tracking()
      reads this`level, this`images, this`levelBallCount, this`lastObjectType, level
    {
      level != null && |images| <= |level.objects| && ObjectsOf(images) == level.objects[..|images|]
      && levelBallCount == Balls(images) && TypesValid(level.objects) && 0 <= lastObjectType < TypeCount
    }

    /** Every object of the level has its icon: the two lists are parallel. */
    predicate Valid()
      reads this`level, this`images, this`levelBallCount, this`lastObjectType, level
    {
      Tracking() && |images| == |level.objects|
    }

    /** With every object imaged, the icons' objects are the level's objects. */
    lemma ValidObjects()
      requires Valid()
      ensures level.objects == ObjectsOf(images) && levelBallCount == Balls(images)
    {
      assert level.objects[..|images|] == level.objects;
    }

    /**
     * The part of `attach` that loads the level (lines 236-248): `loaded` is
     * the level from the cache or a new one, given its name override when
     * there is one, and each of its objects gets an icon. A view that has a
     * level keeps it.
     */
    method Attach(loaded: Levels.Level, nameOverride: string)
      requires Detached() || Valid()
      requires TypesValid(loaded.objects)
      modifies this`level, this`images, this`levelBallCount, loaded`name, loaded`objects
      ensures old(level) != null ==> level == old(level) && images == old(images) && levelBallCount == old(levelBallCount)
      ensures old(level) == null ==> level == loaded && level.objects == old(loaded.objects) && ObjectsOf(images) == level.objects
      ensures old(level) == null ==> level.name == if nameOverride != "" then nameOverride else old(loaded.name)
      ensures Valid()
    {
      if level != null {
        return;
      }
      level := loaded;
      if nameOverride != "" {
        level.name := nameOverride;
      }
      var objects := level.objects;
      var i := 0;
      while i < |objects|
        invariant 0 <= i <= |objects| && level == loaded && level.objects == objects
        invariant |images| == i && Tracking()
        invariant level.name == if nameOverride != "" then nameOverride else old(loaded.name)
      {
        var image := AddObject(objects[i], true);
        i := i + 1;
      }
      ValidObjects();
    }

    /**
     * `addObject` (lines 569-599). An object to be added to the level is
     * refused, and nothing changes, when the level already has
     * `MaxObjectCount` objects or when it is a ball and the level already has
     * `MaxBallCount` balls. Otherwise the object gets an icon at the end of
     * the list, joins the level's objects unless `skipAddToLevel` (the
     * level's own objects as `attach` images them), and counts if it is a
     * ball.
     */
    method AddObject(o: LevelObject, skipAddToLevel: bool) returns (r: Option<ObjectImage>)
      requires Tracking() && 0 <= o.kind < TypeCount
      requires skipAddToLevel ==> |images| < |level.objects| && level.objects[|images|] == o
      requires !skipAddToLevel ==> Valid()
      modifies this`images, this`levelBallCount, level`objects
      ensures r.None? <==> !skipAddToLevel && (|old(level.objects)| >= Levels.MaxObjectCount || (old(levelBallCount) >= Levels.MaxBallCount && o.kind == TypeBall))
      ensures r.None? ==> images == old(images) && levelBallCount == old(levelBallCount) && level.objects == old(level.objects)
      ensures r.Some? ==> fresh(r.value) && r.value.levelObject == o && r.value.sprite == ImagesByType[o.kind]
      ensures r.Some? ==> images == old(images) + [r.value] && levelBallCount == old(levelBallCount) + (if o.kind == TypeBall then 1 else 0)
      ensures r.Some? ==> level.objects == if skipAddToLevel then old(level.objects) else old(level.objects) + [o]
      ensures Tracking()
      ensures !skipAddToLevel ==> Valid()
    {
      if !skipAddToLevel {
        if |level.objects| >= Levels.MaxObjectCount {
          return None;
        }
        if levelBallCount >= Levels.MaxBallCount && o.kind == TypeBall {
          return None;
        }
      }
      var image := new ObjectImage(o);
      BallsAppend(images, [image]);
      assert ObjectsOf(images + [image]) == ObjectsOf(images) + [o];
      images := images + [image];
      if !skipAddToLevel {
        level.objects := level.objects + [o];
      }
      if o.kind == TypeBall {
        levelBallCount := levelBallCount + 1;
      }
      assert level.objects[..|images|] == level.objects[..|images| - 1] + [o];
      return Some(image);
    }

    /**
     * `removeObject` (lines 601-620): the last position of the icon, searched
     * from the end, is taken out of both lists, and its ball, if it is one,
     * out of the count; an icon that is absent (or none) changes nothing.
     */
    method RemoveObject(image: Option<ObjectImage>)
      requires Valid()
      modifies this`images, this`levelBallCount, level`objects
      ensures var i := if image.None? then -1 else LastIndex(old(images), image.value);
        && (i < 0 ==> images == old(images) && levelBallCount == old(levelBallCount) && level.objects == old(level.objects))
        && (i >= 0 ==> images == Without(old(images), i) && level.objects == Without(old(level.objects), i))
        && (i >= 0 ==> levelBallCount == old(levelBallCount) - (if old(level.objects)[i].kind == TypeBall then 1 else 0))
      ensures Valid()
    {
      if image.None? {
        return;
      }
      var i := LastImageIndex(image.value);
      if i < 0 {
        return;
      }
      RemoveAt(i);
    }

    /** The splices of lines 610-615: position i leaves both lists, and its ball, if it is one, the count. */
    method RemoveAt(i: int)
      requires Valid() && 0 <= i < |images|
      modifies this`images, this`levelBallCount, level`objects
      ensures images == Without(old(images), i) && level.objects == Without(old(level.objects), i)
      ensures levelBallCount == old(levelBallCount) - (if old(level.objects)[i].kind == TypeBall then 1 else 0)
      ensures Valid()
    {
      ValidObjects();
      var rest, objects := Without(images, i), Without(level.objects, i);
      assert ObjectsOf(rest) == objects && Balls(rest) == levelBallCount - (if IsBall(images[i]) then 1 else 0) by {
        SpliceParallel(images, level.objects, i);
      }
      images := rest;
      if level.objects[i].kind == TypeBall {
        levelBallCount := levelBallCount - 1;
      }
      level.objects := objects;
      assert level.objects[..|images|] == level.objects;
    }

    /** The search of lines 606-607: the last index of the icon in the list, from the end, or -1. */
    method LastImageIndex(image: ObjectImage) returns (i: int)
      ensures i == LastIndex(images, image)
    {
      i := |images| - 1;
      while i >= 0
        invariant -1 <= i < |images|
        invariant forall j :: i < j < |images| ==> images[j] != image
        decreases i + 1
      {
        if images[i] == image {
          LastIndexIs(images, image, i);
          return;
        }
        i := i - 1;
      }
      LastIndexAbsent(images, image);
    }

    /** `clearObjects` (lines 622-635): no icons, no walls or objects in the level, no balls, and the drawing changed. */
    method ClearObjects()
      requires Valid()
      modifies this`images, this`levelBallCount, this`dirty, level`polygons, level`objects
      ensures images == [] && level.objects == [] && level.polygons == [] && levelBallCount == 0 && dirty
      ensures Valid()
    {
      dirty := true;
      images := [];
      level.ClearObjects();
      levelBallCount := 0;
    }

    /**
     * `findObjectWithinRadius` (lines 548-567): the icon of the first object,
     * of type `kind` when it is not negative, within one icon size of (x, y),
     * or none.
     */
    method FindObjectWithinRadius(kind: int, x: int, y: int) returns (r: Option<ObjectImage>)
      requires Valid()
      ensures r.None? <==> forall k :: 0 <= k < |level.objects| ==> !Near(level.objects[k], kind, x, y)
      ensures r.Some? ==> exists i :: 0 <= i < |images| && r.value == images[i] && Near(level.objects[i], kind, x, y) && forall k :: 0 <= k < i ==> !Near(level.objects[k], kind, x, y)
      ensures var i := FirstNear(level.objects, kind, x, y, 0); r == if i < 0 then None else Some(images[i])
    {
      var objects := level.objects;
      var i := 0;
      while i < |objects|
        invariant 0 <= i <= |objects|
        invariant forall k :: 0 <= k < i ==> !Near(objects[k], kind, x, y)
        invariant FirstNear(objects, kind, x, y, 0) == FirstNear(objects, kind, x, y, i)
      {
        var o := objects[i];
        if kind >= 0 && o.kind != kind {
          i := i + 1;
          continue;
        }
        var dx := x - o.x;
        var dy := y - o.y;
        dx := dx * dx;
        dy := dy * dy;
        if RadiusSquared >= dx + dy {
          return Some(images[i]);
        }
        i := i + 1;
      }
      return None;
    }

    /**
     * `mouseUp` (lines 381-411): the drag ends; with an object tool, the icons
     * are sorted by the comparator and the level's objects are rewritten in
     * their order, balls first and the lowest object of each type first.
     */
    method MouseUp()
      requires Valid()
      modifies this`images, this`objectImageDrag, this`pointerCursorAttached, level`objects
      ensures objectImageDrag == None && !pointerCursorAttached
      ensures tool == ToolPencil || tool == ToolEraser ==> images == old(images) && level.objects == old(level.objects)
      ensures !(tool == ToolPencil || tool == ToolEraser) ==> images == ImagesOf(Sort(old(Entries(images)))) && level.objects == ObjectsOf(images)
      ensures multiset(images) == multiset(old(images))
      ensures Valid()
    {
      ghost var entries := Entries(images);
      var sorted := SortedImages(images);
      ValidObjects();
      assert sorted == ImagesOf(Sort(entries)) && multiset(sorted) == multiset(images) by {
        SortedImagesSpec(images);
      }
      assert Balls(sorted) == levelBallCount && TypesValid(ObjectsOf(sorted)) by {
        SortedImagesSpec(images);
        SortedImagesTypes(images);
      }
      objectImageDrag := None;
      pointerCursorAttached := false;
      if tool == ToolPencil || tool == ToolEraser {
        return;
      }
      images := sorted;
      RewriteObjects();
      assert ObjectsOf(images) == level.objects[..|images|] by {
        assert level.objects[..|images|] == level.objects;
      }
      assert TypesValid(level.objects) && levelBallCount == Balls(images);
    }

    /** The loop of lines 406-410: the level's objects are those of the icons, in the icons' order. */
    method RewriteObjects()
      requires level != null && |level.objects| == |images|
      modifies level`objects
      ensures level.objects == ObjectsOf(images)
    {
      var i := |images| - 1;
      while i >= 0
        invariant -1 <= i < |images| && |level.objects| == |images|
        invariant forall k :: i < k < |images| ==> level.objects[k] == images[k].levelObject
        modifies level`objects
        decreases i + 1
      {
        level.objects := level.objects[i := images[i].levelObject];
        i := i - 1;
      }
      assert level.objects == ObjectsOf(images);
    }

    /**
     * The editor's side of `handleObjectToolDown` (lines 450-472), at model
     * coordinates (x, y): with an object tool, the object there is picked up,
     * or a new one of the last object type is added and picked up; with the
     * other tools the object there, if any, is removed.
     */
    method HandleObjectToolDown(x: int, y: int)
      requires Valid()
      modifies this`images, this`levelBallCount, this`objectImageDrag, level`objects
      ensures IsObjectTool(tool) ==> Picked(old(FirstNear(level.objects, -1, x, y, 0)), x, y, old(images), old(level.objects), old(levelBallCount))
      ensures !IsObjectTool(tool) ==>
        && objectImageDrag == old(objectImageDrag)
        && Erased(old(FirstNear(level.objects, -1, x, y, 0)), old(images), old(level.objects), old(levelBallCount))
      ensures IsObjectTool(tool) && objectImageDrag.Some? ==> objectImageDrag.value in images
      ensures |level.objects| <= Levels.MaxObjectCount || |level.objects| <= |old(level.objects)|
      ensures levelBallCount <= Levels.MaxBallCount || levelBallCount <= old(levelBallCount)
      ensures Valid()
    {
      if IsObjectTool(tool) {
        PickUpOrAdd(x, y);
      } else {
        RemoveNear(x, y);
      }
    }

    /**
     * What an object tool does at (x, y), given `i`, the first object within
     * reach of the click or -1: it drags the icon of object i and changes
     * nothing else; without one, it adds a new object of the last type at
     * the clamped (x, y) and drags its icon, unless `addObject` refuses it.
     */
    predicate Picked(i: int, x: int, y: int, images0: seq<ObjectImage>, objects0: seq<LevelObject>, balls0: int)
      requires -1 <= i < |images0|
      reads this`images, this`levelBallCount, this`objectImageDrag, this`lastObjectType, this`level, level
      reads if objectImageDrag.Some? then {objectImageDrag.value.levelObject} else {}
    {
      && level != null
      && (i >= 0 ==> images == images0 && level.objects == objects0 && levelBallCount == balls0 && objectImageDrag == Some(images0[i]))
      && (i < 0 ==>
            && (objectImageDrag.None? <==>
                  |objects0| >= Levels.MaxObjectCount || (balls0 >= Levels.MaxBallCount && lastObjectType == TypeBall))
            && (objectImageDrag.None? ==> images == images0 && level.objects == objects0 && levelBallCount == balls0)
            && (objectImageDrag.Some? ==>
                  && images == images0 + [objectImageDrag.value]
                  && var o := objectImageDrag.value.levelObject;
                  && level.objects == objects0 + [o]
                  && o.kind == lastObjectType && o.x == ClampX(x) && o.y == ClampY(y)
                  && levelBallCount == balls0 + (if lastObjectType == TypeBall then 1 else 0)))
    }

    /**
     * What another tool does, given `i`, the first object within reach of
     * the click or -1: nothing without one; otherwise that object's icon is
     * removed at its last position j, which holds the same object.
     */
    predicate Erased(i: int, images0: seq<ObjectImage>, objects0: seq<LevelObject>, balls0: int)
      requires -1 <= i < |images0| == |objects0|
      reads this`images, this`levelBallCount, this`level, level
    {
      && level != null
      && (i < 0 ==> images == images0 && level.objects == objects0 && levelBallCount == balls0)
      && (i >= 0 ==>
            var j := LastIndex(images0, images0[i]);
            && i <= j && objects0[j] == objects0[i]
            && images == Without(images0, j) && level.objects == Without(objects0, j)
            && levelBallCount == balls0 - (if objects0[i].kind == TypeBall then 1 else 0))
    }

    /** The object-tool branch of lines 454-460. */
    method PickUpOrAdd(x: int, y: int)
      requires Valid()
      modifies this`images, this`levelBallCount, this`objectImageDrag, level`objects
      ensures Picked(old(FirstNear(level.objects, -1, x, y, 0)), x, y, old(images), old(level.objects), old(levelBallCount))
      ensures objectImageDrag.Some? ==> objectImageDrag.value in images
      ensures Valid()
    {
      var found := FindObjectWithinRadius(-1, x, y);
      if found.Some? {
        objectImageDrag := found;
        return;
      }
      var o := new LevelObject(lastObjectType, x, y);
      objectImageDrag := AddObject(o, false);
    }

    /** The branch of lines 467-470 for the other tools. */
    method RemoveNear(x: int, y: int)
      requires Valid()
      modifies this`images, this`levelBallCount, level`objects
      ensures Erased(old(FirstNear(level.objects, -1, x, y, 0)), old(images), old(level.objects), old(levelBallCount))
      ensures Valid()
    {
      var found := FindObjectWithinRadius(-1, x, y);
      if found.Some? {
        ghost var i := FirstNear(level.objects, -1, x, y, 0);
        ValidObjects();
        assert images[LastIndex(images, images[i])] == images[i];
        RemoveObject(found);
      }
    }

    /** `changeTool` (lines 689-695): the tool of the button, and the object type of an object tool. */
    method ChangeTool(t: int)
      requires Valid()
      modifies this`tool, this`lastObjectType
      ensures tool == t
      ensures lastObjectType == if IsObjectTool(t) then ObjectTypeOfTool(t) else old(lastObjectType)
      ensures Valid()
    {
      tool := t;
      if tool >= ToolBall && tool <= ToolCucumber {
        lastObjectType := TypeBall + tool - ToolBall;
      }
    }

    /** `documentKeyUp` (lines 902-930), with the clock's `now` and what `confirm` answers as parameters. */
    method DocumentKeyUp(key: string, now: int, loading: bool, modalVisible: bool, confirmed: bool) returns (action: DevAction)
      modifies this`keyUpTime, this`keyUpCounter
      ensures KeyUpResult(keyUpCounter, keyUpTime, action) == KeyUp(old(keyUpCounter), old(keyUpTime), key, now, loading || modalVisible, confirmed)
    {
      action := NoAction;
      if loading || modalVisible {
        return;
      }
      if key == "d" {
        keyUpTime := now;
        keyUpCounter := 1;
      } else if keyUpCounter == 1 {
        keyUpCounter := if key == "b" && now - keyUpTime < KeyTimeout then 2 else 0;
      } else if keyUpCounter == 2 {
        if now - keyUpTime < KeyTimeout {
          if key == "g" {
            if confirmed {
              action := DevDebug;
            }
          } else if key == "s" {
            action := DevSave;
          }
        }
        keyUpCounter := 0;
      }
    }
  }
}
