/**
 * The objects placed on a level (scripts/level/levelObject.ts): a ball, a
 * goal, a bomb or a cucumber, with the collision radius of its type and a
 * position that `move` keeps at least one icon radius inside the level.
 */
module LevelObjects {
  import opened JsNumbers
  import opened Constants
  import opened Wrappers
  import opened Text
  import opened ParseInts

  const TypeBall: int := 0
  const TypeGoal: int := 1
  const TypeBomb: int := 2
  const TypeCucumber: int := 3
  const TypeCount: int := 4

  /**
   * The start of the error the constructor throws for an invalid type (line
   * 62); the text of the offending value that follows it is not modelled.
   */
  const InvalidTypeMessage: string := "Invalid level object type: "

  /** `RadiusByType` (line 46). */
  const RadiusByType: seq<int> := [6, 5, 5, 6]

  /**
   * A value read from a saved level: a number, a string, or anything else
   * (null, a missing property, a boolean, an object).
   */
  datatype Value = Num(n: Number) | Str(s: string) | Other

  /** The values the constructor's strict-equality switch accepts (lines 55-64): the numbers 0, 1, 2 and 3. */
  predicate IsType(v: Value) {
    v.Num? && v.n.Finite? && (v.n.value == 0.0 || v.n.value == 1.0 || v.n.value == 2.0 || v.n.value == 3.0)
  }

  /** The type an accepted value stands for, `parseInt(type)` (line 65). */
  function TypeOf(v: Value): (t: int)
    requires IsType(v)
    ensures 0 <= t < TypeCount && t as real == v.n.value
  {
    if v.n.value == 0.0 then TypeBall else if v.n.value == 1.0 then TypeGoal else if v.n.value == 2.0 then TypeBomb else TypeCucumber
  }

  /**
   * `parseInt(v) || 0` (line 67): what `parseInt` reads from a finite number
   * or a string, and 0 where it gives NaN: for the infinities, a string with
   * no digits where they are looked for, and every other value.
   */
  function Coordinate(v: Value): (r: int)
    ensures v.Num? && v.n.Finite? ==> r == ParseIntNumber(v.n.value)
    ensures v.Num? && v.n.Finite? && PlainForm(v.n.value) && v.n.value >= 0.0 ==> r == Floor(v.n.value)
    ensures v.Num? && v.n.Finite? && PlainForm(v.n.value) && v.n.value < 0.0 ==> r == Ceil(v.n.value)
    ensures v.Str? && ParseIntText(v.s).Some? ==> r == ParseIntText(v.s).value
    ensures v.Str? && ParseIntText(v.s).None? ==> r == 0
    ensures !v.Str? && !(v.Num? && v.n.Finite?) ==> r == 0
  {
    match v
    case Num(Finite(x)) => ParseIntNumber(x)
    case Str(s) => if ParseIntText(s).Some? then ParseIntText(s).value else 0
    case _ => 0
  }

  /** A coordinate saved as the decimal text of an integer, with or without a minus sign, reads back as that integer. */
  lemma CoordinateOfText(n: nat)
    ensures Coordinate(Str(NatToString(n))) == n
    ensures Coordinate(Str(['-'] + NatToString(n))) == -(n as int)
  {
    ParseIntNat(n);
  }

  /** A coordinate saved as an integer that `toString` writes without an exponent reads back as that integer. */
  lemma CoordinateOfInteger(k: int)
    requires -PlainHigh < k as real < PlainHigh
    ensures Coordinate(Num(Finite(k as real))) == k
  {
    var x := k as real;
    assert PlainForm(x) by {
      if k != 0 {
        assert Abs(x) >= 1.0;
      }
    }
    assert Trunc(x) == k;
  }

  /** The radius of each type. */
  function Radius(t: int): (r: int)
    requires 0 <= t < TypeCount
    ensures r == 5 || r == 6
    ensures r == 6 <==> t == TypeBall || t == TypeCucumber
  {
    RadiusByType[t]
  }

  const MinCoordinate: int := IconRadius
  const MaxX: int := BaseWidth - IconRadius
  const MaxY: int := MaxHeight - IconRadius

  /** The horizontal clamp of `move` (lines 71-74). */
  function ClampX(x: int): (r: int)
    ensures MinCoordinate <= r <= MaxX
    ensures MinCoordinate <= x <= MaxX ==> r == x
    ensures x < MinCoordinate ==> r == MinCoordinate
    ensures x > MaxX ==> r == MaxX
  {
    if x <= IconRadius then IconRadius else if x > BaseWidth - IconRadius then BaseWidth - IconRadius else x
  }

  /** The vertical clamp of `move` (lines 75-78). */
  function ClampY(y: int): (r: int)
    ensures MinCoordinate <= r <= MaxY
    ensures MinCoordinate <= y <= MaxY ==> r == y
    ensures y < MinCoordinate ==> r == MinCoordinate
    ensures y > MaxY ==> r == MaxY
  {
    if y <= IconRadius then IconRadius else if y > MaxHeight - IconRadius then MaxHeight - IconRadius else y
  }

  /** Clamping a clamped position changes nothing, so moving an object to where it is leaves it there. */
  lemma ClampIdempotent(x: int, y: int)
    ensures ClampX(ClampX(x)) == ClampX(x) && ClampY(ClampY(y)) == ClampY(y)
  {
  }

  /** The saved form of an object: its `type`, `x` and `y` properties. */
  datatype ObjectData = ObjectData(kind: Value, x: Value, y: Value)

  class LevelObject {
    /** The `type` field. */
    const kind: int
    const radius: int
    var x: int
    var y: int

    /** The object a valid type builds (lines 65-67): the radius of its type, at the clamped position. */
    constructor(t: int, x0: int, y0: int)
      requires 0 <= t < TypeCount
      ensures kind == t && radius == Radius(t) && x == ClampX(x0) && y == ClampY(y0)
    {
      kind := t;
      radius := RadiusByType[t];
      x := ClampX(x0);
      y := ClampY(y0);
    }

    /** `move` (lines 70-79): the position clamped to the level. */
    method Move(x0: int, y0: int)
      modifies this`x, this`y
      ensures x == ClampX(x0) && y == ClampY(y0)
    {
      x := if x0 <= IconRadius then IconRadius else if x0 > BaseWidth - IconRadius then BaseWidth - IconRadius else x0;
      y := if y0 <= IconRadius then IconRadius else if y0 > MaxHeight - IconRadius then MaxHeight - IconRadius else y0;
    }

    /** A valid object: its type and radius agree and its position is inside the clamp. */
    predicate Valid()
      reads this`x, this`y
    {
      0 <= kind < TypeCount && radius == Radius(kind) && MinCoordinate <= x <= MaxX && MinCoordinate <= y <= MaxY
    }
  }

  /**
   * `new LevelObject(type, x, y)` (lines 54-68): a type other than the
   * numbers 0 to 3 throws; any other object gets the radius of its type and
   * the clamped integer position.
   */
  method Create(kind: Value, x: Value, y: Value) returns (r: Result<LevelObject>)
    ensures r.Success? <==> IsType(kind)
    ensures r.Failure? ==> r.message == InvalidTypeMessage
    ensures r.Success? ==> fresh(r.value) && r.value.kind == TypeOf(kind) && r.value.Valid()
    ensures r.Success? ==> r.value.x == ClampX(Coordinate(x)) && r.value.y == ClampY(Coordinate(y))
  {
    if !IsType(kind) {
      return Failure(InvalidTypeMessage);
    }
    var o := new LevelObject(TypeOf(kind), Coordinate(x), Coordinate(y));
    return Success(o);
  }

  /** `revive` (lines 81-83): the constructor applied to the saved properties. */
  method Revive(data: ObjectData) returns (r: Result<LevelObject>)
    ensures r.Success? <==> IsType(data.kind)
    ensures r.Failure? ==> r.message == InvalidTypeMessage
    ensures r.Success? ==> fresh(r.value) && r.value.kind == TypeOf(data.kind) && r.value.Valid()
    ensures r.Success? ==> r.value.x == ClampX(Coordinate(data.x)) && r.value.y == ClampY(Coordinate(data.y))
  {
    r := Create(data.kind, data.x, data.y);
  }
}
