/**
 * The helpers of scripts/main.ts that the views use: `format2`, the
 * conversions between model and CSS coordinates, the search for the
 * largest integer scale factor in `adjustWindowSize`, and `zeroObject`.
 */
module MainHelpers {
  import opened JsNumbers
  import opened Constants
  import opened Text

  /** `format2` (lines 69-71): a number below 10 gets a leading "0". */
  function Format2(x: int): (r: string)
    ensures x < 10 ==> r == "0" + IntToString(x)
    ensures x >= 10 ==> r == IntToString(x)
  {
    if x < 10 then "0" + IntToString(x) else IntToString(x)
  }

  /** Every number from 0 to 99 is written with exactly two digits, which read back as the number. */
  lemma Format2TwoDigits(x: int)
    requires 0 <= x <= 99
    ensures |Format2(x)| == 2
    ensures forall k :: 0 <= k < 2 ==> IsDigit(Format2(x)[k])
    ensures ParseDigits(Format2(x)) == x
  {
    var s := Format2(x);
    if x < 10 {
      assert s == ['0', DigitChar(x)];
      DigitRoundTrip(x);
      assert s[..1] == ['0'] && s[..1][..0] == [];
      assert ParseDigits(s[..1]) == 0;
    } else {
      NatToStringLength(x, 2, 100);
      ParseNatToString(x);
    }
  }

  /** A number of two or more digits is written as it is. */
  lemma Format2Large(x: int)
    requires x >= 10
    ensures Format2(x) == NatToString(x) && Format2(x)[0] != '0'
  {
  }

  /** `cssNumber` (lines 78-81): the integer part of a model coordinate, scaled and divided by the device pixel ratio. */
  function CssNumber(modelCoord: Number, scaleFactor: int, pixelRatio: real): (r: real)
    requires pixelRatio > 0.0
    ensures ToInt32(modelCoord) == 0 ==> r == 0.0
  {
    Scale(ToInt32(modelCoord) as real, scaleFactor as real, pixelRatio)
  }

  /** `model` (lines 83-86): a CSS coordinate back in model units, truncated to a 32-bit integer. */
  function Model(cssCoord: real, scaleFactor: int, pixelRatio: real): int
    requires scaleFactor >= 1
  {
    ToInt32(Finite(Scale(cssCoord, pixelRatio, scaleFactor as real)))
  }

  /**
   * In exact arithmetic, converting an integer model coordinate to CSS units
   * and back gives it again.
   */
  lemma ModelOfCssNumber(m: int, scaleFactor: int, pixelRatio: real)
    requires -TwoTo31 <= m < TwoTo31 && scaleFactor >= 1 && pixelRatio > 0.0
    ensures Model(CssNumber(Finite(m as real), scaleFactor, pixelRatio), scaleFactor, pixelRatio) == m
  {
    assert Trunc(m as real) == m;
    var x := ToInt32(Finite(m as real)) as real;
    assert x == m as real;
    ScaleRoundTrip(x, scaleFactor as real, pixelRatio);
  }

  /** `x` multiplied by `s / p`. */
  function Scale(x: real, s: real, p: real): real
    requires p > 0.0
  {
    x * s / p
  }

  /** Scaling by s / p and then by p / s gives the number back. */
  lemma ScaleRoundTrip(x: real, s: real, p: real)
    requires s > 0.0 && p > 0.0
    ensures Scale(Scale(x, s, p), p, s) == x
  {
    Cancel(x * s, p);
    Cancel(x, s);
  }

  /** Multiplying back by a positive divisor gives the dividend. */
  lemma Cancel(x: real, d: real)
    requires d > 0.0
    ensures x / d * d == x && x * d / d == x
  {
  }

  /**
   * Scale factor s fits a window of `widthPx` by `heightPx` device pixels:
   * the base width, s times over, is no wider than the window, and the base
   * height the window then leaves is at least `minHeight` (line 181).
   */
  predicate Fits(widthPx: real, heightPx: real, s: int)
    requires s >= 1
  {
    (BaseWidth * s) as real <= widthPx && ScaledHeight(widthPx, heightPx, s) >= MinHeight
  }

  /** The base height for scale factor s (lines 178-180): the window's height, at most the base width, in model pixels, rounded up. */
  function ScaledHeight(widthPx: real, heightPx: real, s: int): int
    requires s >= 1
  {
    var baseWidthPx := (BaseWidth * s) as real;
    Ceil((if heightPx > baseWidthPx then baseWidthPx else heightPx) / s as real)
  }

  /** The base height is never more than the base width. */
  lemma ScaledHeightAtMostBaseWidth(widthPx: real, heightPx: real, s: int)
    requires s >= 1
    ensures ScaledHeight(widthPx, heightPx, s) <= BaseWidth
  {
    var baseWidthPx := (BaseWidth * s) as real;
    var h := if heightPx > baseWidthPx then baseWidthPx else heightPx;
    assert baseWidthPx == BaseWidth as real * s as real;
    assert h / s as real <= BaseWidth as real;
  }

  /**
   * The scale search of lines 174-192: scale factors 1, 2, .. are tried
   * until one does not fit; the result is the one before it, or 1. The base
   * height ends between `minHeight` and the base width.
   */
  method AdjustScale(widthPx: real, heightPx: real) returns (scaleFactor: int, baseHeight: int)
    ensures scaleFactor >= 1
    ensures MinHeight <= baseHeight <= BaseWidth
    ensures scaleFactor > 1 ==> forall t :: 1 <= t <= scaleFactor ==> Fits(widthPx, heightPx, t)
    ensures scaleFactor > 1 ==> (BaseWidth * scaleFactor) as real <= widthPx
    ensures !Fits(widthPx, heightPx, scaleFactor + 1) || !Fits(widthPx, heightPx, 1)
    ensures baseHeight == if ScaledHeight(widthPx, heightPx, scaleFactor) < MinHeight then MinHeight else ScaledHeight(widthPx, heightPx, scaleFactor)
  {
    scaleFactor := 0;
    while true
      invariant scaleFactor >= 0
      invariant forall t :: 1 <= t <= scaleFactor ==> Fits(widthPx, heightPx, t)
      decreases Floor(widthPx) - BaseWidth * scaleFactor
    {
      scaleFactor := scaleFactor + 1;
      baseHeight := ScaledHeight(widthPx, heightPx, scaleFactor);
      if baseHeight < MinHeight || (BaseWidth * scaleFactor) as real > widthPx {
        assert !Fits(widthPx, heightPx, scaleFactor);
        if scaleFactor > 1 {
          scaleFactor := scaleFactor - 1;
          assert Fits(widthPx, heightPx, scaleFactor);
        }
        baseHeight := ScaledHeight(widthPx, heightPx, scaleFactor);
        ScaledHeightAtMostBaseWidth(widthPx, heightPx, scaleFactor);
        if baseHeight < MinHeight {
          baseHeight := MinHeight;
        }
        return;
      }
    }
  }

  /** An array element as `zeroObject` leaves it: null, or any other value. */
  datatype Element = NullElement | OtherElement

  /** A property value by its `typeof`, with the array an `Array` value refers to. */
  datatype Property =
    | FunctionValue
    | BooleanValue(b: bool)
    | NumberValue(n: Number)
    | ArrayValue(elements: array<Element>)
    | NullValue
    | OtherValue

  /** What `zeroObject` makes of one property (lines 127-142): functions kept, booleans false, numbers 0, all else null. */
  function Zeroed(p: Property): (r: Property)
    ensures p.FunctionValue? <==> r.FunctionValue?
    ensures p.BooleanValue? ==> r == BooleanValue(false)
    ensures p.NumberValue? ==> r == NumberValue(Finite(0.0))
    ensures !(p.FunctionValue? || p.BooleanValue? || p.NumberValue?) ==> r == NullValue
  {
    match p
    case FunctionValue => FunctionValue
    case BooleanValue(_) => BooleanValue(false)
    case NumberValue(_) => NumberValue(Finite(0.0))
    case _ => NullValue
  }

  /** Zeroing a zeroed property changes nothing. */
  lemma ZeroedIdempotent(p: Property)
    ensures Zeroed(Zeroed(p)) == Zeroed(p)
  {
  }

  /** Every element of `a` is null. */
  ghost predicate Nulled(a: array<Element>)
    reads a
  {
    forall e :: 0 <= e < a.Length ==> a[e] == NullElement
  }

  /** An object's enumerable properties by name. */
  class JsObject {
    var properties: map<string, Property>

    /** The arrays the object's properties refer to. */
    ghost function Arrays(): set<array<Element>>
      reads this`properties
    {
      set p | p in properties && properties[p].ArrayValue? :: properties[p].elements
    }

    /**
     * `zeroObject` (lines 125-144): every property zeroed, and every array a
     * property refers to filled with null first. The properties are visited
     * in any order, since each is zeroed independently of the others.
     */
    method ZeroObject()
      modifies this`properties, Arrays()
      ensures properties.Keys == old(properties.Keys)
      ensures forall p :: p in properties ==> properties[p] == Zeroed(old(properties[p]))
      ensures forall a :: a in old(Arrays()) ==> Nulled(a)
    {
      ghost var props0 := properties;
      var pending := properties.Keys;
      while pending != {}
        invariant pending <= props0.Keys && properties.Keys == props0.Keys
        invariant forall p :: p in pending ==> properties[p] == props0[p]
        invariant forall p :: p in props0 && p !in pending ==> properties[p] == Zeroed(props0[p])
        invariant forall p :: p in props0 && p !in pending && props0[p].ArrayValue? ==> Nulled(props0[p].elements)
        decreases |pending|
      {
        var p :| p in pending;
        ZeroProperty(p);
        pending := pending - {p};
      }
    }

    /** One step of `zeroObject` (lines 127-142): property `p` zeroed, after its array, if any, is filled with null. */
    method ZeroProperty(p: string)
      requires p in properties
      modifies this`properties, if properties[p].ArrayValue? then {properties[p].elements} else {}
      ensures properties == old(properties)[p := Zeroed(old(properties[p]))]
      ensures old(properties[p]).ArrayValue? ==> Nulled(old(properties[p]).elements)
    {
      match properties[p] {
        case FunctionValue =>
        case BooleanValue(_) =>
          properties := properties[p := BooleanValue(false)];
        case NumberValue(_) =>
          properties := properties[p := NumberValue(Finite(0.0))];
        case ArrayValue(a) =>
          FillNull(a);
          properties := properties[p := NullValue];
        case NullValue =>
          properties := properties[p := NullValue];
        case OtherValue =>
          properties := properties[p := NullValue];
      }
    }
  }

  /** `fill(null)` on an array a property refers to (line 139). */
  method FillNull(a: array<Element>)
    modifies a
    ensures Nulled(a)
  {
    var k := 0;
    while k < a.Length
      invariant 0 <= k <= a.Length
      invariant forall j :: 0 <= j < k ==> a[j] == NullElement
    {
      a[k] := NullElement;
      k := k + 1;
    }
  }
}
