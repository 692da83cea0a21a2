/**
 * The dimension arithmetic of the mosaic stage: the image is shrunk to
 * `floor(width / blockSize)` by `floor(height / blockSize)` with a nearest
 * filter and blown back up. start-web-server.js and imageAgent-windows-safe.js
 * clamp each side to at least 1; imageAgent-context.js and imageAgent.js do not.
 * The pixel work itself belongs to the image library and is not modelled.
 */
module Mosaic {
  import opened Outcomes

  /** `Math.floor(a / b)` for a non-zero divisor, either sign. */
  function FloorDiv(a: int, b: int): (q: int)
    requires b != 0
    ensures b > 0 ==> q * b <= a < q * b + b
    ensures b < 0 ==> q * b + b < a <= q * b
  {
    if b > 0 then DivBounds(a, b); a / b else DivBounds(-a, -b); (-a) / (-b)
  }

  /** Euclidean division by a positive divisor is floor division. */
  lemma DivBounds(a: int, b: int)
    requires b > 0
    ensures (a / b) * b <= a < (a / b) * b + b
  {
  }

  /** The ranges FloorDiv takes on a non-negative dividend. */
  lemma FloorDivRange(a: int, b: int)
    requires a >= 0 && b != 0
    ensures b > 0 ==> 0 <= FloorDiv(a, b) <= a
    ensures b > a ==> FloorDiv(a, b) == 0
    ensures b < 0 ==> FloorDiv(a, b) <= 0
  {
    if b > 0 {
      PositiveDivRange(a, b);
    } else {
      NegatedDivNonPositive(-a, -b);
    }
  }

  lemma PositiveDivRange(a: int, b: int)
    requires a >= 0 && b > 0
    ensures 0 <= a / b <= a
    ensures b > a ==> a / b == 0
  {
    var q := a / b;
    DivBounds(a, b);
    if q < 0 {
      MulMonotone(q, -1, b);
    }
    if q > a {
      MulMonotone(1, q, b);
      MulMonotone(1, b, q);
    }
    if q > 0 {
      MulMonotone(1, q, b);
    }
  }

  lemma NegatedDivNonPositive(a: int, b: int)
    requires a <= 0 && b > 0
    ensures a / b <= 0
  {
    DivBounds(a, b);
    if a / b > 0 {
      MulMonotone(1, a / b, b);
    }
  }

  lemma MulMonotone(x: int, y: int, c: int)
    requires x <= y && c >= 0
    ensures x * c <= y * c
  {
    assert y * c - x * c == (y - x) * c;
  }

  datatype Size = Size(width: int, height: int)

  /**
   * One side in the clamped variant: `Math.max(1, Math.floor(dim / blockSize))`.
   * A zero block size makes JavaScript produce Infinity or NaN, which the image
   * library refuses: that is `None`.
   */
  function ClampedSide(dim: nat, blockSize: int): (r: Option<int>)
    ensures r.Some? <==> blockSize != 0
    ensures r.Some? ==> r.value >= 1
    ensures r.Some? && blockSize > 0 && dim >= 1 ==> r.value <= dim
    ensures r.Some? && blockSize > 0 && dim >= blockSize ==> r.value * blockSize <= dim < r.value * blockSize + blockSize
    ensures r.Some? && (blockSize < 0 || dim < blockSize) ==> r.value == 1
  {
    if blockSize == 0 then None
    else
      FloorDivRange(dim, blockSize);
      var q := FloorDiv(dim, blockSize);
      Some(if q < 1 then 1 else q)
  }

  /** One side in the unclamped variant: `Math.floor(dim / blockSize)`. */
  function UnclampedSide(dim: nat, blockSize: int): (r: Option<int>)
    ensures r.Some? <==> blockSize != 0
    ensures r.Some? && blockSize > 0 ==> 0 <= r.value <= dim
    ensures r.Some? && blockSize > dim ==> r.value == 0
    ensures r.Some? && blockSize > 0 ==> r.value * blockSize <= dim < r.value * blockSize + blockSize
  {
    if blockSize == 0 then None
    else
      FloorDivRange(dim, blockSize);
      Some(FloorDiv(dim, blockSize))
  }

  /** The reduced size in start-web-server.js and imageAgent-windows-safe.js. */
  function ClampedSize(original: Size, blockSize: int): (r: Option<Size>)
    requires original.width >= 0 && original.height >= 0
    ensures r.Some? <==> blockSize != 0
    ensures r.Some? ==> r.value == Size(ClampedSide(original.width, blockSize).value, ClampedSide(original.height, blockSize).value)
    ensures r.Some? ==> r.value.width >= 1 && r.value.height >= 1
    ensures r.Some? && blockSize > 0 && original.width >= 1 && original.height >= 1 ==>
      r.value.width <= original.width && r.value.height <= original.height
    ensures r.Some? && (blockSize < 0 || blockSize > original.width) ==> r.value.width == 1
    ensures r.Some? && (blockSize < 0 || blockSize > original.height) ==> r.value.height == 1
  {
    match (ClampedSide(original.width, blockSize), ClampedSide(original.height, blockSize))
    case (Some(w), Some(h)) => Some(Size(w, h))
    case _ => None
  }

  /** The reduced size in imageAgent-context.js and imageAgent.js. */
  function UnclampedSize(original: Size, blockSize: int): (r: Option<Size>)
    requires original.width >= 0 && original.height >= 0
    ensures r.Some? <==> blockSize != 0
    ensures r.Some? && blockSize > 0 ==>
      0 <= r.value.width <= original.width && 0 <= r.value.height <= original.height
    ensures r.Some? ==> r.value == Size(UnclampedSide(original.width, blockSize).value, UnclampedSide(original.height, blockSize).value)
    ensures r.Some? && blockSize > original.width ==> r.value.width == 0
    ensures r.Some? && blockSize > original.height ==> r.value.height == 0
  {
    match (UnclampedSide(original.width, blockSize), UnclampedSide(original.height, blockSize))
    case (Some(w), Some(h)) => Some(Size(w, h))
    case _ => None
  }

  /** The clamp changes a side only where the unclamped quotient is below 1. */
  lemma ClampedIsClampOfUnclamped(dim: nat, blockSize: int)
    requires blockSize != 0
    ensures var u := UnclampedSide(dim, blockSize).value;
            ClampedSide(dim, blockSize).value == if u < 1 then 1 else u
  {
  }

  /** When the block fits in both sides, the two variants compute the same size. */
  lemma VariantsAgreeWhenBlockFits(original: Size, blockSize: int)
    requires 1 <= blockSize <= original.width && blockSize <= original.height
    ensures ClampedSize(original, blockSize) == UnclampedSize(original, blockSize)
  {
  }

  /** A block size of 1 reduces nothing: the mosaic then only re-encodes the image. */
  lemma UnitBlockKeepsSize(original: Size)
    requires original.width >= 1 && original.height >= 1
    ensures ClampedSize(original, 1) == Some(original)
    ensures UnclampedSize(original, 1) == Some(original)
  {
  }

  /** A block at least as large as both sides collapses the clamped image to a single pixel. */
  lemma OversizedBlockIsOnePixel(original: Size, blockSize: int)
    requires 0 <= original.width < blockSize && 0 <= original.height < blockSize
    ensures ClampedSize(original, blockSize) == Some(Size(1, 1))
    ensures UnclampedSize(original, blockSize) == Some(Size(0, 0))
  {
  }
}
