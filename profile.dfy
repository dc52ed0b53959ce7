/** `get_rgb_profile_line`: the red, green and blue values of an image sampled
    at evenly spaced pixels along the segment between two points. */
module LineProfile {

  /** A pixel coordinate: `x` is the column, `y` the row. */
  datatype Point = Point(x: int, y: int)

  /** A pixel with its channels in the order OpenCV stores them: blue, green, red. */
  datatype Pixel = Bgr(b: int, g: int, r: int)

  /** An image as rows, indexed by `y`, of pixels, indexed by `x`; `img[y][x]`
      is what the source reads as `image[y, x]`. */
  type Image = seq<seq<Pixel>>

  /** Every row is as wide as the first, as for a decoded raster image. */
  predicate Rectangular(img: Image)
  {
    forall y :: 0 <= y < |img| ==> |img[y]| == |img[0]|
  }

  /** Every channel value is an 8-bit quantity. */
  predicate EightBit(img: Image)
  {
    forall y, x :: 0 <= y < |img| && 0 <= x < |img[y]| ==>
      0 <= img[y][x].b < 256 && 0 <= img[y][x].g < 256 && 0 <= img[y][x].r < 256
  }

  predicate InImage(img: Image, p: Point)
  {
    0 <= p.y < |img| && 0 <= p.x < |img[p.y]|
  }

  /** What the sampler needs of its inputs: both endpoints are inside the
      image. Negative coordinates, which numpy would wrap around, and
      coordinates past the edge, which raise, are excluded. */
  predicate LineFits(img: Image, a: Point, b: Point)
  {
    Rectangular(img) && InImage(img, a) && InImage(img, b)
  }

  function Min(a: int, b: int): int { if a <= b then a else b }
  function Max(a: int, b: int): int { if a <= b then b else a }

  function Square(d: int): (s: nat)
  {
    if d < 0 then (-d) * (-d) else d * d
  }

  /** The integer square root of `s`, searched upward from `k`. */
  function SqrtFrom(s: nat, k: nat): (n: nat)
    requires k * k <= s
    ensures n * n <= s < (n + 1) * (n + 1)
    decreases s - k
  {
    assert k <= k * k;
    if s < (k + 1) * (k + 1) then k else SqrtFrom(s, k + 1)
  }

  /** The largest `n` with `n * n <= s`: `int(hypot(dx, dy))` taken over exact
      arithmetic, for `s = dx * dx + dy * dy`. */
  function FloorSqrt(s: nat): (n: nat)
    ensures n * n <= s < (n + 1) * (n + 1)
  {
    SqrtFrom(s, 0)
  }

  /** The number of samples taken between `a` and `b`: the Euclidean length
      of the segment, truncated. */
  function SampleCount(a: Point, b: Point): (n: nat)
    ensures n * n <= Square(b.x - a.x) + Square(b.y - a.y) < (n + 1) * (n + 1)
  {
    FloorSqrt(Square(b.x - a.x) + Square(b.y - a.y))
  }

  /** Element `i` of `linspace(lo, hi, n).astype(int)`. The element is the
      rational `lo + i * (hi - lo) / (n - 1)`, the first one being `lo` and the
      last one set to `hi`. For non-negative endpoints it is non-negative, so
      truncation toward zero is the floor, and Dafny's division by the positive
      `n - 1` is the floor. */
  function Linspace(lo: nat, hi: nat, n: nat, i: nat): (v: int)
    requires i < n
    ensures i == 0 ==> v == lo
    ensures 0 < i == n - 1 ==> v == hi
    ensures 0 < i < n - 1 ==> (n - 1) * (v - lo) <= i * (hi - lo) < (n - 1) * (v - lo + 1)
  {
    if i == 0 then lo
    else if i == n - 1 then hi
    else lo + (i * (hi - lo)) / (n - 1)
  }

  /** The pixel coordinates visited between `a` and `b`, in order. */
  function SamplePoints(a: Point, b: Point): (ps: seq<Point>)
    requires a.x >= 0 && a.y >= 0 && b.x >= 0 && b.y >= 0
    ensures |ps| == SampleCount(a, b)
  {
    var n := SampleCount(a, b);
    seq(n, i requires 0 <= i < n => Point(Linspace(a.x, b.x, n, i), Linspace(a.y, b.y, n, i)))
  }

  /** The three profiles, in (red, green, blue) order. */
  datatype Profile = Profile(red: seq<int>, green: seq<int>, blue: seq<int>)

  /** The profiles of `img` along the segment from `a` to `b`: at each sample
      point, the red profile takes the third stored channel, green the second
      and blue the first. */
  function ProfileOf(img: Image, a: Point, b: Point): (p: Profile)
    requires LineFits(img, a, b)
    ensures |p.red| == |p.green| == |p.blue| == SampleCount(a, b)
  {
    var ps := SamplePoints(a, b);
    SamplesInImage(img, a, b);
    Profile(
      seq(|ps|, i requires 0 <= i < |ps| => img[ps[i].y][ps[i].x].r),
      seq(|ps|, i requires 0 <= i < |ps| => img[ps[i].y][ps[i].x].g),
      seq(|ps|, i requires 0 <= i < |ps| => img[ps[i].y][ps[i].x].b))
  }

  /** `get_rgb_profile_line`: walks the sample points (the `x` and `y`
      positions zipped together) and appends each pixel's channels to the
      three profiles. */
  method GetRgbProfileLine(img: Image, a: Point, b: Point) returns (red: seq<int>, green: seq<int>, blue: seq<int>)
    requires LineFits(img, a, b)
    ensures Profile(red, green, blue) == ProfileOf(img, a, b)
  {
    var ps := SamplePoints(a, b);
    SamplesInImage(img, a, b);
    ghost var p := ProfileOf(img, a, b);
    red, green, blue := [], [], [];
    var k := 0;
    while k < |ps|
      invariant 0 <= k <= |ps|
      invariant red == p.red[..k] && green == p.green[..k] && blue == p.blue[..k]
    {
      var px := img[ps[k].y][ps[k].x];
      assert p.red[..k + 1] == p.red[..k] + [px.r];
      assert p.green[..k + 1] == p.green[..k] + [px.g];
      assert p.blue[..k + 1] == p.blue[..k] + [px.b];
      blue := blue + [px.b];
      green := green + [px.g];
      red := red + [px.r];
      k := k + 1;
    }
    assert p.red[..k] == p.red && p.green[..k] == p.green && p.blue[..k] == p.blue;
  }

  /** The profiles of an 8-bit image hold 8-bit values. */
  lemma EightBitProfile(img: Image, a: Point, b: Point)
    requires LineFits(img, a, b) && EightBit(img)
    ensures var p := ProfileOf(img, a, b);
      forall k :: 0 <= k < |p.red| ==>
        0 <= p.red[k] < 256 && 0 <= p.green[k] < 256 && 0 <= p.blue[k] < 256
  {
    var ps := SamplePoints(a, b);
    SamplesInImage(img, a, b);
    forall k | 0 <= k < |ps| ensures 0 <= img[ps[k].y][ps[k].x].r < 256 {
      assert InImage(img, ps[k]);
    }
  }

  /** `FloorSqrt` is determined by its contract: two candidates that both
      bracket `s` are equal. */
  lemma {:induction false} SqrtUnique(s: nat, n: nat, m: nat)
    requires n * n <= s < (n + 1) * (n + 1)
    requires m * m <= s < (m + 1) * (m + 1)
    ensures n == m
  {
    if n < m {
      SquareMonotone(n + 1, m);
    } else if m < n {
      SquareMonotone(m + 1, n);
    }
  }

  lemma SquareMonotone(u: nat, v: nat)
    requires u <= v
    ensures u * u <= v * v
  {
    assert u * u <= u * v <= v * v;
  }

  /** Two coincident endpoints give no samples at all. */
  lemma CoincidentEndpoints(a: Point)
    requires a.x >= 0 && a.y >= 0
    ensures SampleCount(a, a) == 0
    ensures SamplePoints(a, a) == []
  {
    SqrtUnique(0, FloorSqrt(0), 0);
  }

  /** The sample count is the floor of the Euclidean length of the segment:
      a 3-4-5 triangle gives 5 samples, the diagonal from (0, 0) to (9, 9),
      of length about 12.73, gives 12. */
  lemma SampleCountExamples()
    ensures SampleCount(Point(0, 0), Point(3, 4)) == 5
    ensures SampleCount(Point(0, 0), Point(9, 9)) == 12
  {
    SqrtUnique(25, FloorSqrt(25), 5);
    SqrtUnique(162, FloorSqrt(162), 12);
  }

  /** The first sample is `a` and, when there are at least two, the last is `b`. */
  lemma SampleEnds(a: Point, b: Point)
    requires a.x >= 0 && a.y >= 0 && b.x >= 0 && b.y >= 0
    ensures var ps := SamplePoints(a, b);
      (|ps| >= 1 ==> ps[0] == a) && (|ps| >= 2 ==> ps[|ps| - 1] == b)
  {
  }

  /** Every truncated `linspace` element lies between the two endpoints. */
  lemma LinspaceBetween(lo: nat, hi: nat, n: nat, i: nat)
    requires i < n
    ensures Min(lo, hi) <= Linspace(lo, hi, n, i) <= Max(lo, hi)
  {
    if 0 < i < n - 1 {
      var d, m := hi - lo, n - 1;
      ScaleBetween(i, m, d);
      if d >= 0 {
        DivBetween(i * d, m, 0, d);
      } else {
        DivBetween(i * d, m, d, 0);
      }
    }
  }

  /** Scaling `d` by a factor between 0 and `m` keeps it between 0 and `m * d`. */
  lemma ScaleBetween(i: nat, m: nat, d: int)
    requires i <= m
    ensures d >= 0 ==> 0 <= i * d <= m * d
    ensures d < 0 ==> m * d <= i * d <= 0
  {
  }

  lemma MulMonotone(m: int, u: int, v: int)
    ensures m >= 0 && u <= v ==> m * u <= m * v
  {
    if m >= 0 && u <= v {
      assert m * v - m * u == m * (v - u);
    }
  }

  /** Dividing a value that lies between `m * lo` and `m * hi` by `m` keeps it
      between `lo` and `hi`. */
  lemma DivBetween(v: int, m: int, lo: int, hi: int)
    requires m > 0 && m * lo <= v <= m * hi
    ensures lo <= v / m <= hi
  {
    var q := v / m;
    assert m * q <= v < m * q + m;
    MulMonotone(m, q + 1, lo);
    MulMonotone(m, hi + 1, q);
    assert m * (q + 1) == m * q + m && m * (hi + 1) == m * hi + m;
  }

  /** Every sample point lies within the bounding box of the endpoints. */
  lemma SamplesBetween(a: Point, b: Point)
    requires a.x >= 0 && a.y >= 0 && b.x >= 0 && b.y >= 0
    ensures forall p :: p in SamplePoints(a, b) ==>
      Min(a.x, b.x) <= p.x <= Max(a.x, b.x) && Min(a.y, b.y) <= p.y <= Max(a.y, b.y)
  {
    var ps, n := SamplePoints(a, b), SampleCount(a, b);
    forall i | 0 <= i < n
      ensures Min(a.x, b.x) <= ps[i].x <= Max(a.x, b.x) && Min(a.y, b.y) <= ps[i].y <= Max(a.y, b.y)
    {
      LinspaceBetween(a.x, b.x, n, i);
      LinspaceBetween(a.y, b.y, n, i);
    }
  }

  /** When both endpoints are inside a rectangular image, so is every sample
      point: the sampler never reads outside the image. */
  lemma SamplesInImage(img: Image, a: Point, b: Point)
    requires LineFits(img, a, b)
    ensures forall i :: 0 <= i < |SamplePoints(a, b)| ==> InImage(img, SamplePoints(a, b)[i])
  {
    SamplesBetween(a, b);
    var ps := SamplePoints(a, b);
    forall i | 0 <= i < |ps| ensures InImage(img, ps[i]) {
      assert ps[i] in ps;
    }
  }
}
