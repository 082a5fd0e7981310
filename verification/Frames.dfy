/** Crop boxes: converting between the frames of an image, and repairing a box so that it lies in
    the image and is large enough. Arithmetic is exact. */
module Frames {
  import opened Reals
  import opened Wrappers

  const NORM_SCALE: real := 1000.0
  const MIN_SIDE: real := 28.0

  datatype Error = WrongLength | Degenerate | AspectRatio | ImageTooSmall | UnknownFrame | IndexError | UnpackError

  datatype Box = Box(left: real, top: real, right: real, bottom: real) {
    function Width(): real {
      right - left
    }

    function Height(): real {
      bottom - top
    }

    predicate Contains(b: Box) {
      left <= b.left && top <= b.top && b.right <= right && b.bottom <= bottom
    }
  }

  datatype Pixels = Pixels(left: int, top: int, right: int, bottom: int)

  /** `int()` of a float: towards zero. */
  function Trunc(x: real): int {
    if x >= 0.0 then x.Floor else -(-x).Floor
  }

  function Truncated(b: Box): Pixels {
    Pixels(Trunc(b.left), Trunc(b.top), Trunc(b.right), Trunc(b.bottom))
  }

  function Clamp(b: Box, w: int, h: int): Box {
    Box(Max(0.0, b.left), Max(0.0, b.top), Min(w as real, b.right), Min(h as real, b.bottom))
  }

  predicate Sound(b: Box) {
    b.left < b.right && b.top < b.bottom
  }

  predicate Small(b: Box) {
    b.Width() < MIN_SIDE || b.Height() < MIN_SIDE
  }

  /** The wanted side: scaled, at least the minimum, at most the image. */
  function Wanted(side: real, scale: real, image: int): real {
    Min(Max(side * scale, MIN_SIDE), image as real)
  }

  /** The start of a side of the given length about the centre, shifted into the image. */
  function Shifted(from: real, to: real, want: real, image: int): real {
    Min(Max(0.0, (from + to) / 2.0 - want / 2.0), image as real - want)
  }

  function Scale(b: Box): real
    requires Sound(b)
  {
    MIN_SIDE / Min(b.Width(), b.Height())
  }

  function Grow(b: Box, w: int, h: int): Box
    requires Sound(b)
  {
    var wantW, wantH := Wanted(b.Width(), Scale(b), w), Wanted(b.Height(), Scale(b), h);
    var left, top := Shifted(b.left, b.right, wantW, w), Shifted(b.top, b.bottom, wantH, h);
    Box(left, top, left + wantW, top + wantH)
  }

  /** The box before truncation. */
  function Repair(bbox: seq<real>, w: int, h: int): Result<Box, Error> {
    if |bbox| != 4 then Err(WrongLength) else
    var b := Clamp(Box(bbox[0], bbox[1], bbox[2], bbox[3]), w, h);
    if !Sound(b) then Err(Degenerate)
    else if Max(b.Width(), b.Height()) / Min(b.Width(), b.Height()) > 100.0 then Err(AspectRatio)
    else if !Small(b) then Ok(b)
    else if w as real < MIN_SIDE || h as real < MIN_SIDE then Err(ImageTooSmall)
    else Ok(Grow(b, w, h))
  }

  function ValidateAndClamp(bbox: seq<real>, w: int, h: int): Result<Pixels, Error> {
    match Repair(bbox, w, h)
    case Ok(b) => Ok(Truncated(b))
    case Err(e) => Err(e)
  }

  // ----- the repaired box

  lemma ScaleGrows(b: Box)
    requires Sound(b) && Small(b)
    ensures Scale(b) > 1.0
    ensures Scale(b) * Min(b.Width(), b.Height()) == MIN_SIDE
  {
    var m := Min(b.Width(), b.Height());
    Divides(MIN_SIDE, m);
    Above(Scale(b), m);
  }

  lemma Above(s: real, m: real)
    requires 0.0 < m < s * m
    ensures s > 1.0
  {
    if s <= 1.0 {
      Shrinks(s, m);
    }
  }

  lemma Shrinks(s: real, m: real)
    requires s <= 1.0 && m > 0.0
    ensures s * m <= m
  {
    assert (1.0 - s) * m >= 0.0;
  }

  lemma Stretches(s: real, m: real)
    requires s >= 1.0 && m >= 0.0
    ensures s * m >= m
  {
    assert (s - 1.0) * m >= 0.0;
  }

  /** One side: the shifted side lies in the image and covers the old one. */
  lemma SideCovers(from: real, to: real, want: real, image: int)
    requires 0.0 <= from <= to <= image as real && to - from <= want <= image as real
    ensures var start := Shifted(from, to, want, image);
      0.0 <= start <= from && to <= start + want <= image as real
  {
  }

  lemma WantedCovers(side: real, s: real, image: int)
    requires s >= 1.0 && 0.0 < side <= image as real && image as real >= MIN_SIDE
    ensures side <= Wanted(side, s, image) <= image as real
    ensures Wanted(side, s, image) >= MIN_SIDE
  {
    Stretches(s, side);
    assert s * side == side * s;
  }

  /** A grown box lies in the image, has the minimum size and contains the whole clamped box, also
      when it was shifted off an edge. */
  lemma GrowCovers(b: Box, w: int, h: int)
    requires Sound(b) && Small(b) && w as real >= MIN_SIDE && h as real >= MIN_SIDE
    requires Box(0.0, 0.0, w as real, h as real).Contains(b)
    ensures var g := Grow(b, w, h);
      g.Contains(b) && Box(0.0, 0.0, w as real, h as real).Contains(g) && !Small(g)
  {
    hide Scale, Wanted, Shifted;
    ScaleGrows(b);
    WantedCovers(b.Width(), Scale(b), w);
    WantedCovers(b.Height(), Scale(b), h);
    SideCovers(b.left, b.right, Wanted(b.Width(), Scale(b), w), w);
    SideCovers(b.top, b.bottom, Wanted(b.Height(), Scale(b), h), h);
  }

  /** One side: it grows about its centre if the wanted side about that centre lies in the image, and
      otherwise ends at the edge that it would cross. */
  lemma SideCentred(from: real, to: real, want: real, image: int)
    requires 0.0 <= from <= to <= image as real && to - from <= want <= image as real
    ensures var start, centre := Shifted(from, to, want, image), (from + to) / 2.0;
      && (start + (start + want) == from + to <==> want / 2.0 <= centre <= image as real - want / 2.0)
      && (centre < want / 2.0 ==> start == 0.0)
      && (centre > image as real - want / 2.0 ==> start + want == image as real)
  {
  }

  /** The centre of a side stays where it is. */
  predicate SameCentre(from: real, to: real, from': real, to': real) {
    from' + to' == from + to
  }

  /** A side of length `want` about the centre of the other lies in the image. */
  predicate HasRoom(from: real, to: real, want: real, image: int) {
    0.0 <= (from + to) / 2.0 - want / 2.0 && (from + to) / 2.0 + want / 2.0 <= image as real
  }

  /** A box grows about its centre: on each axis the centre stays if and only if the grown side about
      it lies in the image; otherwise the grown box is flush with the edge that it would cross. */
  lemma GrowsAboutCentre(b: Box, w: int, h: int)
    requires Sound(b) && Small(b) && w as real >= MIN_SIDE && h as real >= MIN_SIDE
    requires Box(0.0, 0.0, w as real, h as real).Contains(b)
    ensures var g := Grow(b, w, h);
      && (SameCentre(b.left, b.right, g.left, g.right) <==> HasRoom(b.left, b.right, g.Width(), w))
      && (SameCentre(b.top, b.bottom, g.top, g.bottom) <==> HasRoom(b.top, b.bottom, g.Height(), h))
      && (b.left + b.right < g.Width() ==> g.left == 0.0)
      && (b.left + b.right + g.Width() > 2.0 * w as real ==> g.right == w as real)
      && (b.top + b.bottom < g.Height() ==> g.top == 0.0)
      && (b.top + b.bottom + g.Height() > 2.0 * h as real ==> g.bottom == h as real)
  {
    hide Scale, Wanted, Shifted;
    ScaleGrows(b);
    WantedCovers(b.Width(), Scale(b), w);
    WantedCovers(b.Height(), Scale(b), h);
    SideCentred(b.left, b.right, Wanted(b.Width(), Scale(b), w), w);
    SideCentred(b.top, b.bottom, Wanted(b.Height(), Scale(b), h), h);
  }

  lemma TruncSide(from: real, to: real, image: int)
    requires 0.0 <= from && from + MIN_SIDE <= to <= image as real
    ensures 0 <= Trunc(from) && Trunc(from) + 28 <= Trunc(to) <= image
  {
    FloorBounds(from);
    FloorBounds(to);
  }

  lemma FloorBounds(x: real)
    ensures x.Floor as real <= x < x.Floor as real + 1.0
  {
  }

  /** A point is in the clamped box exactly if it is in the box and in the image. */
  lemma ClampIsIntersection(b: Box, w: int, h: int, x: real, y: real)
    ensures var c := Clamp(b, w, h);
      c.left <= x <= c.right && c.top <= y <= c.bottom <==>
      && b.left <= x <= b.right && b.top <= y <= b.bottom
      && 0.0 <= x <= w as real && 0.0 <= y <= h as real
  {
  }

  /** The pixel that a coordinate lies in. */
  predicate InPixel(x: real, p: int) {
    p as real <= x < p as real + 1.0
  }

  /** A returned box names the pixels of the corners of the clamped box if both of its sides are at
      least the minimum, and of the grown box otherwise. */
  lemma ReturnedPixels(bbox: seq<real>, w: int, h: int)
    requires ValidateAndClamp(bbox, w, h).Ok?
    ensures |bbox| == 4
    ensures var b := Clamp(Box(bbox[0], bbox[1], bbox[2], bbox[3]), w, h);
      && Sound(b)
      && var r := if b.Width() >= MIN_SIDE && b.Height() >= MIN_SIDE then b else Grow(b, w, h);
         var p := ValidateAndClamp(bbox, w, h).value;
         && InPixel(r.left, p.left) && InPixel(r.top, p.top)
         && InPixel(r.right, p.right) && InPixel(r.bottom, p.bottom)
  {
    var b := Clamp(Box(bbox[0], bbox[1], bbox[2], bbox[3]), w, h);
    if Small(b) {
      GrowCovers(b, w, h);
    }
    hide Grow, Clamp;
    var r := Repair(bbox, w, h).value;
    FloorBounds(r.left);
    FloorBounds(r.top);
    FloorBounds(r.right);
    FloorBounds(r.bottom);
  }

  /** Whenever a box is returned, it lies in the image and both sides are at least 28 pixels after
      truncation; and before truncation it contains the clamped box. */
  lemma ReturnedIsUsable(bbox: seq<real>, w: int, h: int)
    requires ValidateAndClamp(bbox, w, h).Ok?
    ensures var p := ValidateAndClamp(bbox, w, h).value;
      && 0 <= p.left && p.left + 28 <= p.right <= w
      && 0 <= p.top && p.top + 28 <= p.bottom <= h
    ensures |bbox| == 4 && Repair(bbox, w, h).value.Contains(Clamp(Box(bbox[0], bbox[1], bbox[2], bbox[3]), w, h))
  {
    var b := Clamp(Box(bbox[0], bbox[1], bbox[2], bbox[3]), w, h);
    if Small(b) {
      GrowCovers(b, w, h);
    }
    var r := Repair(bbox, w, h).value;
    TruncSide(r.left, r.right, w);
    TruncSide(r.top, r.bottom, h);
  }

  /** A box is returned exactly for four numbers whose clamped box is not empty, at most 100 times
      longer than wide, and, if it is too small, in an image that has room. */
  lemma ReturnsIff(bbox: seq<real>, w: int, h: int)
    ensures ValidateAndClamp(bbox, w, h).Ok? <==>
      && |bbox| == 4
      && var b := Clamp(Box(bbox[0], bbox[1], bbox[2], bbox[3]), w, h);
         && 0.0 < b.Width() && 0.0 < b.Height()
         && b.Width() <= 100.0 * b.Height() && b.Height() <= 100.0 * b.Width()
         && (Small(b) ==> w >= 28 && h >= 28)
  {
    if |bbox| == 4 {
      var b := Clamp(Box(bbox[0], bbox[1], bbox[2], bbox[3]), w, h);
      if Sound(b) {
        RatioIff(Max(b.Width(), b.Height()), Min(b.Width(), b.Height()));
      }
    }
  }

  /** And which error there is otherwise, in the order of the checks. */
  lemma ErrorIs(bbox: seq<real>, w: int, h: int)
    ensures var r := ValidateAndClamp(bbox, w, h);
      && (r == Err(WrongLength) <==> |bbox| != 4)
      && (|bbox| == 4 ==>
            var b := Clamp(Box(bbox[0], bbox[1], bbox[2], bbox[3]), w, h);
            var empty, long := b.Width() <= 0.0 || b.Height() <= 0.0,
                               b.Width() > 100.0 * b.Height() || b.Height() > 100.0 * b.Width();
            && (r == Err(Degenerate) <==> empty)
            && (r == Err(AspectRatio) <==> !empty && long)
            && (r == Err(ImageTooSmall) <==> !empty && !long && Small(b) && (w < 28 || h < 28)))
  {
    if |bbox| == 4 {
      var b := Clamp(Box(bbox[0], bbox[1], bbox[2], bbox[3]), w, h);
      hide Clamp, Grow;
      if Sound(b) {
        RatioIff(Max(b.Width(), b.Height()), Min(b.Width(), b.Height()));
      }
    }
  }

  lemma RatioIff(a: real, m: real)
    requires m > 0.0
    ensures a / m > 100.0 <==> a > 100.0 * m
  {
    Divides(a, m);
    assert (a / m - 100.0) * m == a - 100.0 * m;
    SameSign(a / m - 100.0, m);
  }

  lemma SameSign(x: real, m: real)
    requires m > 0.0
    ensures x * m > 0.0 <==> x > 0.0
  {
    if x > 0.0 {
      assert x * m > 0.0;
    } else {
      assert (-x) * m >= 0.0;
    }
  }

  /** A side `side`, scaled so that the side `other` gets the minimum length, fits the image. */
  predicate FitsScaled(side: real, other: real, image: int) {
    MIN_SIDE * side <= image as real * other
  }

  predicate SameRatio(a: real, b: real, c: real, d: real) {
    a * d == c * b
  }

  /** The longer side `b` of a box with shorter side `a` has grown to `g`: in the same proportion if
      that fits, and else to the whole side of the image. */
  predicate LongSideIs(a: real, b: real, g: real, image: int) {
    if FitsScaled(b, a, image) then SameRatio(MIN_SIDE, g, a, b) else g == image as real
  }

  lemma GrownSides(b: Box, w: int, h: int)
    requires Sound(b)
    ensures var g := Grow(b, w, h);
      g.Width() == Wanted(b.Width(), Scale(b), w) && g.Height() == Wanted(b.Height(), Scale(b), h)
  {
    hide Scale, Wanted, Shifted;
  }

  /** The shorter side grows to exactly the minimum.  The longer one keeps the aspect ratio if,
      scaled alike, it still fits the image, and else grows to the whole side of the image. */
  lemma GrowKeepsRatioIff(b: Box, w: int, h: int)
    requires Sound(b) && Small(b) && w as real >= MIN_SIDE && h as real >= MIN_SIDE
    requires Box(0.0, 0.0, w as real, h as real).Contains(b)
    ensures var g := Grow(b, w, h);
      && (b.Width() <= b.Height() ==> g.Width() == MIN_SIDE && LongSideIs(b.Width(), b.Height(), g.Height(), h))
      && (b.Height() <= b.Width() ==> g.Height() == MIN_SIDE && LongSideIs(b.Height(), b.Width(), g.Width(), w))
      && (SameRatio(g.Width(), g.Height(), b.Width(), b.Height()) <==>
            FitsScaled(b.Width(), b.Height(), w) && FitsScaled(b.Height(), b.Width(), h))
  {
    hide *;
    ScaleOf(b);
    GrownSides(b, w, h);
    GrownRatio(b.Width(), b.Height(), Scale(b), w, h);
  }

  lemma GrownRatio(x: real, y: real, s: real, w: int, h: int)
    requires x > 0.0 && y > 0.0 && s > 0.0 && w as real >= MIN_SIDE && h as real >= MIN_SIDE
    requires (x <= y ==> s * x == MIN_SIDE) && (y <= x ==> s * y == MIN_SIDE)
    ensures var gx, gy := Wanted(x, s, w), Wanted(y, s, h);
      && (x <= y ==> gx == MIN_SIDE && LongSideIs(x, y, gy, h))
      && (y <= x ==> gy == MIN_SIDE && LongSideIs(y, x, gx, w))
      && (SameRatio(gx, gy, x, y) <==> FitsScaled(x, y, w) && FitsScaled(y, x, h))
  {
    hide *;
    if x <= y {
      LongSide(x, y, s, w, h);
      ShortFits(x, y, w);
    } else {
      LongSide(y, x, s, h, w);
      ShortFits(y, x, h);
      Swapped(Wanted(x, s, w), Wanted(y, s, h), x, y);
    }
    if x == y {
      LongSide(y, x, s, h, w);
    }
  }

  lemma ScaleOf(b: Box)
    requires Sound(b) && Small(b)
    ensures b.Width() > 0.0 && b.Height() > 0.0 && Scale(b) > 0.0
    ensures b.Width() <= b.Height() ==> Scale(b) * b.Width() == MIN_SIDE
    ensures b.Height() <= b.Width() ==> Scale(b) * b.Height() == MIN_SIDE
  {
    ScaleGrows(b);
    hide Scale;
  }

  lemma Swapped(a: real, b: real, c: real, d: real)
    ensures SameRatio(a, b, c, d) <==> SameRatio(b, a, d, c)
  {
  }

  lemma ShortFits(a: real, b: real, image: int)
    requires 0.0 < a <= b && image as real >= MIN_SIDE
    ensures FitsScaled(a, b, image)
  {
    assert MIN_SIDE * a <= MIN_SIDE * b;
    assert (image as real - MIN_SIDE) * b >= 0.0;
  }

  /** The short side grows to the minimum; the long one keeps the ratio unless the image caps it. */
  lemma LongSide(a: real, b: real, s: real, imageA: int, imageB: int)
    requires 0.0 < a <= b && s > 0.0 && s * a == MIN_SIDE
    requires imageA as real >= MIN_SIDE && imageB as real >= MIN_SIDE
    ensures Wanted(a, s, imageA) == MIN_SIDE && LongSideIs(a, b, Wanted(b, s, imageB), imageB)
    ensures SameRatio(Wanted(a, s, imageA), Wanted(b, s, imageB), a, b) <==> FitsScaled(b, a, imageB)
  {
    hide SameRatio, FitsScaled;
    var g := Wanted(b, s, imageB);
    ScaledSide(a, b, s);
    assert Wanted(a, s, imageA) == MIN_SIDE;
    assert g == Min(b * s, imageB as real);
    hide Wanted;
    ScaledFits(a, b, s, imageB);
    RatioOf(a, b, s, g);
  }

  lemma ScaledSide(a: real, b: real, s: real)
    requires 0.0 < a <= b && s > 0.0 && s * a == MIN_SIDE
    ensures a * s == MIN_SIDE && b * s >= MIN_SIDE
  {
    assert (b - a) * s >= 0.0;
  }

  lemma ScaledFits(a: real, b: real, s: real, image: int)
    requires a > 0.0 && s * a == MIN_SIDE
    ensures FitsScaled(b, a, image) <==> b * s <= image as real
  {
    assert MIN_SIDE * b == b * s * a;
    assert (b * s - image as real) * a == b * s * a - image as real * a;
    SameSign(b * s - image as real, a);
  }

  lemma RatioOf(a: real, b: real, s: real, g: real)
    requires a > 0.0 && s * a == MIN_SIDE
    ensures SameRatio(MIN_SIDE, g, a, b) <==> g == b * s
  {
    assert MIN_SIDE * b == a * s * b;
    Cross(a, b, s, g);
  }

  lemma Cross(a: real, b: real, s: real, g: real)
    requires a > 0.0
    ensures a * s * b == g * a <==> g == b * s
  {
    assert g * a - a * s * b == (g - b * s) * a;
    SameSign(g - b * s, a);
    SameSign(b * s - g, a);
  }

  // ----- frames

  type Size = n: int | 0 < n witness 1

  datatype FrameSpec = FrameSpec(nativeW: Size, nativeH: Size, fetchedW: Size, fetchedH: Size) {
    function Sx(): real {
      fetchedW as real / nativeW as real
    }

    function Sy(): real {
      fetchedH as real / nativeH as real
    }
  }

  datatype Point = Point(x: real, y: real)

  function NormToNative(p: Point, spec: FrameSpec): Point {
    Point(p.x * spec.nativeW as real / NORM_SCALE, p.y * spec.nativeH as real / NORM_SCALE)
  }

  function NormToFetched(p: Point, spec: FrameSpec): Point {
    Point(p.x * spec.fetchedW as real / NORM_SCALE, p.y * spec.fetchedH as real / NORM_SCALE)
  }

  function NativeToFetched(p: Point, spec: FrameSpec): Point {
    Point(p.x * spec.Sx(), p.y * spec.Sy())
  }

  lemma PositiveQuotient(a: real, b: real)
    requires a > 0.0 && b > 0.0
    ensures a / b > 0.0
  {
  }

  function FetchedToNative(p: Point, spec: FrameSpec): Point {
    PositiveQuotient(spec.fetchedW as real, spec.nativeW as real);
    PositiveQuotient(spec.fetchedH as real, spec.nativeH as real);
    Point(p.x / spec.Sx(), p.y / spec.Sy())
  }

  lemma ThroughNative(x: real, native: real, fetched: real)
    requires native > 0.0
    ensures x * native / NORM_SCALE * (fetched / native) == x * fetched / NORM_SCALE
  {
    Divides(fetched, native);
    var q := fetched / native;
    assert x * native * q == x * (q * native);
  }

  /** Going from the normalised frame to the fetched image directly or through the native image is
      the same; and the fetched and native conversions undo each other. */
  lemma RoutesAgree(p: Point, spec: FrameSpec)
    ensures NativeToFetched(NormToNative(p, spec), spec) == NormToFetched(p, spec)
    ensures NativeToFetched(FetchedToNative(p, spec), spec) == p
    ensures FetchedToNative(NativeToFetched(p, spec), spec) == p
  {
    ThroughNative(p.x, spec.nativeW as real, spec.fetchedW as real);
    ThroughNative(p.y, spec.nativeH as real, spec.fetchedH as real);
    PositiveQuotient(spec.fetchedW as real, spec.nativeW as real);
    PositiveQuotient(spec.fetchedH as real, spec.nativeH as real);
    Divides(p.x, spec.Sx());
    Divides(p.y, spec.Sy());
  }

  /** The source frame of a box; any other string is an error. */
  datatype Frame = Norm | Native | Fetched | Other

  function BboxToFetched(bbox: seq<real>, frame: Frame, spec: FrameSpec): Result<Pixels, Error> {
    match frame
    case Norm =>
      if |bbox| < 4 then Err(IndexError) else
      var a, b := NormToFetched(Point(bbox[0], bbox[1]), spec), NormToFetched(Point(bbox[2], bbox[3]), spec);
      ValidateAndClamp([a.x, a.y, b.x, b.y], spec.fetchedW, spec.fetchedH)
    case Native =>
      if |bbox| < 4 then Err(IndexError) else
      var a, b := NativeToFetched(Point(bbox[0], bbox[1]), spec), NativeToFetched(Point(bbox[2], bbox[3]), spec);
      ValidateAndClamp([a.x, a.y, b.x, b.y], spec.fetchedW, spec.fetchedH)
    case Fetched =>
      if |bbox| != 4 then Err(UnpackError) else ValidateAndClamp(bbox, spec.fetchedW, spec.fetchedH)
    case Other => Err(UnknownFrame)
  }

  /** Which error a box is rejected with: too few coordinates or another number than four where they
      are unpacked, an unknown frame, or what the repair says of its first four. */
  lemma RejectedFor(bbox: seq<real>, frame: Frame, spec: FrameSpec)
    ensures var r := BboxToFetched(bbox, frame, spec);
      && (r == Err(UnknownFrame) <==> frame == Other)
      && (r == Err(IndexError) <==> (frame == Norm || frame == Native) && |bbox| < 4)
      && (r == Err(UnpackError) <==> frame == Fetched && |bbox| != 4)
      && r != Err(WrongLength)
      && (|bbox| > 4 && frame != Fetched ==> r == BboxToFetched(bbox[..4], frame, spec))
  {
    hide Grow, Clamp, NormToFetched, NativeToFetched;
  }

  /** The box of the same region in the native frame. */
  function BoxToNative(bbox: seq<real>, spec: FrameSpec): (r: seq<real>)
    requires |bbox| >= 4
    ensures |r| == 4
  {
    var a, b := NormToNative(Point(bbox[0], bbox[1]), spec), NormToNative(Point(bbox[2], bbox[3]), spec);
    [a.x, a.y, b.x, b.y]
  }

  function BoxToFetched(bbox: seq<real>, spec: FrameSpec): (r: seq<real>)
    requires |bbox| >= 4
    ensures |r| == 4
  {
    var a, b := NormToFetched(Point(bbox[0], bbox[1]), spec), NormToFetched(Point(bbox[2], bbox[3]), spec);
    [a.x, a.y, b.x, b.y]
  }

  /** The same region gives the same pixels, or the same error, whichever frame it is given in. */
  lemma FramesAgree(bbox: seq<real>, spec: FrameSpec)
    requires |bbox| >= 4
    ensures BboxToFetched(bbox, Norm, spec) == BboxToFetched(BoxToNative(bbox, spec), Native, spec)
    ensures BboxToFetched(bbox, Norm, spec) == BboxToFetched(BoxToFetched(bbox, spec), Fetched, spec)
  {
    RoutesAgree(Point(bbox[0], bbox[1]), spec);
    RoutesAgree(Point(bbox[2], bbox[3]), spec);
  }
}
