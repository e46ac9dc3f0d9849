/** Fitting an image to the generator's limits: the target box, nearest-neighbour sampling, and the loop that
    encodes with falling quality and shrinking size until the bytes fit. */
module GuideImages {
  import opened Common

  const MAX_WIDTH := 1920
  const MAX_HEIGHT := 1080
  const MAX_BYTES := 2 * 1024 * 1024
  const MIN_WIDTH := 320
  const MIN_HEIGHT := 180

  type Bytes = seq<bv8>

  // -------------------------------------------------------------------------------- dimensions

  function Max(a: int, b: int): int { if a > b then a else b }

  function FitDimensions(width: int, height: int, maxWidth: int, maxHeight: int): (int, int)
    requires width > 0 && height > 0
  {
    if width <= maxWidth && height <= maxHeight then (width, height)
    else if width * maxHeight > height * maxWidth then (maxWidth, Max(1, height * maxWidth / width))
    else (Max(1, width * maxHeight / height), maxHeight)
  }

  lemma Scale(a: int, b: int, c: int)
    requires 0 < c && a <= b
    ensures a * c <= b * c
    ensures a < b ==> a * c < b * c
  {
  }

  /** The quotient and its defining inequalities. */
  lemma Quotient(a: int, b: int)
    requires b > 0 && a >= 0
    ensures 0 <= a / b && a / b * b <= a < (a / b + 1) * b
  {
  }

  lemma QuotientBelow(a: int, b: int, c: int)
    requires b > 0 && a >= 0 && a <= c * b
    ensures a / b <= c
  {
    Quotient(a, b);
    if a / b > c {
      Scale(c, a / b, b);
    }
  }

  lemma QuotientMonotone(a: int, b: int, c: int)
    requires c > 0 && 0 <= a <= b
    ensures a / c <= b / c
  {
    Quotient(a, c);
    Quotient(b, c);
    if b / c + 1 <= a / c {
      Scale(b / c + 1, a / c, c);
    }
  }

  lemma QuotientStep(a: int, b: int, c: int)
    requires c > 0 && 0 <= a && a + c <= b
    ensures a / c < b / c
  {
    Quotient(a, c);
    Quotient(b, c);
    assert (a / c + 1) * c == a / c * c + c;
    if b / c + 1 <= a / c + 1 {
      Scale(b / c + 1, a / c + 1, c);
    }
  }

  /** An image wider than the box allows for its height shrinks to the box's width. */
  lemma WideFits(width: int, height: int, maxWidth: int, maxHeight: int)
    requires width > 0 && height > 0 && maxWidth > 0 && maxHeight > 0
    requires !(width <= maxWidth && height <= maxHeight) && width * maxHeight > height * maxWidth
    ensures maxWidth <= width
    ensures 0 <= height * maxWidth / width <= maxHeight && height * maxWidth / width <= height
  {
    if width < maxWidth {
      Scale(width, maxWidth, maxHeight);
      Scale(maxHeight, height, maxWidth);
    }
    Scale(maxWidth, width, height);
    Quotient(height * maxWidth, width);
    QuotientBelow(height * maxWidth, width, maxHeight);
    QuotientBelow(height * maxWidth, width, height);
  }

  lemma TallFits(width: int, height: int, maxWidth: int, maxHeight: int)
    requires width > 0 && height > 0 && maxWidth > 0 && maxHeight > 0
    requires !(width <= maxWidth && height <= maxHeight) && width * maxHeight <= height * maxWidth
    ensures maxHeight <= height
    ensures 0 <= width * maxHeight / height <= maxWidth && width * maxHeight / height <= width
  {
    if height < maxHeight {
      Scale(maxWidth, width, maxHeight);
      Scale(height, maxHeight, maxWidth);
    }
    Scale(maxHeight, height, width);
    Quotient(width * maxHeight, height);
    QuotientBelow(width * maxHeight, height, maxWidth);
    QuotientBelow(width * maxHeight, height, width);
  }

  /** The fitted size is positive, lies in the box, and enlarges neither side; an image within the box keeps its size. */
  lemma FitsTheBox(width: int, height: int, maxWidth: int, maxHeight: int)
    requires width > 0 && height > 0 && maxWidth > 0 && maxHeight > 0
    ensures var (w, h) := FitDimensions(width, height, maxWidth, maxHeight);
            && 1 <= w <= maxWidth && 1 <= h <= maxHeight && w <= width && h <= height
            && (width <= maxWidth && height <= maxHeight ==> w == width && h == height)
  {
    if !(width <= maxWidth && height <= maxHeight) {
      if width * maxHeight > height * maxWidth {
        WideFits(width, height, maxWidth, maxHeight);
      } else {
        TallFits(width, height, maxWidth, maxHeight);
      }
    }
  }

  /** One side touches the box, and the other is the exact proportional length rounded down, unless that
      would be less than one pixel. */
  lemma KeepsAspect(width: int, height: int, maxWidth: int, maxHeight: int)
    requires width > 0 && height > 0 && maxWidth > 0 && maxHeight > 0
    requires !(width <= maxWidth && height <= maxHeight)
    ensures var (w, h) := FitDimensions(width, height, maxWidth, maxHeight);
            || (w == maxWidth && (h * width <= height * w < (h + 1) * width || (h == 1 && height * w < width)))
            || (h == maxHeight && (w * height <= width * h < (w + 1) * height || (w == 1 && width * h < height)))
  {
    if width * maxHeight > height * maxWidth {
      Quotient(height * maxWidth, width);
    } else {
      Quotient(width * maxHeight, height);
    }
  }

  // ---------------------------------------------------------------------------------- sampling

  /** The source line or column that target line or column `i` is taken from. */
  function SampleAt(i: int, size: int, target: int): int
    requires target > 0
  {
    i * size / target
  }

  /** Line or column `j` of the source is the one at the proportional place of target line or column `i`. */
  predicate AtPlace(i: int, size: int, target: int, j: int) {
    0 <= j < size && j * target <= i * size < (j + 1) * target
  }

  lemma SampleAtPlace(i: int, size: int, target: int)
    requires 0 <= i < target && size > 0
    ensures AtPlace(i, size, target, SampleAt(i, size, target))
  {
    SampleInBounds(i, size, target);
    Scale(0, i, size);
    Quotient(i * size, target);
  }

  lemma SamplesAtPlace(size: int, target: int)
    requires size > 0
    ensures forall i :: 0 <= i < target ==> AtPlace(i, size, target, SampleAt(i, size, target))
  {
    hide AtPlace, SampleAt;
    forall i | 0 <= i < target ensures AtPlace(i, size, target, SampleAt(i, size, target)) {
      SampleAtPlace(i, size, target);
    }
  }

  lemma SampleInBounds(i: int, size: int, target: int)
    requires 0 <= i < target && size > 0
    ensures 0 <= SampleAt(i, size, target) < size
  {
    Scale(i, target, size);
    Quotient(i * size, target);
    if SampleAt(i, size, target) >= size {
      Scale(size, SampleAt(i, size, target), target);
    }
  }

  /** Sampling keeps the order, and shrinking never takes a line twice. */
  lemma SampleMonotone(i: int, j: int, size: int, target: int)
    requires 0 <= i < j < target && size > 0
    ensures SampleAt(i, size, target) <= SampleAt(j, size, target)
    ensures target <= size ==> SampleAt(i, size, target) < SampleAt(j, size, target)
  {
    Scale(i + 1, j, size);
    assert (i + 1) * size == i * size + size;
    QuotientMonotone(i * size, j * size, target);
    if target <= size {
      QuotientStep(i * size, j * size, target);
    }
  }

  type Color = bv32

  /** Pixels by line and column, in the coordinates of the image's own bounds. */
  class Image {
    const minX: int
    const minY: int
    const pixels: array2<Color>

    constructor (minX: int, minY: int, pixels: array2<Color>)
      ensures this.minX == minX && this.minY == minY && this.pixels == pixels
    {
      this.minX, this.minY, this.pixels := minX, minY, pixels;
    }

    function Width(): nat { pixels.Length1 }

    function Height(): nat { pixels.Length0 }

    predicate InBounds(x: int, y: int) { minX <= x < minX + Width() && minY <= y < minY + Height() }

    function At(x: int, y: int): Color
      requires InBounds(x, y)
      reads pixels
    {
      pixels[y - minY, x - minX]
    }
  }

  /** The pixel is taken from within the source. */
  ghost predicate Copied(source: Image, pixels: array2<Color>, x: int, y: int)
    reads source.pixels, pixels
  {
    0 <= x < pixels.Length1 && 0 <= y < pixels.Length0 &&
    var sx := source.minX + SampleAt(x, source.Width(), pixels.Length1);
    var sy := source.minY + SampleAt(y, source.Height(), pixels.Length0);
    source.InBounds(sx, sy) && pixels[y, x] == source.At(sx, sy)
  }

  method CopyLine(source: Image, pixels: array2<Color>, y: nat)
    requires pixels != source.pixels && y < pixels.Length0 && source.Width() > 0 && source.Height() > 0
    modifies pixels
    ensures forall x :: 0 <= x < pixels.Length1 ==> Copied(source, pixels, x, y)
    ensures forall v, u :: 0 <= v < pixels.Length0 && 0 <= u < pixels.Length1 && v != y ==>
              pixels[v, u] == old(pixels[v, u])
  {
    SampleInBounds(y, source.Height(), pixels.Length0);
    var sourceY := source.minY + SampleAt(y, source.Height(), pixels.Length0);
    for x := 0 to pixels.Length1
      invariant forall u :: 0 <= u < x ==> Copied(source, pixels, u, y)
      invariant forall v, u :: 0 <= v < pixels.Length0 && 0 <= u < pixels.Length1 && v != y ==>
                  pixels[v, u] == old(pixels[v, u])
    {
      SampleInBounds(x, source.Width(), pixels.Length1);
      var sourceX := source.minX + SampleAt(x, source.Width(), pixels.Length1);
      label L:
      pixels[y, x] := source.At(sourceX, sourceY);
      assert source.InBounds(sourceX, sourceY);
      assert Copied(source, pixels, x, y);
      forall u | 0 <= u < x ensures Copied(source, pixels, u, y) {
        assert old@L(Copied(source, pixels, u, y));
        assert pixels[y, u] == old@L(pixels[y, u]);
      }
    }
  }

  method ResizeNearest(source: Image, width: nat, height: nat) returns (r: Image)
    requires width > 0 && height > 0 && source.Width() > 0 && source.Height() > 0
    ensures fresh(r) && fresh(r.pixels) && r.Width() == width && r.Height() == height && r.minX == r.minY == 0
    ensures forall x, y :: 0 <= x < width && 0 <= y < height ==> Copied(source, r.pixels, x, y)
    ensures forall x :: 0 <= x < width ==> AtPlace(x, source.Width(), width, SampleAt(x, source.Width(), width))
    ensures forall y :: 0 <= y < height ==> AtPlace(y, source.Height(), height, SampleAt(y, source.Height(), height))
  {
    var pixels := new Color[height, width];
    hide SampleAt, AtPlace;
    for y := 0 to height
      invariant forall v, u :: 0 <= v < y && 0 <= u < width ==> Copied(source, pixels, u, v)
    {
      CopyLine(source, pixels, y);
    }
    r := new Image(0, 0, pixels);
    SamplesAtPlace(source.Width(), width);
    SamplesAtPlace(source.Height(), height);
  }

  // ------------------------------------------------------------------------------- preparation

  /** The widest an image can be after `rounds` reductions by a fifth. */
  function Widest(rounds: nat): int {
    if rounds == 0 then MAX_WIDTH else Widest(rounds - 1) * 4 / 5
  }

  lemma EightReductions()
    ensures Widest(8) == MIN_WIDTH
  {
    assert Widest(1) == 1536;
    assert Widest(2) == 1228;
    assert Widest(3) == 982;
    assert Widest(4) == 785;
    assert Widest(5) == 628;
    assert Widest(6) == 502;
    assert Widest(7) == 401;
  }

  /** A side reduced by a fifth. */
  function FourFifths(size: int): int { size * 4 / 5 }

  /** A side after some reductions. */
  function Reduced(size: int, rounds: nat): int {
    if rounds == 0 then size else FourFifths(Reduced(size, rounds - 1))
  }

  /** The image is too small by then to be reduced again. */
  predicate Small(width: int, height: int, rounds: nat) {
    Reduced(width, rounds) <= MIN_WIDTH || Reduced(height, rounds) <= MIN_HEIGHT
  }

  /** The encoder's answer is an image, but over the limit. */
  predicate TooLong(encoder: nat -> Option<Bytes>, k: nat) {
    encoder(k).Some? && |encoder(k).value| > MAX_BYTES
  }

  /** The answers to `calls` questions about an image of this size: all but the last were too long, and the last is
      what ends the matter, or too long as well for an image that is too small to be reduced. The image was reduced
      after each six answers. */
  ghost predicate Encoded(
    encoder: nat -> Option<Bytes>, width: int, height: int, calls: nat, result: Option<Bytes>, encoded: Option<Image>)
  {
    && calls > 0
    && (forall k: nat :: k < calls - 1 ==> TooLong(encoder, k))
    && result == (if TooLong(encoder, calls - 1) then None else encoder(calls - 1))
    && (forall r: nat :: r < (calls - 1) / 6 ==> !Small(width, height, r))
    && (TooLong(encoder, calls - 1) ==> calls % 6 == 0 && Small(width, height, (calls - 1) / 6))
    && (result.Some? <==> encoded.Some?)
    && (encoded.Some? ==> encoded.value.Width() == Reduced(width, (calls - 1) / 6)
                          && encoded.value.Height() == Reduced(height, (calls - 1) / 6))
  }

  lemma RoundOf(rounds: nat, calls: nat)
    requires 6 * rounds < calls <= 6 * rounds + 6
    ensures (calls - 1) / 6 == rounds
    ensures calls % 6 == 0 <==> calls == 6 * rounds + 6
  {
  }

  /** One image at falling quality: the first answer that fits or is an error, else the last, too long one. */
  method EncodeWithin(encoder: nat -> Option<Bytes>, asked: nat) returns (output: Option<Bytes>, calls: nat)
    ensures asked < calls <= asked + 6 && output == encoder(calls - 1)
    ensures TooLong(encoder, calls - 1) <==> output.Some? && |output.value| > MAX_BYTES
    ensures TooLong(encoder, calls - 1) ==> calls == asked + 6
    ensures forall k: nat :: asked <= k < calls - 1 ==> TooLong(encoder, k)
  {
    var quality := 80;
    calls := asked;
    output := Some([]);
    while quality >= 30
      invariant 20 <= quality <= 80 && 10 * (calls - asked) == 80 - quality
      invariant calls > asked ==> output == encoder(calls - 1)
      invariant forall k: nat :: asked <= k < calls ==> TooLong(encoder, k)
    {
      output := encoder(calls);
      calls := calls + 1;
      if output.None? || |output.value| <= MAX_BYTES {
        return;
      }
      quality := quality - 10;
    }
  }

  /** After this many rounds of six answers, all of them too long, an image of this size has shrunk to `w` by `h`. */
  ghost predicate InRound(encoder: nat -> Option<Bytes>, width: int, height: int, w: int, h: int, rounds: nat) {
    && rounds <= 8
    && w == Reduced(width, rounds) && h == Reduced(height, rounds)
    && 1 <= w <= Widest(rounds) <= MAX_WIDTH && 1 <= h <= MAX_HEIGHT
    && (forall k: nat :: k < 6 * rounds ==> TooLong(encoder, k))
    && (forall r: nat :: r < rounds ==> !Small(width, height, r))
  }

  lemma FirstRound(encoder: nat -> Option<Bytes>, width: int, height: int)
    requires 1 <= width <= MAX_WIDTH && 1 <= height <= MAX_HEIGHT
    ensures InRound(encoder, width, height, width, height, 0)
  {
  }

  /** What the last round's answers make of all of them. */
  lemma LastRound(
      encoder: nat -> Option<Bytes>, width: int, height: int, w: int, h: int, rounds: nat, calls: nat,
      result: Option<Bytes>, encoded: Option<Image>)
    requires InRound(encoder, width, height, w, h, rounds) && 6 * rounds < calls <= 6 * rounds + 6
    requires forall k: nat :: 6 * rounds <= k < calls - 1 ==> TooLong(encoder, k)
    requires TooLong(encoder, calls - 1) ==> calls == 6 * rounds + 6 && (w <= MIN_WIDTH || h <= MIN_HEIGHT)
    requires result == if TooLong(encoder, calls - 1) then None else encoder(calls - 1)
    requires result.Some? <==> encoded.Some?
    requires encoded.Some? ==> encoded.value.Width() == w && encoded.value.Height() == h
    ensures Encoded(encoder, width, height, calls, result, encoded)
    ensures calls <= 54 && 1 <= w <= MAX_WIDTH && 1 <= h <= MAX_HEIGHT
  {
    RoundOf(rounds, calls);
    assert TooLong(encoder, calls - 1) ==> Small(width, height, rounds);
    hide Reduced, Small, TooLong;
  }

  /** One more reduction of an image that is not small yet. */
  lemma NextRound(encoder: nat -> Option<Bytes>, width: int, height: int, w: int, h: int, rounds: nat)
    requires InRound(encoder, width, height, w, h, rounds) && MIN_WIDTH < w && MIN_HEIGHT < h
    requires forall k: nat :: 6 * rounds <= k < 6 * rounds + 6 ==> TooLong(encoder, k)
    ensures rounds < 8 && InRound(encoder, width, height, FourFifths(w), FourFifths(h), rounds + 1)
  {
    EightReductions();
    assert !Small(width, height, rounds);
    hide Small, TooLong;
  }

  /** The image at four fifths of its size. */
  method Shrink(image: Image) returns (smaller: Image)
    requires image.Width() > 1 && image.Height() > 1
    ensures smaller.Width() == FourFifths(image.Width()) && smaller.Height() == FourFifths(image.Height())
  {
    hide SampleAt, AtPlace, Copied;
    smaller := ResizeNearest(image, image.Width() * 4 / 5, image.Height() * 4 / 5);
  }

  /** Encodes, and reduces an image that stays too long by a fifth, until it fits or is small enough to give up. */
  method EncodeShrinking(source: Image, encoder: nat -> Option<Bytes>)
    returns (result: Option<Bytes>, encoded: Option<Image>, calls: nat)
    requires 1 <= source.Width() <= MAX_WIDTH && 1 <= source.Height() <= MAX_HEIGHT
    ensures 0 < calls <= 54
    ensures Encoded(encoder, source.Width(), source.Height(), calls, result, encoded)
    ensures result.Some? ==> |result.value| <= MAX_BYTES && encoder(calls - 1) == result
    ensures result.Some? ==>
              encoded.Some? && 1 <= encoded.value.Width() <= MAX_WIDTH && 1 <= encoded.value.Height() <= MAX_HEIGHT
  {
    var current := source;
    var round := 0;
    calls := 0;
    hide Encoded, InRound, FourFifths, TooLong;
    FirstRound(encoder, source.Width(), source.Height());
    while true
      invariant InRound(encoder, source.Width(), source.Height(), current.Width(), current.Height(), round)
      invariant calls == 6 * round && round <= 8
      decreases 8 - round
    {
      result, calls := EncodeWithin(encoder, calls);
      if result.None? || |result.value| <= MAX_BYTES {
        encoded := if result.Some? then Some(current) else None;
        LastRound(encoder, source.Width(), source.Height(), current.Width(), current.Height(), round, calls, result, encoded);
        return;
      }
      if current.Width() <= MIN_WIDTH || current.Height() <= MIN_HEIGHT {
        LastRound(encoder, source.Width(), source.Height(), current.Width(), current.Height(), round, calls, None, None);
        return None, None, calls;
      }
      NextRound(encoder, source.Width(), source.Height(), current.Width(), current.Height(), round);
      current := Shrink(current);
      round := round + 1;
    }
  }

  /** `decoded` is the JPEG that the bytes decode to, if they do; `encoder(k)` is what the encoder answers when
      it is asked for the k-th time: an error, or bytes of any length. Whatever it answers, it is asked at most
      54 times, and a result fits the limit and was made from an image within the box. */
  method PrepareGuideImage(decoded: Option<Image>, raw: Bytes, encoder: nat -> Option<Bytes>)
    returns (result: Option<Bytes>, encoded: Option<Image>, calls: nat)
    ensures calls <= 54
    ensures result.Some? ==> |result.value| <= MAX_BYTES
    ensures result.Some? ==>
              encoded.Some? && 1 <= encoded.value.Width() <= MAX_WIDTH && 1 <= encoded.value.Height() <= MAX_HEIGHT
    ensures result.Some? ==>
              (calls == 0 && result.value == raw && encoded == decoded) || (calls > 0 && encoder(calls - 1) == result)
    ensures calls == 0 && result.Some? <==>
              decoded.Some? && 1 <= decoded.value.Width() <= MAX_WIDTH && 1 <= decoded.value.Height() <= MAX_HEIGHT
              && |raw| <= MAX_BYTES
    ensures decoded.None? ==> result.None?
    ensures decoded.Some? && 1 <= decoded.value.Width() && 1 <= decoded.value.Height() && calls > 0 ==>
              var (width, height) := FitDimensions(decoded.value.Width(), decoded.value.Height(), MAX_WIDTH, MAX_HEIGHT);
              Encoded(encoder, width, height, calls, result, encoded)
    ensures calls == 0 ==> result.Some? || decoded.None? || decoded.value.Width() < 1 || decoded.value.Height() < 1
  {
    calls := 0;
    if decoded.None? {
      return None, None, 0;
    }
    var source := decoded.value;
    var width, height := source.Width(), source.Height();
    if width < 1 || height < 1 {
      return None, None, 0;
    }
    if width <= MAX_WIDTH && height <= MAX_HEIGHT && |raw| <= MAX_BYTES {
      return Some(raw), decoded, 0;
    }
    FitsTheBox(width, height, MAX_WIDTH, MAX_HEIGHT);
    var (targetWidth, targetHeight) := FitDimensions(width, height, MAX_WIDTH, MAX_HEIGHT);
    var current := source;
    if targetWidth != width || targetHeight != height {
      current := ResizeNearest(source, targetWidth, targetHeight);
    }
    result, encoded, calls := EncodeShrinking(current, encoder);
  }
}
