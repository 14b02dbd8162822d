/** `processImage`: fit the photo into the preview box, then expose, add
    noise, pick the blur radius and check the exposure of the result. */
module Pipeline {
  import opened Camera
  import opened Pixels
  import opened Histogram
  import opened Optional

  /** The preview box. */
  const MaxWidth: nat := 800
  const MaxHeight: nat := 500

  datatype Size = Size(width: nat, height: nat)

  /** `Math.min(800 / width, 500 / height, 1)`: a side of length 0 gives an
      infinite ratio, which never wins the minimum. */
  function FitScale(width: nat, height: nat): (scale: real)
    ensures 0.0 < scale <= 1.0
    ensures width > 0 ==> scale <= MaxWidth as real / width as real
    ensures height > 0 ==> scale <= MaxHeight as real / height as real
    ensures scale == 1.0 || (width > 0 && scale == MaxWidth as real / width as real) ||
            (height > 0 && scale == MaxHeight as real / height as real)
  {
    var s := 1.0;
    var s := if width > 0 && MaxWidth as real / width as real < s then MaxWidth as real / width as real else s;
    if height > 0 && MaxHeight as real / height as real < s then MaxHeight as real / height as real else s
  }

  /** The canvas size: each side times the scale, rounded down. It fits the
      box and is never larger than the photo. */
  function FitToBox(image: Size): (size: Size)
    ensures size.width <= MaxWidth && size.height <= MaxHeight
    ensures size.width <= image.width && size.height <= image.height
  {
    var scale := FitScale(image.width, image.height);
    SideWithinBound(image.width, scale, MaxWidth);
    SideWithinBound(image.height, scale, MaxHeight);
    Size(ScaledSide(image.width, scale), ScaledSide(image.height, scale))
  }

  /** `Math.floor(side * scale)` for a scale in (0, 1]: never longer than the side. */
  function ScaledSide(side: nat, scale: real): (r: nat)
    requires 0.0 < scale <= 1.0
    ensures r <= side
  {
    ScaleAtMostOne(side as real, scale);
    (side as real * scale).Floor
  }

  lemma ScaleAtMostOne(x: real, scale: real)
    requires x >= 0.0 && 0.0 < scale <= 1.0
    ensures 0.0 <= x * scale <= x
  {
  }

  /** A side scaled by at most `bound / side` is at most `bound` long. */
  lemma SideWithinBound(side: nat, scale: real, bound: nat)
    requires 0.0 < scale <= 1.0
    requires side > 0 ==> scale <= bound as real / side as real
    ensures ScaledSide(side, scale) <= bound
  {
    if side > 0 {
      assert side as real * scale <= side as real * (bound as real / side as real);
    }
  }

  /** A photo that already fits keeps its size. */
  lemma FitToBoxKeepsFitting(image: Size)
    requires image.width <= MaxWidth && image.height <= MaxHeight
    ensures FitToBox(image) == image
  {
    if image.width > 0 {
      RatioAtLeastOne(MaxWidth, image.width);
    }
    if image.height > 0 {
      RatioAtLeastOne(MaxHeight, image.height);
    }
    assert FitScale(image.width, image.height) == 1.0;
  }

  lemma RatioAtLeastOne(bound: nat, side: nat)
    requires 0 < side <= bound
    ensures bound as real / side as real >= 1.0
  {
  }

  /** A photo that does not fit is shrunk until one side meets the box. */
  lemma FitToBoxFills(image: Size)
    requires image.width > MaxWidth || image.height > MaxHeight
    ensures FitToBox(image).width == MaxWidth || FitToBox(image).height == MaxHeight
  {
    var scale := FitScale(image.width, image.height);
    if image.width > 0 && scale == MaxWidth as real / image.width as real {
      assert image.width as real * scale == MaxWidth as real;
    } else {
      assert image.height as real * scale == MaxHeight as real;
    }
  }

  /** What one run of `processImage` leaves behind: the canvas size, the blur
      radius of the preview filter (none when 0), and the exposure check. */
  datatype Rendering = Rendering(size: Size, blur: int, status: ExposureStatus, report: seq<ExposureReport>)

  /** How `processImage` ends: no photo loaded; `getImageData` refused a
      canvas with an empty side and threw, so nothing after it ran; or a
      rendering. */
  datatype Outcome = NoImage | Failed | Rendered(rendering: Rendering)

  /** `getImageData` accepts the canvas: neither side is empty. */
  predicate Drawable(size: Size)
  {
    size.width > 0 && size.height > 0
  }

  /** The buffer `getImageData` returns for a drawable canvas holds four bytes
      per pixel of the fitted size. */
  predicate BufferFits(image: Option<Size>, length: nat)
  {
    image.Some? && Drawable(FitToBox(image.value)) ==>
      length == 4 * (FitToBox(image.value).width * FitToBox(image.value).height)
  }

  /** What `processImage` promises for the parameters `p`, the loaded photo,
      the buffer drawn from it (`before`), the buffer left behind (`after`)
      and the random draws: with no photo, or a canvas `getImageData`
      refuses, the buffer is untouched; otherwise it is exposed then noised,
      the size is the fitted one, the blur the radius for the aperture, and
      the status the classification of the final buffer, reported exactly
      when it is not ok. */
  predicate ProcessedAs(p: Params, image: Option<Size>, before: seq<Byte>, after: seq<Byte>, rand: nat -> real, r: Outcome)
    requires ValidParams(p)
  {
    if image.None? then r == NoImage && after == before
    else if !Drawable(FitToBox(image.value)) then r == Failed && after == before
    else
      ValidParamsFactor(p);
      |before| % 4 == 0
      && after == Noised(Exposed(before, ExposureFactor(p)), p.iso, rand)
      && r.Rendered? && r.rendering.size == FitToBox(image.value)
      && r.rendering.blur == BlurRadius(p.aperture)
      && r.rendering.status == StatusOf(StatsOf(after))
      && (r.rendering.report != [] <==> r.rendering.status != Ok)
  }

  /** `processImage` for the settings of `session`. `pixels` is the buffer
      the photo was drawn into at the fitted size; it is exposed and noised
      in place, and its exposure checked. */
  method ProcessImage(session: Session, image: Option<Size>, pixels: array<Byte>, rand: nat -> real)
    returns (r: Outcome)
    requires session.Valid() && BufferFits(image, pixels.Length)
    modifies pixels
    ensures ProcessedAs(session.Current(), image, old(pixels[..]), pixels[..], rand, r)
  {
    if image.None? {
      return NoImage;
    }
    var size := FitToBox(image.value);
    if !Drawable(size) {
      return Failed;
    }
    FourPerPixel(size.width * size.height);
    ValidParamsFactor(session.Current());
    var exposureFactor := ExposureFactor(session.Current());
    var blurAmount := BlurRadius(session.aperture);
    ApplyExposure(pixels, exposureFactor);
    ApplyNoise(pixels, session.iso, rand);
    var status, report := CheckExposure(pixels);
    r := Rendered(Rendering(size, blurAmount, status, report));
  }

  lemma FourPerPixel(n: nat)
    ensures (4 * n) % 4 == 0
  {
  }

  /** `updateParameter`: the named parameter takes entry `index` of its list,
      then the photo is processed again with the new settings. */
  method UpdateParameterAndRender(session: Session, paramType: string, index: nat,
                                  image: Option<Size>, pixels: array<Byte>, rand: nat -> real)
    returns (r: Outcome)
    requires paramType == "aperture" ==> index < |ApertureValues|
    requires paramType == "shutter" ==> index < |ShutterValues|
    requires paramType == "iso" ==> index < |IsoValues|
    requires session.Valid() && BufferFits(image, pixels.Length)
    modifies session, pixels
    ensures paramType == "aperture" ==> session.Current() == old(session.Current()).(aperture := ApertureValues[index])
    ensures paramType == "shutter" ==> session.Current() == old(session.Current()).(shutter := ShutterValues[index])
    ensures paramType == "iso" ==> session.Current() == old(session.Current()).(iso := IsoValues[index])
    ensures paramType !in {"aperture", "shutter", "iso"} ==> session.Current() == old(session.Current())
    ensures session.Valid() && ProcessedAs(session.Current(), image, old(pixels[..]), pixels[..], rand, r)
  {
    session.UpdateParameter(paramType, index);
    r := ProcessImage(session, image, pixels, rand);
  }

  /** `selectApertureByIndex`: the picked aperture, then the photo processed again. */
  method SelectApertureAndRender(session: Session, index: nat, image: Option<Size>, pixels: array<Byte>, rand: nat -> real)
    returns (r: Outcome)
    requires index < |ApertureValues| && session.Valid() && BufferFits(image, pixels.Length)
    modifies session, pixels
    ensures session.Current() == old(session.Current()).(aperture := ApertureValues[index])
    ensures session.Valid() && ProcessedAs(session.Current(), image, old(pixels[..]), pixels[..], rand, r)
  {
    session.SelectApertureByIndex(index);
    r := ProcessImage(session, image, pixels, rand);
  }

  /** `selectShutterByIndex`: the picked shutter, then the photo processed again. */
  method SelectShutterAndRender(session: Session, index: nat, image: Option<Size>, pixels: array<Byte>, rand: nat -> real)
    returns (r: Outcome)
    requires index < |ShutterValues| && session.Valid() && BufferFits(image, pixels.Length)
    modifies session, pixels
    ensures session.Current() == old(session.Current()).(shutter := ShutterValues[index])
    ensures session.Valid() && ProcessedAs(session.Current(), image, old(pixels[..]), pixels[..], rand, r)
  {
    session.SelectShutterByIndex(index);
    r := ProcessImage(session, image, pixels, rand);
  }

  /** `selectISOByIndex`: the picked ISO, then the photo processed again. */
  method SelectIsoAndRender(session: Session, index: nat, image: Option<Size>, pixels: array<Byte>, rand: nat -> real)
    returns (r: Outcome)
    requires index < |IsoValues| && session.Valid() && BufferFits(image, pixels.Length)
    modifies session, pixels
    ensures session.Current() == old(session.Current()).(iso := IsoValues[index])
    ensures session.Valid() && ProcessedAs(session.Current(), image, old(pixels[..]), pixels[..], rand, r)
  {
    session.SelectIsoByIndex(index);
    r := ProcessImage(session, image, pixels, rand);
  }

  /** A photo one pixel wide and 10 000 high fits to a canvas with no width,
      which `getImageData` refuses. */
  lemma ThinPhotoFails()
    ensures !Drawable(FitToBox(Size(1, 10000)))
  {
    assert FitScale(1, 10000) == 0.05;
  }
}
