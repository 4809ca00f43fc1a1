/** The cropping step: the photo standard the crop box is shaped by, the size
    of the crop box in the window, the size of the cropped output, and the
    cropper's pan, zoom and rotation state. Lengths of the standard are
    millimetres; the crop box and the output are pixels. */
module SimpleCropper {
  import opened Basics
  import opened Types

  /** `PHOTO_STANDARDS[key] || PHOTO_STANDARDS['CUSTOM_15_18']`: the standard
      stored under `key`, or the default standard when there is none. */
  function StandardFor(key: string): (r: PhotoStandard)
    ensures StandardNamed(key).Some? ==> r == StandardNamed(key).value
    ensures StandardNamed(key).None? ==> r == PhotoStandards[0].1
    ensures exists i :: 0 <= i < |PhotoStandards| && PhotoStandards[i].1 == r
    ensures r.width > 0.0 && r.height > 0.0
  {
    var found := StandardNamed(key);
    if found.Some? then found.value
    else
      DefaultSizeIsDefaultStandard();
      StandardNamed(DefaultStandardKey).value
  }

  /** The standard's width over its height: the shape of the crop box and of
      the output image. It agrees with the ratio stored in the table. */
  function AspectRatio(key: string): (r: real)
    ensures r > 0.0
    ensures r == StandardFor(key).ratio
  {
    var standard := StandardFor(key);
    standard.width / standard.height
  }

  /** The size of the browser window, when there is one. */
  datatype WindowSize = WindowSize(innerWidth: real, innerHeight: real)

  /** The limits the crop box must stay inside: 80% of the window's width and
      half its height, or 400 x 400 pixels when there is no window. Returned
      as (maxWidth, maxHeight). */
  function CropBoxLimits(window: Option<WindowSize>): (r: (real, real))
    ensures window.None? ==> r == (400.0, 400.0)
    ensures window.Some? ==> r.0 == window.value.innerWidth * 0.8 && r.1 == window.value.innerHeight * 0.5
  {
    match window
    case None => (400.0, 400.0)
    case Some(w) => (w.innerWidth * 0.8, w.innerHeight * 0.5)
  }

  /** The largest height the crop box may take: 400 pixels, or less when the
      window is short. */
  function HeightCap(maxHeight: real): real
  {
    Min(400.0, maxHeight)
  }

  /** A crop box `height` tall in the standard's shape stays inside both
      limits. */
  predicate FitsLimits(height: real, aspectRatio: real, maxWidth: real, maxHeight: real)
  {
    height <= HeightCap(maxHeight) && height * aspectRatio <= maxWidth
  }

  /** Crop-box sizing: start at the height cap with the standard's shape, and
      when that is too wide narrow it to the width limit, keeping the shape.
      The result is the largest box of that shape inside both limits. */
  method CropBoxSize(maxWidth: real, maxHeight: real, aspectRatio: real) returns (width: real, height: real)
    requires aspectRatio > 0.0
    ensures width == height * aspectRatio
    ensures width == Min(HeightCap(maxHeight) * aspectRatio, maxWidth)
    ensures FitsLimits(height, aspectRatio, maxWidth, maxHeight)
    ensures forall h :: FitsLimits(h, aspectRatio, maxWidth, maxHeight) ==> h <= height
  {
    height := Min(400.0, maxHeight);
    width := height * aspectRatio;
    if width > maxWidth {
      width := maxWidth;
      height := width / aspectRatio;
      CroppedHeightBelowCap(maxWidth, HeightCap(maxHeight), aspectRatio);
      DivTimes(maxWidth, aspectRatio);
      assert width == height * aspectRatio;
      forall h | FitsLimits(h, aspectRatio, maxWidth, maxHeight)
        ensures h <= height
      {
        RatioAtMostInverse(h, maxWidth, aspectRatio);
      }
    }
  }

  /** The crop box the cropper shows for the standard `key`: sized by the
      window's limits, or by 400 x 400 without a window. It has the
      standard's shape, stays inside 80% of the window's width and half its
      height, is the tallest such box, and has no negative side in a window
      of non-negative size. */
  method CropBoxFor(window: Option<WindowSize>, key: string) returns (width: real, height: real)
    ensures width == height * AspectRatio(key)
    ensures window.None? ==> width <= 400.0 && height <= 400.0
    ensures window.Some? ==> width <= window.value.innerWidth * 0.8 && height <= window.value.innerHeight * 0.5
    ensures window.None? || (window.value.innerWidth >= 0.0 && window.value.innerHeight >= 0.0) ==>
              0.0 <= width && 0.0 <= height
    ensures forall h :: FitsLimits(h, AspectRatio(key), CropBoxLimits(window).0, CropBoxLimits(window).1) ==> h <= height
  {
    var limits := CropBoxLimits(window);
    var aspectRatio := AspectRatio(key);
    width, height := CropBoxSize(limits.0, limits.1, aspectRatio);
    if window.None? || (window.value.innerWidth >= 0.0 && window.value.innerHeight >= 0.0) {
      assert FitsLimits(0.0, aspectRatio, limits.0, limits.1);
      MulLeft(0.0, height, aspectRatio);
    }
  }

  /** Narrowing to the width limit gives a height below the cap. */
  lemma CroppedHeightBelowCap(maxWidth: real, cap: real, aspectRatio: real)
    requires aspectRatio > 0.0 && cap * aspectRatio > maxWidth
    ensures maxWidth / aspectRatio < cap
  {
    DivTimes(maxWidth, aspectRatio);
    if maxWidth / aspectRatio >= cap {
      MulLeft(cap, maxWidth / aspectRatio, aspectRatio);
    }
  }

  /** A height whose width stays inside the limit is at most the limit over
      the ratio. */
  lemma RatioAtMostInverse(h: real, maxWidth: real, aspectRatio: real)
    requires aspectRatio > 0.0 && h * aspectRatio <= maxWidth
    ensures h <= maxWidth / aspectRatio
  {
    DivTimes(maxWidth, aspectRatio);
    if h > maxWidth / aspectRatio {
      MulLeftStrict(maxWidth / aspectRatio, h, aspectRatio);
    }
  }

  /** The cropped image is 1200 pixels wide and as tall as the standard's
      shape makes it. Returned as (width, height). */
  function OutputSize(aspectRatio: real): (r: (real, real))
    requires aspectRatio > 0.0
    ensures r.0 == 1200.0 && r.1 > 0.0
    ensures r.1 * aspectRatio == r.0
  {
    (1200.0, 1200.0 / aspectRatio)
  }

  /** The output image has the crop box's shape. */
  lemma OutputMatchesCropBox(aspectRatio: real, boxWidth: real, boxHeight: real)
    requires aspectRatio > 0.0 && boxHeight != 0.0
    requires boxWidth == boxHeight * aspectRatio
    ensures OutputSize(aspectRatio).0 / OutputSize(aspectRatio).1 == boxWidth / boxHeight
  {
    var out := OutputSize(aspectRatio);
    assert out.0 == out.1 * aspectRatio;
    assert out.0 / out.1 == aspectRatio;
    assert boxWidth / boxHeight == aspectRatio;
  }

  /** The output heights of the four standards. */
  lemma OutputHeightsOfTable()
    ensures OutputSize(AspectRatio(DefaultStandardKey)).1 == 1440.0
    ensures OutputSize(AspectRatio("US_PASSPORT")).1 == 1200.0
    ensures OutputSize(AspectRatio("ID_PHOTO")).1 == 1600.0
  {
    assert PhotoStandards[0].0 == DefaultStandardKey;
    assert PhotoStandards[1].0 == "US_PASSPORT";
    assert PhotoStandards[3].0 == "ID_PHOTO";
  }

  /** What a completed crop hands back: the cropped image and the chosen
      standard's size in millimetres. */
  datatype CropReport = CropReport(croppedImage: string, width: real, height: real)

  /** The cropper's state. The cropped image itself is drawn through a canvas
      transform and is a parameter of `Crop`. */
  class CropperState {
    var selectedStandardKey: string
    var scale: real
    var position: (real, real)
    var rotation: int

    /** Rotation only ever moves in quarter turns. */
    ghost predicate Valid()
      reads this
    {
      rotation % 90 == 0
    }

    /** The cropper opens on the standard it was given, `CUSTOM_15_18` when
        none was, with the image centred, unzoomed and unrotated. */
    constructor(initialStandardKey: Option<string>)
      ensures selectedStandardKey == (if initialStandardKey.Some? then initialStandardKey.value else DefaultStandardKey)
      ensures position == (0.0, 0.0) && scale == 1.0 && rotation == 0
      ensures Valid()
    {
      selectedStandardKey := if initialStandardKey.Some? then initialStandardKey.value else DefaultStandardKey;
      position := (0.0, 0.0);
      scale := 1.0;
      rotation := 0;
    }

    /** The standard the crop box is shaped by. */
    function Standard(): PhotoStandard
      reads this
    {
      StandardFor(selectedStandardKey)
    }

    /** A new image recentres, unzooms and unrotates; the standard stays. */
    method ResetForNewImage()
      modifies this
      ensures position == (0.0, 0.0) && scale == 1.0 && rotation == 0
      ensures selectedStandardKey == old(selectedStandardKey)
      ensures Valid()
    {
      position := (0.0, 0.0);
      scale := 1.0;
      rotation := 0;
    }

    method RotateLeft()
      requires Valid()
      modifies this
      ensures rotation == old(rotation) - 90
      ensures position == old(position) && scale == old(scale) && selectedStandardKey == old(selectedStandardKey)
      ensures Valid()
    {
      rotation := rotation - 90;
    }

    method RotateRight()
      requires Valid()
      modifies this
      ensures rotation == old(rotation) + 90
      ensures position == old(position) && scale == old(scale) && selectedStandardKey == old(selectedStandardKey)
      ensures Valid()
    {
      rotation := rotation + 90;
    }

    method ResetRotation()
      modifies this
      ensures rotation == 0
      ensures position == old(position) && scale == old(scale) && selectedStandardKey == old(selectedStandardKey)
      ensures Valid()
    {
      rotation := 0;
    }

    /** Choosing a standard from the selector; any key is stored, and an
        unknown one shapes the box as the default standard. */
    method SelectStandard(key: string)
      requires Valid()
      modifies this
      ensures selectedStandardKey == key
      ensures position == old(position) && scale == old(scale) && rotation == old(rotation)
      ensures Valid()
    {
      selectedStandardKey := key;
    }

    /** Completing the crop: nothing happens while the crop box, the image or
        the drawing context is missing; otherwise the image goes back together with the
        standard's width and height in millimetres, whose ratio is the crop
        box's shape. */
    method Crop(mounted: bool, croppedImage: string) returns (report: Option<CropReport>)
      ensures !mounted ==> report.None?
      ensures mounted ==> report == Some(CropReport(croppedImage, Standard().width, Standard().height))
      ensures report.Some? ==> report.value.width / report.value.height == AspectRatio(selectedStandardKey)
    {
      if !mounted {
        return None;
      }
      var standard := StandardFor(selectedStandardKey);
      report := Some(CropReport(croppedImage, standard.width, standard.height));
    }
  }

  /** An unknown key shapes the crop exactly as the default key does. */
  lemma UnknownKeyFallsBackToDefault(key: string)
    requires StandardNamed(key).None?
    ensures StandardFor(key) == StandardFor(DefaultStandardKey)
    ensures AspectRatio(key) == AspectRatio(DefaultStandardKey)
  {
    DefaultSizeIsDefaultStandard();
  }
}
