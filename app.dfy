/** The application shell: which of the three screens is shown, the
    transitions between them, the photo-count clamp, the slider's range, the
    matching of the configured photo size to a named standard, and the page
    size handed to the printer. */
module App {
  import opened Basics
  import opened Types
  import SimpleCropper

  /** The flow step. */
  datatype Step = Upload | Crop | Editor

  /** The screen rendered. */
  datatype View = LandingView | CropperView | EditorView

  /** A JavaScript string is truthy when it is present and not empty. */
  predicate PresentString(s: Option<string>)
  {
    s.Some? && s.value != ""
  }

  /** A JavaScript number is truthy when it is present and not zero. */
  predicate PresentNumber(x: Option<real>)
  {
    x.Some? && x.value != 0.0
  }

  /** The landing page whenever the step is `upload` or no original image is
      loaded; otherwise the cropper on `crop` and the editor on `editor`. */
  function ViewFor(step: Step, originalImage: Option<string>): (r: View)
    ensures r == LandingView <==> step == Upload || !PresentString(originalImage)
    ensures r == CropperView <==> step == Crop && PresentString(originalImage)
    ensures r == EditorView <==> step == Editor && PresentString(originalImage)
  {
    if step == Upload || !PresentString(originalImage) then LandingView
    else match step
      case Crop => CropperView
      case Editor => EditorView
  }

  /** The hard cap on the photo count. */
  const PhotoCountCap: int := 50

  /** The clamp effect's new photo count: with auto-scale off a count above
      the capacity estimate drops to the estimate; otherwise a count above 50
      drops to 50. */
  function ClampedPhotoCount(photoCount: int, autoScale: bool, maxPhotos: int): (r: int)
    ensures r <= photoCount
    ensures autoScale ==> r == (if photoCount <= PhotoCountCap then photoCount else PhotoCountCap)
    ensures !autoScale ==> r <= maxPhotos
    ensures !autoScale && photoCount > maxPhotos ==> r == maxPhotos
    ensures photoCount > PhotoCountCap && (autoScale || photoCount <= maxPhotos) ==> r == PhotoCountCap
    ensures photoCount <= PhotoCountCap && (autoScale || photoCount <= maxPhotos) ==> r == photoCount
  {
    if !autoScale && photoCount > maxPhotos then maxPhotos
    else if photoCount > PhotoCountCap then PhotoCountCap
    else photoCount
  }

  /** Clamping twice is clamping once whenever the estimate is not above the
      hard cap or auto-scale is on. */
  lemma ClampIdempotent(photoCount: int, autoScale: bool, maxPhotos: int)
    requires autoScale || maxPhotos <= PhotoCountCap
    ensures var once := ClampedPhotoCount(photoCount, autoScale, maxPhotos);
            ClampedPhotoCount(once, autoScale, maxPhotos) == once
  {
  }

  /** With auto-scale off and an estimate above 50, a count above the estimate
      is clamped to the estimate, which is above the hard cap; clamping that
      again gives 50. */
  lemma ClampCanLeaveCountAboveCap()
    ensures ClampedPhotoCount(120, false, 100) == 100 > PhotoCountCap
    ensures ClampedPhotoCount(100, false, 100) == PhotoCountCap
  {
  }

  /** With auto-scale off and an estimate of zero, the clamp sets the count to
      zero, below the slider's minimum. */
  lemma ClampCanReachZero(photoCount: int)
    requires photoCount > 0
    ensures ClampedPhotoCount(photoCount, false, 0) == 0
  {
  }

  /** The estimates the editor's controls can produce: for every paper and
      orientation, every standard's size and every gap the gap slider
      offers (0 to 10 mm), the estimate is between 4 and 51. */
  lemma EstimateWithinControls(paper: PaperSize, orientation: Orientation, margin: real, gap: real, i: int)
    requires 0.0 <= gap <= 10.0 && 0 <= i < |PhotoStandards|
    ensures CellArea(gap, PhotoStandards[i].1.width, PhotoStandards[i].1.height) >= 1200.0
    ensures 4 <= CalculateMaxPhotos(paper, orientation, margin, gap, PhotoStandards[i].1.width, PhotoStandards[i].1.height) <= 51
  {
    StandardCellBounds(gap, i);
    MaxPhotosBounds(paper, orientation, margin, gap, PhotoStandards[i].1.width, PhotoStandards[i].1.height);
  }

  /** A cell of 1200 to 3696.64 square millimetres fits 4 to 51 times on
      every page. */
  lemma MaxPhotosBounds(paper: PaperSize, orientation: Orientation, margin: real, gap: real, photoW: real, photoH: real)
    requires 1200.0 <= CellArea(gap, photoW, photoH) <= 3696.64
    ensures 4 <= CalculateMaxPhotos(paper, orientation, margin, gap, photoW, photoH) <= 51
  {
    var page := PageSizeMm(paper, orientation);
    PageAreaBounds(paper, orientation);
    EstimateBracket(CalculateMaxPhotos(paper, orientation, margin, gap, photoW, photoH),
                    page.0 * page.1, CellArea(gap, photoW, photoH));
  }

  /** A standard's cell, padded by a gap the slider offers, covers between
      1200 and 3696.64 square millimetres. */
  lemma StandardCellBounds(gap: real, i: int)
    requires 0.0 <= gap <= 10.0 && 0 <= i < |PhotoStandards|
    ensures 1200.0 <= CellArea(gap, PhotoStandards[i].1.width, PhotoStandards[i].1.height) <= 3696.64
  {
    var s := PhotoStandards[i].1;
    assert 30.0 <= s.width <= 50.8 && 40.0 <= s.height <= 50.8;
    MulBothLe(30.0, s.width + gap, 40.0, s.height + gap);
    MulBothLe(s.width + gap, 60.8, s.height + gap, 60.8);
  }

  /** Every page covers between 15483.84 (4x6") and 62370 (A4) square
      millimetres, in either orientation. */
  lemma PageAreaBounds(paper: PaperSize, orientation: Orientation)
    ensures var page := PageSizeMm(paper, orientation);
            15483.84 <= page.0 * page.1 <= 62370.0
  {
  }

  /** The count of cells that fits a page, for a page and a cell of the
      sizes above. */
  lemma EstimateBracket(r: int, area: real, cell: real)
    requires r >= 0 && 1200.0 <= cell <= 3696.64 && 15483.84 <= area <= 62370.0
    requires r as real * cell <= area < (r + 1) as real * cell
    ensures 4 <= r <= 51
  {
    var k := r as real;
    MulLeft(1200.0, cell, k);
    assert 1200.0 * k <= cell * k == k * cell;
    assert k * cell <= area;
    assert 1200.0 * k <= 62370.0;
    assert k <= 51.975;
    var k1 := (r + 1) as real;
    MulLeft(cell, 3696.64, k1);
    assert k1 * cell == cell * k1 <= 3696.64 * k1;
    assert area < k1 * cell;
    assert 15483.84 < 3696.64 * k1;
    assert 4.18 < k1;
  }

  /** The slider can set a count the clamp would lower, and the effect does
      not run then: on A4 with 30 x 40 mm photos and no gap the estimate is
      51, the slider reaches 51, above the hard cap, and a clamp would give
      50. */
  lemma SliderReachesAboveCap(orientation: Orientation, margin: real)
    ensures CalculateMaxPhotos(A4, orientation, margin, 0.0, 30.0, 40.0) == 51
    ensures PhotoCountRange(51).1 == 51 > PhotoCountCap
    ensures ClampedPhotoCount(51, false, 51) == PhotoCountCap
  {
    var r := CalculateMaxPhotos(A4, orientation, margin, 0.0, 30.0, 40.0);
    assert CellArea(0.0, 30.0, 40.0) == 1200.0;
    var page := PageSizeMm(A4, orientation);
    assert page.0 * page.1 == 62370.0;
  }

  /** When a dependency of the clamp effect then changes, the count drops to
      the new estimate if that is below 50: raising the gap to 1 mm in the
      case above gives an estimate of 49, and the count of 51 becomes 49. */
  lemma GapChangeClampsToEstimate(orientation: Orientation, margin: real)
    ensures CalculateMaxPhotos(A4, orientation, margin, 1.0, 30.0, 40.0) == 49
    ensures ClampedPhotoCount(51, false, 49) == 49
    ensures ClampedPhotoCount(51, true, 49) == PhotoCountCap
  {
    assert CellArea(1.0, 30.0, 40.0) == 1271.0;
    var page := PageSizeMm(A4, orientation);
    assert page.0 * page.1 == 62370.0;
  }

  /** The photo-count slider's range as (min, max): from 1 to the larger of 20
      and the capacity estimate. */
  function PhotoCountRange(maxPhotos: int): (r: (int, int))
    ensures r.0 == 1
    ensures r.1 >= 20 && r.1 >= maxPhotos
    ensures r.1 == 20 || r.1 == maxPhotos
  {
    (1, MaxInt(20, maxPhotos))
  }

  /** A count the slider can produce stays inside the slider's range after
      the clamp, as long as the clamp does not drop it to a zero estimate. */
  lemma ClampStaysInSliderRange(photoCount: int, autoScale: bool, maxPhotos: int)
    requires PhotoCountRange(maxPhotos).0 <= photoCount <= PhotoCountRange(maxPhotos).1
    requires autoScale || maxPhotos >= 1
    ensures var r := ClampedPhotoCount(photoCount, autoScale, maxPhotos);
            PhotoCountRange(maxPhotos).0 <= r <= PhotoCountRange(maxPhotos).1
  {
  }

  /** A standard matches the configured size when each side is within 0.1 mm. */
  predicate MatchesSize(standard: PhotoStandard, photoWidth: real, photoHeight: real)
  {
    Abs(standard.width - photoWidth) < 0.1 && Abs(standard.height - photoHeight) < 0.1
  }

  /** `getCurrentStandardKey`: the key of the first standard in table order
      that matches the configured size, `CUSTOM_15_18` when none does. */
  function CurrentStandardKey(photoWidth: real, photoHeight: real): (r: string)
    ensures forall i :: 0 <= i < |PhotoStandards| && MatchesSize(PhotoStandards[i].1, photoWidth, photoHeight)
              && (forall j :: 0 <= j < i ==> !MatchesSize(PhotoStandards[j].1, photoWidth, photoHeight))
              ==> r == PhotoStandards[i].0
    ensures (forall i :: 0 <= i < |PhotoStandards| ==> !MatchesSize(PhotoStandards[i].1, photoWidth, photoHeight))
              ==> r == DefaultStandardKey
    ensures StandardNamed(r).Some?
  {
    match FirstIndex(PhotoStandards, (e: (string, PhotoStandard)) => MatchesSize(e.1, photoWidth, photoHeight))
    case None => DefaultStandardKey
    case Some(i) => PhotoStandards[i].0
  }

  /** No size is within 0.1 mm of two different standards. */
  lemma StandardsApart(i: nat, j: nat, photoWidth: real, photoHeight: real)
    requires i < |PhotoStandards| && j < |PhotoStandards| && i != j
    requires MatchesSize(PhotoStandards[i].1, photoWidth, photoHeight)
    ensures !MatchesSize(PhotoStandards[j].1, photoWidth, photoHeight)
  {
  }

  /** A size within 0.1 mm of a standard selects that standard's key. */
  lemma CurrentStandardKeyOfNearSize(i: nat, photoWidth: real, photoHeight: real)
    requires i < |PhotoStandards| && MatchesSize(PhotoStandards[i].1, photoWidth, photoHeight)
    ensures CurrentStandardKey(photoWidth, photoHeight) == PhotoStandards[i].0
  {
    forall j | 0 <= j < i
      ensures !MatchesSize(PhotoStandards[j].1, photoWidth, photoHeight)
    {
      StandardsApart(i, j, photoWidth, photoHeight);
    }
  }

  /** Any key other than the default is selected exactly when the size is
      within 0.1 mm of that key's standard. */
  lemma CurrentStandardKeyExactly(i: nat, photoWidth: real, photoHeight: real)
    requires 1 <= i < |PhotoStandards|
    ensures CurrentStandardKey(photoWidth, photoHeight) == PhotoStandards[i].0
        <==> MatchesSize(PhotoStandards[i].1, photoWidth, photoHeight)
  {
    if MatchesSize(PhotoStandards[i].1, photoWidth, photoHeight) {
      CurrentStandardKeyOfNearSize(i, photoWidth, photoHeight);
    } else if exists j :: 0 <= j < |PhotoStandards| && MatchesSize(PhotoStandards[j].1, photoWidth, photoHeight) {
      var j :| 0 <= j < |PhotoStandards| && MatchesSize(PhotoStandards[j].1, photoWidth, photoHeight);
      CurrentStandardKeyOfNearSize(j, photoWidth, photoHeight);
      if j < i { StandardKeysAreDistinct(j, i); } else { StandardKeysAreDistinct(i, j); }
    } else {
      StandardKeysAreDistinct(0, i);
    }
  }

  /** Selecting a standard in the editor and reading the selector back gives
      the same key. */
  lemma SelectedStandardReadsBack(key: string)
    requires StandardNamed(key).Some?
    ensures var standard := StandardNamed(key).value;
            CurrentStandardKey(standard.width, standard.height) == key
  {
    var i :| 0 <= i < |PhotoStandards| && PhotoStandards[i].0 == key;
    CurrentStandardKeyOfNearSize(i, PhotoStandards[i].1.width, PhotoStandards[i].1.height);
  }

  /** Opening the cropper on the current key and completing the crop reports
      a size that reads back as the same key. */
  lemma CropKeepsStandardKey(photoWidth: real, photoHeight: real)
    ensures var key := CurrentStandardKey(photoWidth, photoHeight);
            var standard := SimpleCropper.StandardFor(key);
            CurrentStandardKey(standard.width, standard.height) == key
  {
    SelectedStandardReadsBack(CurrentStandardKey(photoWidth, photoHeight));
  }

  /** A custom size that matches no standard opens the cropper on the default
      standard, so completing the crop resets the photo size to 38.1 x 45.72
      mm. */
  lemma CropOfCustomSizeResetsToDefault(photoWidth: real, photoHeight: real)
    requires forall i :: 0 <= i < |PhotoStandards| ==> !MatchesSize(PhotoStandards[i].1, photoWidth, photoHeight)
    ensures var standard := SimpleCropper.StandardFor(CurrentStandardKey(photoWidth, photoHeight));
            standard.width == DefaultPhotoWidthMm && standard.height == DefaultPhotoHeightMm
  {
    DefaultSizeIsDefaultStandard();
  }

  /** The page size the print job asks for, as (width, height) in
      millimetres: the paper table's sides in portrait, exchanged in
      landscape. It is the page the preview canvas is sized to. */
  function PrintPageSizeMm(paper: PaperSize, orientation: Orientation): (r: (real, real))
    ensures r == PageSizeMm(paper, orientation)
    ensures orientation == Portrait <==> r.0 < r.1
  {
    var dims := PaperDimensionsOf(paper);
    var pWidth := if orientation == Portrait then dims.width else dims.height;
    var pHeight := if orientation == Portrait then dims.height else dims.width;
    (pWidth, pHeight)
  }

  /** The sheet configuration the application starts with: 4x6" landscape,
      1 mm gap, 2 mm margin, eight photos of the default size, centred and
      auto-scaled. */
  const DefaultGridConfig: GridConfig :=
    GridConfig(Photo4x6, Landscape, 1.0, 2.0, 8, DefaultPhotoWidthMm, DefaultPhotoHeightMm, Center, true)

  /** The starting configuration is within the controls' ranges, and its
      eight photos are exactly the capacity estimate for the 4x6" page. */
  lemma DefaultGridConfigIsValid()
    ensures ValidConfig(DefaultGridConfig)
    ensures CalculateMaxPhotos(Photo4x6, Landscape, 2.0, 1.0, DefaultPhotoWidthMm, DefaultPhotoHeightMm) == 8
    ensures ClampedPhotoCount(8, false, 8) == 8 && ClampedPhotoCount(9, false, 8) == 8
  {
  }

  /** The application's state: the flow step, the uploaded image, the image
      shown on the sheet, and the sheet configuration. */
  class AppState {
    var step: Step
    var originalImage: Option<string>
    var imageSrc: Option<string>
    var gridConfig: GridConfig

    constructor()
      ensures step == Upload && originalImage.None? && imageSrc.None?
      ensures gridConfig == DefaultGridConfig
    {
      step := Upload;
      originalImage := None;
      imageSrc := None;
      gridConfig := DefaultGridConfig;
    }

    /** The screen the state renders. */
    function CurrentView(): View
      reads this
    {
      ViewFor(step, originalImage)
    }

    /** The capacity estimate for the current configuration. */
    function MaxPhotos(): int
      reads this
      requires CellArea(gridConfig.gap, gridConfig.photoWidth, gridConfig.photoHeight) > 0.0
    {
      CalculateMaxPhotos(gridConfig.paperSize, gridConfig.orientation, gridConfig.margin,
                         gridConfig.gap, gridConfig.photoWidth, gridConfig.photoHeight)
    }

    /** The file reader finished: keep the image and go to the cropper. */
    method HandleUpload(result: string)
      modifies this
      ensures originalImage == Some(result) && step == Crop
      ensures imageSrc == old(imageSrc) && gridConfig == old(gridConfig)
      ensures result != "" ==> CurrentView() == CropperView
    {
      originalImage := Some(result);
      step := Crop;
    }

    /** Cancelling the crop goes back to the landing page. */
    method CancelCrop()
      modifies this
      ensures step == Upload && CurrentView() == LandingView
      ensures originalImage == old(originalImage) && imageSrc == old(imageSrc) && gridConfig == old(gridConfig)
    {
      step := Upload;
    }

    /** The editor's back button goes back to the landing page. */
    method BackToUpload()
      modifies this
      ensures step == Upload && CurrentView() == LandingView
      ensures originalImage == old(originalImage) && imageSrc == old(imageSrc) && gridConfig == old(gridConfig)
    {
      step := Upload;
    }

    /** The editor's re-crop button goes back to the cropper. */
    method ReCrop()
      modifies this
      ensures step == Crop
      ensures originalImage == old(originalImage) && imageSrc == old(imageSrc) && gridConfig == old(gridConfig)
      ensures PresentString(originalImage) ==> CurrentView() == CropperView
    {
      step := Crop;
    }

    /** `handleCropComplete`: show the cropped image in the editor, and take
        the reported photo size only when both sides are present and not
        zero. */
    method HandleCropComplete(croppedImage: string, width: Option<real>, height: Option<real>)
      modifies this
      ensures imageSrc == Some(croppedImage) && step == Editor
      ensures PresentNumber(width) && PresentNumber(height) ==>
                gridConfig == old(gridConfig).(photoWidth := width.value, photoHeight := height.value)
      ensures !(PresentNumber(width) && PresentNumber(height)) ==> gridConfig == old(gridConfig)
      ensures originalImage == old(originalImage)
    {
      imageSrc := Some(croppedImage);
      if PresentNumber(width) && PresentNumber(height) {
        gridConfig := gridConfig.(photoWidth := width.value, photoHeight := height.value);
      }
      step := Editor;
    }

    /** The editor's standard selector: a known key sets the photo size to
        that standard's, an unknown one changes nothing. */
    method SelectStandard(key: string)
      modifies this
      ensures StandardNamed(key).Some? ==>
                gridConfig == old(gridConfig).(photoWidth := StandardNamed(key).value.width,
                                               photoHeight := StandardNamed(key).value.height)
      ensures StandardNamed(key).Some? ==> CurrentStandardKey(gridConfig.photoWidth, gridConfig.photoHeight) == key
      ensures StandardNamed(key).None? ==> gridConfig == old(gridConfig)
      ensures step == old(step) && originalImage == old(originalImage) && imageSrc == old(imageSrc)
    {
      var standard := StandardNamed(key);
      if standard.Some? {
        gridConfig := gridConfig.(photoWidth := standard.value.width, photoHeight := standard.value.height);
        SelectedStandardReadsBack(key);
      }
    }

    /** The clamp effect: the photo count is clamped against the capacity
        estimate and the hard cap; nothing else changes. */
    method ClampPhotoCount()
      requires CellArea(gridConfig.gap, gridConfig.photoWidth, gridConfig.photoHeight) > 0.0
      modifies this
      ensures gridConfig == old(gridConfig).(photoCount := ClampedPhotoCount(old(gridConfig.photoCount), old(gridConfig.autoScale), old(MaxPhotos())))
      ensures step == old(step) && originalImage == old(originalImage) && imageSrc == old(imageSrc)
    {
      var maxPhotos := MaxPhotos();
      if !gridConfig.autoScale && gridConfig.photoCount > maxPhotos {
        gridConfig := gridConfig.(photoCount := maxPhotos);
      } else if gridConfig.photoCount > PhotoCountCap {
        gridConfig := gridConfig.(photoCount := PhotoCountCap);
      }
    }
  }
}
