/** The shared data model of the studio: paper sizes, photo standards, the grid
    configuration and the capacity estimator that bounds the photo count. All
    lengths are millimetres. */
module Types {
  import opened Basics

  datatype PaperSize = A4 | Letter | Photo4x6

  datatype Orientation = Portrait | Landscape

  datatype Alignment = TopLeft | Center

  datatype PaperDimensions = PaperDimensions(width: real, height: real, name: string)

  datatype PhotoStandard = PhotoStandard(width: real, height: real, name: string, ratio: real)

  /** The user's sheet configuration. */
  datatype GridConfig = GridConfig(
    paperSize: PaperSize,
    orientation: Orientation,
    gap: real,
    margin: real,
    photoCount: int,
    photoWidth: real,
    photoHeight: real,
    alignment: Alignment,
    autoScale: bool)

  /** The ranges the controls keep the configuration in: a positive photo size
      and no negative gap or margin. */
  predicate ValidConfig(cfg: GridConfig)
  {
    cfg.photoWidth > 0.0 && cfg.photoHeight > 0.0 && cfg.gap >= 0.0 && cfg.margin >= 0.0
  }

  /** The paper table, every entry given in portrait. */
  function PaperDimensionsOf(paper: PaperSize): PaperDimensions
  {
    match paper
    case A4 => PaperDimensions(210.0, 297.0, "A4 (210x297mm)")
    case Letter => PaperDimensions(215.9, 279.4, "Letter (8.5x11\")")
    case Photo4x6 => PaperDimensions(101.6, 152.4, "4x6\" (10x15cm)")
  }

  lemma PaperTableIsPortrait(paper: PaperSize)
    ensures PaperDimensionsOf(paper).width < PaperDimensionsOf(paper).height
  {
  }

  const DefaultStandardKey: string := "CUSTOM_15_18"

  /** The photo standards, keyed, in the table's own order. */
  const PhotoStandards: seq<(string, PhotoStandard)> := [
    (DefaultStandardKey, PhotoStandard(38.1, 45.72, "Passport (1.5 x 1.8\")", 1.5 / 1.8)),
    ("US_PASSPORT", PhotoStandard(50.8, 50.8, "US Passport (2x2\")", 1.0)),
    ("EU_PASSPORT", PhotoStandard(35.0, 45.0, "EU/UK (35x45mm)", 35.0 / 45.0)),
    ("ID_PHOTO", PhotoStandard(30.0, 40.0, "ID Photo (30x40mm)", 30.0 / 40.0))
  ]

  const DefaultPhotoWidthMm: real := 38.1
  const DefaultPhotoHeightMm: real := 45.72

  lemma {:induction false} StandardRatiosAreWidthOverHeight(i: nat)
    requires i < |PhotoStandards|
    ensures PhotoStandards[i].1.ratio == PhotoStandards[i].1.width / PhotoStandards[i].1.height
    ensures PhotoStandards[i].1.width > 0.0 && PhotoStandards[i].1.height > 0.0
  {
  }

  lemma StandardKeysAreDistinct(i: nat, j: nat)
    requires i < j < |PhotoStandards|
    ensures PhotoStandards[i].0 != PhotoStandards[j].0
  {
  }

  /** `PHOTO_STANDARDS[key]`: the standard stored under `key`, if any. */
  function StandardNamed(key: string): (r: Option<PhotoStandard>)
    ensures r.Some? <==> exists i :: 0 <= i < |PhotoStandards| && PhotoStandards[i].0 == key
    ensures r.Some? ==> r.value.width > 0.0 && r.value.height > 0.0
    ensures r.Some? ==> r.value.ratio == r.value.width / r.value.height
    ensures forall i :: 0 <= i < |PhotoStandards| && PhotoStandards[i].0 == key ==> r == Some(PhotoStandards[i].1)
  {
    match FirstIndex(PhotoStandards, (e: (string, PhotoStandard)) => e.0 == key)
    case None => None
    case Some(i) =>
      StandardRatiosAreWidthOverHeight(i);
      assert forall j :: 0 <= j < |PhotoStandards| && j != i ==> PhotoStandards[j].0 != PhotoStandards[i].0 by {
        forall j | 0 <= j < |PhotoStandards| && j != i
          ensures PhotoStandards[j].0 != PhotoStandards[i].0
        {
          if j < i { StandardKeysAreDistinct(j, i); } else { StandardKeysAreDistinct(i, j); }
        }
      }
      Some(PhotoStandards[i].1)
  }

  lemma DefaultSizeIsDefaultStandard()
    ensures StandardNamed(DefaultStandardKey) == Some(PhotoStandard(DefaultPhotoWidthMm, DefaultPhotoHeightMm, "Passport (1.5 x 1.8\")", 1.5 / 1.8))
  {
  }

  /** The page in millimetres as (width, height): the paper table's entry in
      portrait, its two sides exchanged in landscape. */
  function PageSizeMm(paper: PaperSize, orientation: Orientation): (r: (real, real))
    ensures orientation == Portrait ==> r == (PaperDimensionsOf(paper).width, PaperDimensionsOf(paper).height)
    ensures orientation == Landscape ==> r == (PaperDimensionsOf(paper).height, PaperDimensionsOf(paper).width)
    ensures orientation == Portrait <==> r.0 < r.1
  {
    var dims := PaperDimensionsOf(paper);
    if orientation == Portrait then (dims.width, dims.height) else (dims.height, dims.width)
  }

  /** The area of one photo cell with its gap, the denominator of the estimate. */
  function CellArea(gap: real, photoW: real, photoH: real): (r: real)
    ensures photoW + gap > 0.0 && photoH + gap > 0.0 ==> r > 0.0
  {
    var w, h := photoW + gap, photoH + gap;
    MulPositive(w, h);
    w * h
  }

  /** `calculateMaxPhotos`: how many gap-padded photo cells the page area holds,
      rounded down. The margin is accepted but never used, and the page area is
      not reduced by it. */
  function CalculateMaxPhotos(paper: PaperSize, orientation: Orientation, margin: real,
                              gap: real, photoW: real, photoH: real): (r: int)
    requires CellArea(gap, photoW, photoH) > 0.0
    ensures r >= 0
    ensures var page := PageSizeMm(paper, orientation);
            r as real * CellArea(gap, photoW, photoH) <= page.0 * page.1 < (r + 1) as real * CellArea(gap, photoW, photoH)
  {
    var page := PageSizeMm(paper, orientation);
    var areaPaper := page.0 * page.1;
    var areaPhoto := CellArea(gap, photoW, photoH);
    var r := Floor(areaPaper / areaPhoto);
    DivBracket(areaPaper, areaPhoto, r as real, (r + 1) as real);
    r
  }

  lemma MaxPhotosIgnoresMargin(paper: PaperSize, orientation: Orientation, margin1: real, margin2: real,
                               gap: real, photoW: real, photoH: real)
    requires CellArea(gap, photoW, photoH) > 0.0
    ensures CalculateMaxPhotos(paper, orientation, margin1, gap, photoW, photoH)
         == CalculateMaxPhotos(paper, orientation, margin2, gap, photoW, photoH)
  {
  }

  lemma MaxPhotosIgnoresOrientation(paper: PaperSize, margin: real, gap: real, photoW: real, photoH: real)
    requires CellArea(gap, photoW, photoH) > 0.0
    ensures CalculateMaxPhotos(paper, Portrait, margin, gap, photoW, photoH)
         == CalculateMaxPhotos(paper, Landscape, margin, gap, photoW, photoH)
  {
  }

  /** Growing the gap or either photo side never raises the estimate. */
  lemma MaxPhotosAntitone(paper: PaperSize, orientation: Orientation, margin: real,
                          gap1: real, photoW1: real, photoH1: real,
                          gap2: real, photoW2: real, photoH2: real)
    requires photoW1 + gap1 > 0.0 && photoH1 + gap1 > 0.0
    requires gap1 <= gap2 && photoW1 <= photoW2 && photoH1 <= photoH2
    ensures CalculateMaxPhotos(paper, orientation, margin, gap2, photoW2, photoH2)
         <= CalculateMaxPhotos(paper, orientation, margin, gap1, photoW1, photoH1)
  {
    var d1, d2 := CellArea(gap1, photoW1, photoH1), CellArea(gap2, photoW2, photoH2);
    MulBothLe(photoW1 + gap1, photoW2 + gap2, photoH1 + gap1, photoH2 + gap2);
    var page := PageSizeMm(paper, orientation);
    var area := page.0 * page.1;
    DivAntitone(area, d1, d2);
    FloorMonotone(area / d2, area / d1);
  }
}
