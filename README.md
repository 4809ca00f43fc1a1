# Passport Photo Studio: layout engine and application state in Dafny

Passport Photo Studio lets a user upload a photo and crop it to a passport or ID standard. It then lays out copies of the photo on a printable sheet (A4, Letter or 4x6") for printing or saving. This project models the logic behind that flow and proves properties of the model. It has four modules that follow the code, and a fifth of shared helpers:

- `Types` (`types.dfy`) holds the tables:
  - the paper table, with every entry in portrait;
  - the photo-standard table, keyed, in its own order;
  - the grid configuration;
  - `calculateMaxPhotos`, the area-based capacity estimate.
- `PrintPreview` (`print_preview.dfy`) holds the layout engine of the preview canvas. It covers:
  - the canvas size at 11.81 px/mm;
  - the naive column count, and the exhaustive auto-scale search over column counts;
  - the shrink by 99% of the best scale;
  - the column count with a pixel of slack used when auto-scale is off;
  - the aligned origin of the block;
  - the row-major placement loop, with each cell's crop-to-fill source rectangle and optional background fill;
  - the footer.
- `SimpleCropper` (`simple_cropper.dfy`) holds the cropper:
  - the standard lookup with its fallback, and the aspect ratio;
  - the fit-in-window sizing of the crop box and the size of the output image;
  - the cropper's reset, rotation and standard-selection state.
- `App` (`app.dfy`) holds the application shell:
  - which screen is shown, and the step transitions;
  - the photo-count clamp and the slider's range;
  - the matching of the configured photo size to a standard;
  - the page size handed to the printer;
  - `handleCropComplete`.

`Basics` (`basics.dfy`) provides an `Option` type and the `Math` functions the code uses (`floor`, `ceil`, `min`, `max`, `abs`). It also provides `Array.find` as `FirstIndex`, and a few steps of real and integer arithmetic.

## How the model is built

Lengths are `real`s: millimetres in the configuration, pixels on the canvas. The code's `Math.floor` and `Math.ceil` have integer results.

The step-by-step parts of the code are methods proved equal to specification functions, and the properties are proved about those functions:

- The onload body becomes `ComputePlan`, split into `AutoScale` / `SearchAndShrink` / `SearchBestColumns`, then `PlaceCells`. `LayoutCells` combines them, and `RenderSheet` adds the canvas set-up. The specification functions are `PlanFor`, `AutoScaling`, `BestColumns` and `CellAt`.
- The search loop reassigns `bestScale` and `bestCols` and is proved equal to the recursive `BestUpTo`. Its meaning is pinned down by `IsBestAmong`: the earliest column count of largest scale, or 0 and one column when no scale is positive.
- The placement loop keeps the `count`/`row`/`col` cursor of the code. Its invariant ties the cursor to `count % cols` and `count / cols`.
- The React state of the application and of the cropper becomes two classes, `App.AppState` and `SimpleCropper.CropperState`. Each handler is a method that states its whole new state.

Behaviours of the code that the model keeps as written:

- **The gap is not shrunk.** The 99% shrink scales the photos but not the gap (components/PrintPreview.tsx:98-101). So the shrunk block fits the margins when there is no gap (`ShrinkFitsWithoutGap`, `PlanFitsWhenAutoScaled`), but with a gap it can overflow (`ShrunkBlockCanOverflowWithGap`).
- **Whenever the search runs, it shrinks.** The search starts from a scale of 0 and one column, and keeps a candidate only on a strictly larger scale. Once it has run, its best scale is always below 1 (`SearchAlwaysShrinks`). The branch for a best scale of 1 or more can never be taken.
- **Overflow stops placement.** With auto-scale off, the first cell that would pass the canvas's right or bottom edge breaks out of the loop (components/PrintPreview.tsx:138-140). The cells after it are not placed, even those that would fit (`PlaceCells`).
- **The estimate ignores the margin.** The capacity estimate takes a margin and never uses it (`MaxPhotosIgnoresMargin`).
- **The clamp, as a function, can exceed the hard cap.** With auto-scale off and an estimate above 50, a count above the estimate is clamped to the estimate, which is above 50 (`ClampCanLeaveCountAboveCap`). The editor never produces such an estimate: its papers, its standards' sizes and its 0-10 mm gap slider give estimates between 4 and 51 (`EstimateWithinControls`). The slider stops at the larger of 20 and the estimate (App.tsx:535-540).
- **The clamp, as a function, can fall below the slider's minimum.** An estimate of 0 clamps the count to 0 (`ClampCanReachZero`). The editor's controls give an estimate of at least 4.
- **The standard lookup, as functions, resets a custom size.** For a photo size that matches no standard, `CurrentStandardKey` gives the default key and `StandardFor` gives the default standard. So a crop opened on such a size hands back 38.1 x 45.72 mm (`CropOfCustomSizeResetsToDefault`). The editor never produces such a size. The photo size is written only in three places, and each writes a standard's own size: the default (App.tsx:86-87), the crop's report (App.tsx:137-141) and the standard selector (App.tsx:513-517).

Further facts about the code that a reader might not expect:

- **The photo count can stay above 50.** On A4 with 30 x 40 mm photos and no gap, the estimate is 51, and the slider reaches 51. The clamp effect re-runs only when the estimate, the paper, the orientation, the margin, the gap or the auto-scale switch changes (App.tsx:116-122). It does not re-run when the count changes. So a count of 51 set on the slider stays until one of those changes (`SliderReachesAboveCap`). Then the clamp lowers it: to 50 when auto-scale is on or the new estimate is still 50 or more, otherwise to the new estimate. Raising the gap to 1 mm, for example, gives an estimate of 49 and a count of 49 (`GapChangeClampsToEstimate`).
- **The estimate has no guard for a zero cell area.** `calculateMaxPhotos` divides by the padded cell area without a check (types.ts:74-77), so the model requires a positive area. The editor's controls always give at least 1200 mm² (`EstimateWithinControls`).
- **The footer comes only with a decoded image.** The footer is drawn inside the image's `onload` handler (components/PrintPreview.tsx:190-199). So a sheet without an image has no footer (`RenderSheet`).
- **The image fills its cell.** A comment in the drawing code calls the fit "contain". The source rectangle, though, is cut from the image to the cell's shape, so the image covers the whole cell and is cropped (components/PrintPreview.tsx:149-174). `CoverFit` models that.

## Model

| member | source | states |
|---|---|---|
| Types.PaperTableIsPortrait | types.ts:46-50 | every paper is listed narrower than it is tall |
| Types.StandardRatiosAreWidthOverHeight | types.ts:52-57 | each standard's stored ratio equals its width over its height, and both sides are positive |
| Types.StandardKeysAreDistinct | types.ts:52-57 | no two standards share a key |
| Types.StandardNamed | types.ts:52-57 | a key is found exactly when some entry has it, and then it returns that entry's standard, with positive sides and ratio = width/height |
| Types.DefaultSizeIsDefaultStandard | types.ts:53-60 | the default photo size is the `CUSTOM_15_18` standard's size |
| Types.PageSizeMm | types.ts:70-72 | portrait keeps the paper's width and height; landscape exchanges them; the result is portrait exactly when it is narrower than tall |
| Types.CellArea | types.ts:75 | the padded cell area is positive when both padded sides are |
| Types.CalculateMaxPhotos | types.ts:62-78 | the result is the number of padded cells whose total area fits the page: r cells fit, r + 1 do not; never negative |
| Types.MaxPhotosIgnoresMargin | types.ts:62-78 | two margins give the same estimate |
| Types.MaxPhotosIgnoresOrientation | types.ts:70-77 | portrait and landscape give the same estimate |
| Types.MaxPhotosAntitone | types.ts:74-77 | a larger gap or photo side never raises the estimate |
| PrintPreview.Px | components/PrintPreview.tsx:62-66 | the conversion at 11.81 px/mm keeps the sign of the length |
| PrintPreview.CanvasSize | components/PrintPreview.tsx:31-41 | each canvas side is the oriented page side in pixels rounded down, and at least 1199 px |
| PrintPreview.CanvasSizeSwapsWithOrientation | components/PrintPreview.tsx:33-41 | the landscape canvas is the portrait canvas with its sides exchanged |
| PrintPreview.FourBySixLandscapeCanvas | components/PrintPreview.tsx:39-41 | the 4x6" landscape canvas is 1799 x 1199 px |
| PrintPreview.Span | components/PrintPreview.tsx:85-86 | k ≥ 1 cells with gaps are at least one cell long |
| PrintPreview.SpanMonotone | components/PrintPreview.tsx:114-116 | more cells take at least as much length |
| PrintPreview.NaiveCols | components/PrintPreview.tsx:72 | the naive column count is the most columns that fit the available width: r fit, r + 1 do not |
| PrintPreview.OffScaleCols | components/PrintPreview.tsx:107-110 | at least one column; r columns fit the width plus one pixel unless r is the clamped 1; r + 1 columns never fit it |
| PrintPreview.RowsFor | components/PrintPreview.tsx:83 | ceil(n / c) is the least row count with r·c ≥ n |
| PrintPreview.RowsAntitone | components/PrintPreview.tsx:83 | more columns never need more rows |
| PrintPreview.BestAmongStep | components/PrintPreview.tsx:92-95 | one loop step keeps the earliest column count of largest scale, replacing it only on a strictly larger scale |
| PrintPreview.BestUpToIsBest | components/PrintPreview.tsx:79-96 | after counts 1..m the search holds the earliest count of largest scale, or scale 0 and one column when no scale is positive |
| PrintPreview.BestColumnsIsBest | components/PrintPreview.tsx:79-96 | the same over every count 1..photoCount |
| PrintPreview.SearchBestColumns | components/PrintPreview.tsx:79-96 | the for loop computes exactly `BestColumns`, the earliest column count whose `ScaleFor` is largest |
| PrintPreview.SearchAlwaysShrinks | components/PrintPreview.tsx:75-103 | whenever the trigger holds, the best scale found is below 1, so the shrink always happens |
| PrintPreview.NoColumnsTriggersSearch | components/PrintPreview.tsx:72-78 | with photos to place, fewer than one naive column always triggers the search |
| PrintPreview.AlignedStart | components/PrintPreview.tsx:118-128 | the origin is never inside the margin; top-left gives the margin; center centres a block that fits and falls back to the margin for one that does not |
| PrintPreview.SearchAndShrink | components/PrintPreview.tsx:79-103 | equals `Shrink` of the search's outcome: the search and shrink give the photos scaled by 99% of the best scale and the best column count when the scale is below 1, else the grid unchanged |
| PrintPreview.AutoScale | components/PrintPreview.tsx:72-105 | the auto-scale branch computes exactly `AutoScaling`: the naive grid, or the search and shrink when the trigger `NeedsSearch` holds |
| PrintPreview.ComputePlan | components/PrintPreview.tsx:61-128 | the statements before the loop compute exactly `PlanFor`: margin, gap, photo size, columns, search result, and the origin aligned for a block of `FinalRows` rows |
| PrintPreview.WideImageCrop | components/PrintPreview.tsx:156-161 | for a wider image the band of full height is narrower than the image and has the cell's shape |
| PrintPreview.TallImageCrop | components/PrintPreview.tsx:162-167 | for a taller image the band of full width is no taller than the image and has the cell's shape |
| PrintPreview.CoverFit | components/PrintPreview.tsx:150-168 | the source rectangle lies inside the image, is centred, has the cell's shape and spans the image on one axis; none when the cell or the image has no area |
| PrintPreview.BackgroundFill | components/PrintPreview.tsx:144-147 | a fill is drawn exactly for a colour other than empty, `#FFFFFF` and `white`, with its corner floored and its size ceiled |
| PrintPreview.FillCoversCell | components/PrintPreview.tsx:146 | the fill starts at or before the cell and ends within a pixel of its far edge |
| PrintPreview.PlaceCells | components/PrintPreview.tsx:130-188 | the k-th cell is `CellAt(plan, k)`, the grid's k-th cell in row-major order; with auto-scale exactly photoCount cells; without it every cell fits the canvas and placement stops only at a cell that does not |
| PrintPreview.RowBelowRows | components/PrintPreview.tsx:182-187 | each placed cell's row is within the block's rows |
| PrintPreview.CellInBlock | components/PrintPreview.tsx:114-136 | every cell lies within the block the alignment centres |
| PrintPreview.ColumnInBlock | components/PrintPreview.tsx:114-136 | each cell's left and right edges lie within the block's width |
| PrintPreview.RowInBlock | components/PrintPreview.tsx:114-136 | each of the n cells' top and bottom edges lie within the block's height |
| PrintPreview.CellsDisjoint | components/PrintPreview.tsx:134-187 | no two cells overlap |
| PrintPreview.BlockFitsWithoutSearch | components/PrintPreview.tsx:72-78 | when the trigger does not hold the naive grid has at least one column and fits between the margins |
| PrintPreview.ShrunkSpanFits | components/PrintPreview.tsx:98-101 | without a gap, one side of the shrunk block fits its available length |
| PrintPreview.AutoScalingSearchesExactlyWhenNeeded | components/PrintPreview.tsx:75-78 | the auto-scale branch searches exactly when the trigger holds; otherwise it keeps the nominal size and the naive columns |
| PrintPreview.AutoScalingShrinksOnSearch | components/PrintPreview.tsx:79-103 | when it searches it records the search's outcome, a best scale below 1, and takes its column count |
| PrintPreview.AutoScalingShrunkSize | components/PrintPreview.tsx:98-101 | when it searches both photo sides are scaled by 99% of the best scale, the gap not at all |
| PrintPreview.ShrinkBelowOne | components/PrintPreview.tsx:98-103 | a best scale below 1 scales both photo sides by 99% of it and adopts the best column count |
| PrintPreview.AutoScalingSizesNonNegative | components/PrintPreview.tsx:98-101 | the auto-scaled photo sides are never negative |
| PrintPreview.AutoScalingColumnsPositive | components/PrintPreview.tsx:72-105 | with photos to place the auto-scale branch keeps at least one column |
| PrintPreview.AutoScalingFitsWithoutSearch | components/PrintPreview.tsx:75-78 | without a search the auto-scaled block fits between the margins |
| PrintPreview.AutoScalingFitsWithoutGap | components/PrintPreview.tsx:79-103 | without a gap and with a positive best scale the shrunk block fits between the margins |
| PrintPreview.ShrinkFitsWithoutGap | components/PrintPreview.tsx:98-103 | the shrink after a search in (0, 1) without a gap fits between the margins |
| PrintPreview.ShrunkBlockCanOverflowWithGap | components/PrintPreview.tsx:98-101 | with a gap the shrunk block can still be more than twice the available height |
| PrintPreview.PlanColumnsPositive | components/PrintPreview.tsx:72-110 | with photos to place the plan has at least one column |
| PrintPreview.PlanWithoutAutoScale | components/PrintPreview.tsx:107-110 | without auto-scale: no search, nominal photo size, the slack column count, at least one column |
| PrintPreview.PlanSearchesExactlyWhenNeeded | components/PrintPreview.tsx:75-78 | with auto-scale the search runs exactly when the naive grid is too tall or too small; otherwise nominal size and naive columns |
| PrintPreview.PlanShrinksOnSearch | components/PrintPreview.tsx:98-103 | when the search runs the plan records its outcome, whose best scale is below 1, and uses its column count |
| PrintPreview.PlanUsesScaling | components/PrintPreview.tsx:61-110 | the plan's photo size, column count and search result are those of the scaling step |
| PrintPreview.PlanFitsWhenAutoScaled | components/PrintPreview.tsx:114-128 | with auto-scale and no search, or no gap, the block fits between the margins and center alignment centres it exactly |
| PrintPreview.PlanSizesNonNegative | components/PrintPreview.tsx:62-66 | the plan's photo size and gap are never negative |
| PrintPreview.FooterInsideCanvas | components/PrintPreview.tsx:192-199 | on every paper the anchor of `FooterAt`, 3 mm from the right and 2 mm from the bottom, is inside the canvas |
| PrintPreview.LayoutCells | components/PrintPreview.tsx:61-188 | the onload body's plan is the plan of the configuration; its cells obey the placement contract and none starts left of or above the page |
| PrintPreview.PlanStartsOnPage | components/PrintPreview.tsx:118-127 | the block's origin is at or after the non-negative margin on both axes |
| PrintPreview.CellOnPage | components/PrintPreview.tsx:135-136 | a cell of a block that starts on the page starts on the page |
| PrintPreview.RenderSheet | components/PrintPreview.tsx:31-211 | the canvas is sized to the page; unless `Draws` holds (an image source and a decoded image) nothing but the white page is drawn; otherwise the footer is drawn and the k-th cell is `CellAt` of the configuration's plan; with auto-scale all photoCount cells, without it every cell fits and drawing stops only at a cell that does not; every cell starts on the page and no two overlap |
| SimpleCropper.StandardFor | components/SimpleCropper.tsx:30 | a known key gives its own standard, an unknown key the `CUSTOM_15_18` standard; the result is always a table entry with positive sides |
| SimpleCropper.AspectRatio | components/SimpleCropper.tsx:31 | the aspect ratio is positive and equals the table's stored ratio |
| SimpleCropper.UnknownKeyFallsBackToDefault | components/SimpleCropper.tsx:30-31 | an unknown key shapes the crop as the default key does |
| SimpleCropper.CropBoxLimits | components/SimpleCropper.tsx:108-109 | 80% of the window's width and half its height, or 400 x 400 without a window |
| SimpleCropper.CropBoxFor | components/SimpleCropper.tsx:107-117 | the crop box for a standard has its shape, lies within 80% of the window's width and half its height (400 x 400 without a window), is the tallest such box, and has no negative side in a window of non-negative size |
| SimpleCropper.CropBoxSize | components/SimpleCropper.tsx:111-117 | the box has the standard's shape, fits both limits and is the tallest box of that shape that does; its width is min(cap·ratio, maxWidth) |
| SimpleCropper.OutputSize | components/SimpleCropper.tsx:67-68 | the output is 1200 px wide with the standard's shape |
| SimpleCropper.OutputMatchesCropBox | components/SimpleCropper.tsx:67-68 | the output has the crop box's shape |
| SimpleCropper.OutputHeightsOfTable | components/SimpleCropper.tsx:67-68 | the default, US and ID standards give 1440, 1200 and 1600 px tall outputs |
| SimpleCropper.CropperState.constructor | components/SimpleCropper.tsx:16-27 | the cropper opens on the given key, or `CUSTOM_15_18`, centred, unzoomed and unrotated |
| SimpleCropper.CropperState.ResetForNewImage | components/SimpleCropper.tsx:34-38 | a new image resets position, scale and rotation and keeps the standard |
| SimpleCropper.CropperState.RotateLeft | components/SimpleCropper.tsx:191 | rotation decreases by 90 and stays a multiple of 90; nothing else changes |
| SimpleCropper.CropperState.RotateRight | components/SimpleCropper.tsx:197 | rotation increases by 90 and stays a multiple of 90; nothing else changes |
| SimpleCropper.CropperState.ResetRotation | components/SimpleCropper.tsx:194 | rotation becomes 0; nothing else changes |
| SimpleCropper.CropperState.SelectStandard | components/SimpleCropper.tsx:174-176 | the selected key becomes the chosen one; nothing else changes, and rotation stays a multiple of 90 |
| SimpleCropper.CropperState.Crop | components/SimpleCropper.tsx:60-105 | nothing is reported while unmounted; otherwise the image with the standard's width and height, whose ratio is the aspect ratio |
| App.ViewFor | App.tsx:254-288 | the landing page exactly when the step is upload or no image is loaded; the cropper exactly on crop with an image; the editor exactly on editor with an image |
| App.ClampedPhotoCount | App.tsx:116-122 | the clamp never raises the count; with auto-scale it is min(count, 50); without, it is at most the estimate and equals it for a count above it; a count above 50 but not above the estimate (or any with auto-scale) becomes 50; a count within both limits is kept |
| App.ClampIdempotent | App.tsx:116-122 | clamping twice equals clamping once when auto-scale is on or the estimate is at most 50 |
| App.ClampCanLeaveCountAboveCap | App.tsx:116-122 | with auto-scale off and an estimate of 100, a count of 120 becomes 100, above the cap, and clamping again gives 50 |
| App.ClampCanReachZero | App.tsx:116-118 | with auto-scale off and an estimate of 0, any positive count becomes 0 |
| App.EstimateWithinControls | types.ts:62-78 | for every paper, orientation, standard's size and gap of 0-10 mm the padded cell is at least 1200 mm² and the estimate is between 4 and 51 |
| App.MaxPhotosBounds | types.ts:62-78 | a padded cell of 1200 to 3696.64 mm² gives an estimate of 4 to 51 on every paper and orientation |
| App.StandardCellBounds | types.ts:74-75 | a standard's cell padded by a 0-10 mm gap covers 1200 to 3696.64 mm² |
| App.PageAreaBounds | types.ts:46-50 | every page covers 15483.84 to 62370 mm² in either orientation |
| App.EstimateBracket | types.ts:77 | the rounded-down quotient of such a page by such a cell is between 4 and 51 |
| App.SliderReachesAboveCap | App.tsx:116-122 | on A4 with 30 x 40 mm photos and no gap the estimate and the slider's top are 51, above the cap, and a clamp gives 50 |
| App.GapChangeClampsToEstimate | App.tsx:116-122 | on A4 with 30 x 40 mm photos and a 1 mm gap the estimate is 49, and the clamp turns 51 into 49 without auto-scale and into 50 with it |
| App.PhotoCountRange | App.tsx:535-540 | the slider runs from 1 to at least 20 and at least the estimate, being one of them |
| App.ClampStaysInSliderRange | App.tsx:116-122 | a count within the slider's range stays within it after the clamp, unless the estimate is 0 with auto-scale off |
| App.CurrentStandardKey | App.tsx:246-252 | the key of the first standard within 0.1 mm on both sides, `CUSTOM_15_18` when none is; always a table key |
| App.StandardsApart | App.tsx:246-252 | no size is within 0.1 mm of two standards |
| App.CurrentStandardKeyOfNearSize | App.tsx:246-252 | a size within 0.1 mm of a standard selects that standard's key |
| App.CurrentStandardKeyExactly | App.tsx:246-252 | a key other than the default is selected exactly when the size is within 0.1 mm of its standard |
| App.SelectedStandardReadsBack | App.tsx:513-517 | selecting a standard and reading the selector back gives the same key |
| App.CropKeepsStandardKey | App.tsx:278-281 | opening the cropper on the current key and completing the crop keeps the current key |
| App.CropOfCustomSizeResetsToDefault | App.tsx:278-281 | a size matching no standard is reset to 38.1 x 45.72 mm by completing the crop |
| App.PrintPageSizeMm | App.tsx:153-155 | the printed page size is the canvas's page size: portrait keeps the paper's sides, landscape exchanges them |
| App.DefaultGridConfigIsValid | App.tsx:80-90 | the starting configuration is in range, and its eight photos equal the 4x6" landscape estimate |
| App.AppState.constructor | App.tsx:65-90 | the application starts on upload, with no images and the default configuration |
| App.AppState.HandleUpload | App.tsx:124-132 | a loaded file becomes the original image and the step becomes crop, showing the cropper |
| App.AppState.CancelCrop | App.tsx:282 | cancelling the crop returns to the landing page; nothing else changes |
| App.AppState.BackToUpload | App.tsx:298 | the back button returns to the landing page; nothing else changes |
| App.AppState.ReCrop | App.tsx:373 | re-crop returns to the cropper; nothing else changes |
| App.AppState.HandleCropComplete | App.tsx:134-144 | the cropped image is shown in the editor; the photo size is replaced only when both reported sides are present and non-zero |
| App.AppState.SelectStandard | App.tsx:513-517 | a known key sets the photo size to its standard, which then reads back as that key; an unknown key changes nothing |
| App.AppState.ClampPhotoCount | App.tsx:116-122 | the clamp effect replaces the photo count by the clamped count and changes nothing else |

## Left out

- JavaScript floating point: lengths are exact reals, so IEEE rounding of 11.81, 38.1 and the products is not modelled; neither is `parseInt`/`parseFloat` of slider values.
- NaN and infinite values: a cell or image without area draws nothing (`CoverFit` returns none), and the block height for zero columns (only without photos) is taken as 0.
- Types.CalculateMaxPhotos: requires a positive denominator, where the code divides by zero.
- Pixels: clipping, the stroked cut lines, fonts, the footer's outline and fill colours, and the canvas' own rounding of fractional coordinates.
- Missing canvas or 2D context in the preview effect, and the resize-if-different check: `RenderSheet` always has a canvas of the page's size.
- Image decoding is asynchronous: `RenderSheet` takes the decoded size as a parameter, and none stands for an image whose `onload` never fires.
- React effect scheduling: the clamp effect runs when its dependencies change, not when the photo count itself changes; `ClampPhotoCount` is the effect body, called by the environment.
- The plain setters of the editor (paper, orientation, alignment, gap, margin, photo count, auto-scale toggle, background colour) are single-field record updates and are not separate methods.
- The file reader in `handleUpload` is asynchronous: `HandleUpload` takes its result.
- Background removal, printing through an iframe, PNG download, settings storage, theme and toasts: browser and network I/O.
- The cropper's drag, zoom slider and rotate/translate/scale canvas drawing: pointer events and pixels; the cropped image is a parameter of `Crop`, and the output canvas' integer sizing is not modelled.
- JavaScript object lookup also finds inherited properties (`PHOTO_STANDARDS["toString"]`); the model looks keys up in the table only.
- The landing page, settings dialog, markup, styles and the Electron shell: UI and window plumbing without logic.
- PrintPreview.PlanFitsWhenAutoScaled: proves the fit only without a search, or without a gap, because the code does not shrink the gap and the shrunk block can overflow otherwise.
- App.ClampStaysInSliderRange: requires a positive estimate when auto-scale is off, because an estimate of 0 clamps the count to 0.
