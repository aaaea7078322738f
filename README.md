# Pixel maze: a verified model of the rendering, image and level core

This project models, in Dafny, the core of a browser maze game whose front end is written in TypeScript and whose native side is C compiled to WebAssembly. The model covers:

- **Batched sprite renderer** (`Renderer`, `Batching`, `Gl`, `GlRender`, `GlScene`).
  - A staging buffer of 512 rectangles of 12 floats each lives in the WebAssembly heap.
  - The `draw*` calls flush when the texture changes or the batch is full. `flush` uploads and draws the pending rectangles.
  - The native side writes the same vertex layout and hands batches back through `drawNative`.
  - The index table, the framebuffer sizing and the renderer's teardown and recreation are included.
  - The GL context is an abstract log of uploads, binds and draws. The heap is an `array<real>` indexed by byte address / 4.
- **Coordinate descriptors** (`TextureCoords`, `ModelCoords`, `SheetLayout`, `LevelSprites`).
  - Texture coordinates are packed as `(x << 9) | (y << 1)` with alpha in the low bit and fraction.
  - The vertex shader's decoding of them is modelled.
  - Model rectangles are relative to a pivot.
  - The level sprite sheet lays out 16-byte descriptors in the order of the C struct, and rescales them when the scale factor changes.
- **GPU resources** (`Textures`, `Resources`).
  - A texture is loaded exactly when it holds a handle, and its size is checked when it is bound.
  - The named resource registry keeps a count and becomes destroyed for good.
- **Image to polygons** (`ImageGrid`, `ImagePasses`, `FloodFill`, `Erosion`, `Tracing`, `Simplification`, `ImageScript`).
  - The passes of `processImage`: alpha thresholding into a bordered byte grid, and erasing one-pixel-thin cells.
  - The scanline flood fill, trace undo, `polygonFound`, in-place Douglas–Peucker simplification and the final pass.
  - On the script side, `removeSemiAlpha` and the `createPolygon` callback.
- **Levels** (`Levels`, `LevelObjects`).
  - `revive`'s normalisation and limits, and `prepare`'s height rules.
  - The walls `createLevelPtr` writes.
  - Object types, radii and position clamping.
- **Level cache** (`LevelCacheNames`, `LevelCacheListing`, `LevelCacheDownload`, `LevelCacheTimes`, `LevelCacheRecords`).
  - Name validation, the listing of saved levels and the text edits of a download.
  - The formatting of best times and the table of best times.
- **Views and helpers** (`EditorViews`, `SelectionViews`, `ControlModes`, `UiSprites`, `MainHelpers`, `Memory`, `Pivot`, `Polyfills`).
  - The editor's icon bookkeeping, its ordering on `mouseUp` and the developer key sequence.
  - Unique names for imported levels, and the thumbnail lists.
  - The control-mode cycle and acceleration filtering, and the UI sprite ids.
  - Unit conversions and the scale-factor search.
  - `alignBuffer` and the physics level's region layout.
  - Pivot flags and the `Array.prototype.fill` fallback.

Shared modules model the host's built-ins on exact values:

- `Text`: `trim`, `indexOf`, `lastIndexOf`, `toString` of integers.
- `ParseInts`: `parseInt`.
- `StringSort`: `sort` on strings.
- `JsNumbers`: `Math.floor`, `Math.ceil`, `| 0`, `%`.
- `Bits`: `|`, `&`, `>>>` on non-negative integers.
- `Sequences`: `splice(i, 1)` and a search from the end.
- `Constants`: the layout constants.
- `Wrappers`: `Option` and `Outcome`, an outcome carrying the message of a thrown error.

Clocks, `cosf`/`sinf`, `confirm`, DOM state and the browser's storage become parameters of the operations that read them.

## Model

| member | source | states |
|---|---|---|
| `ImageGrid.GridBounds` | lib/imageProcessing.c:35 | the (w + 2) x (h + 2) bordered grid of an image at most `baseWidth` wide and `maxHeight` high fits the `maxPixelCount` buffer |
| `ImageGrid.Neighbours` | lib/imageProcessing.c:480-481 | the four neighbours of an interior cell, at the offsets -stride, +1, +stride and -1, are cells of the grid in the same row or column |
| `FloodFill.Fill` | lib/imageProcessing.c:78-202 | the cells rewritten are exactly those that were `from` and are now `to`, all interior; every other cell is unchanged; the result is one more than their number; the seed and every rewritten cell end with no `from` neighbour left (the fill is complete) |
| `FloodFill.VisitVertical` | lib/imageProcessing.c:84-98 | the checks above and below a cell keep the fill invariant, only turn `from` cells into `to`, and leave neither vertical neighbour `from` |
| `FloodFill.LeftWalk` | lib/imageProcessing.c:100-127 | the walk left along the row keeps the fill invariant (rewritten cells tracked, stack distinct, every filled cell stacked or closed) and leaves no `from` cell between the popped cell and where it stopped |
| `FloodFill.RightWalk` | lib/imageProcessing.c:150-177 | the walk right up to column w keeps the fill invariant, after which every filled cell is on the stack or closed |
| `Erosion.PushThinNeighbours` | lib/imageProcessing.c:452-458 | the neighbours pushed are exactly the set, one-pixel-thin neighbours of the cleared cell, in clockwise order from the top |
| `Erosion.Erase1` | lib/imageProcessing.c:443-460 | the buffer is the old one with exactly the popped cells cleared (`ClearAll`); the first popped cell is the initial cell and every later one was a one-pixel-thin 4-neighbour of an earlier popped cell right after that cell was cleared (`Chain`); the border stays clear; afterwards every cell that is thin was already thin and untouched, so no cell next to a cleared one is left thin |
| `Tracing.IsNewEdgePixel4` | lib/imageProcessing.c:275-283 | the result is 1 exactly when the cell holds 2 and one of its eight neighbours is clear, 0 otherwise |
| `Tracing.TraceUndo` | lib/imageProcessing.c:438-441 | every cell on the stack becomes 2 again and every other cell keeps its value |
| `Tracing.PolygonFound` | lib/imageProcessing.c:462-468 | each of the first `pointCount` points moves one cell up and left, back to image coordinates; the other points are unchanged |
| `Simplification.Farthest` | lib/imageProcessing.c:245-255 | the first point of the range farthest from the chord, with its distance, and (`start`, 0) when no distance exceeds 0: no point is farther, and none before it is as far |
| `Simplification.FarthestPoint` | lib/imageProcessing.c:245-255 | the search loop returns the index and distance `Farthest` defines |
| `Simplification.Simplify` | lib/imageProcessing.c:236-273 | the points kept of `start..end`: between 1 and all of them, at least two when the range has two, beginning with the first point and ending with the last |
| `Simplification.SimplifyKeepsOrder` | lib/imageProcessing.c:257-268 | the kept points are a subsequence of the original range: the original points in their original order |
| `Simplification.SimplifyCollapses` | lib/imageProcessing.c:257-272 | the range collapses to its two end points exactly when no inner point lies farther than `epsilon` from the chord |
| `Simplification.SimplifyShort` | lib/imageProcessing.c:237-238 | a range of one or two points is kept as it is |
| `Simplification.SimplifyFrame` | lib/imageProcessing.c:236-273 | what is kept depends on the points of the range alone |
| `Simplification.MoveForward` | lib/imageProcessing.c:265 | the `memcpy` moves the second half's points down to follow the first half's and changes nothing else |
| `Simplification.DouglasPeucker` | lib/imageProcessing.c:236-273 | the count returned is the size of `Simplify` of the original range, those points are left at `start` in order, the points outside `start..end` are unchanged, and a range of at most two points is untouched |
| `Simplification.SimplifyFirst` | lib/imageProcessing.c:257-262 | the first half is simplified in place and the split point it may have overwritten is restored |
| `Simplification.SimplifySecond` | lib/imageProcessing.c:263-267 | the second half is simplified and its kept points copied right after the first half's |
| `ImagePasses.Threshold` | lib/imageProcessing.c:486-492 | after the `memset` and the loops, the cell of each pixel is 1 when its alpha is 255 and 0 otherwise, and every other cell of the buffer is 0 |
| `ImagePasses.ThresholdedPixel` | lib/imageProcessing.c:488-491 | the cell of pixel (x, y) is `CellAt(w, x + 1, y + 1)` and holds 1 exactly when the pixel's alpha byte is 255 |
| `ImagePasses.ThresholdedFramed` | lib/imageProcessing.c:486-492 | the thresholded buffer holds only 0s and 1s and its border is clear |
| `ImagePasses.EraseRow` | lib/imageProcessing.c:510-515 | one row of the scan, right to left: each cell that passes the thin test is handed to `erase1`; the popped cells are exactly the cleared ones, each justified as in `ErasePass`, and no cell from the row's first on is left thin |
| `ImagePasses.ErasePass` | lib/imageProcessing.c:508-516 | the buffer is the old one with exactly the cells the `erase1` calls pop cleared, and each of them was thin when its call began or was pushed as a thin neighbour of an earlier one (`JustifiedAll`); the border stays clear and no one-pixel-thin cell is left anywhere in the buffer |
| `ImagePasses.MaxRow` | lib/imageProcessing.c:553-559 | the loop returns `LowestRow`: the pixel row of the last set cell, 0 when none is set |
| `ImagePasses.LowestRowIsLast` | lib/imageProcessing.c:553-559 | with a clear border, every set cell lies at or above `LowestRow`, some set cell lies on it when any cell is set, and it is 0 when no cell is set |
| `ImagePasses.Classify` | lib/imageProcessing.c:567-590 | a pixel is cleared exactly when its cell is clear; only traced cells (3) are painted, and a traced cell with a clear 4-neighbour always is; any other set cell is kept; the result is the pixel's entry of the `Plan` that `RepaintedPixel` and `RepaintedOpaque` are about |
| `ImagePasses.FinalPass` | lib/imageProcessing.c:561-597 | the image afterwards is the input repainted pixel by pixel as `Plan` of the buffer says |
| `ImagePasses.RepaintedPixel` | lib/imageProcessing.c:567-595 | a pixel whose cell is clear becomes transparent black, a painted one has its colour halved and becomes opaque, and every other pixel is kept |
| `ImagePasses.RepaintedTail` | lib/imageProcessing.c:564-597 | the bytes after the w x h pixels are left as they are |
| `ImagePasses.RepaintedOpaque` | lib/imageProcessing.c:486-597 | when every set cell holds an opaque pixel, as thresholding ensures, the repainted image has no semi-transparent pixel |
| `ImageScript.RemovedSemiAlpha` | scripts/image/imageProcessing.ts:39-46 | every pixel with alpha 255 keeps its four bytes, every other pixel becomes (0, 0, 0, 0), and the length is unchanged |
| `ImageScript.RemovedSemiAlphaOpaque` | scripts/image/imageProcessing.ts:39-46 | afterwards every alpha byte is 0 or 255 |
| `ImageScript.RemovedSemiAlphaIdempotent` | scripts/image/imageProcessing.ts:39-46 | removing semi-transparent pixels twice is removing them once |
| `ImageScript.RemoveSemiAlpha` | scripts/image/imageProcessing.ts:27-49 | the loop from the last pixel down leaves the canvas bytes equal to `RemovedSemiAlpha` of the original |
| `ImageScript.UnpackFlatten` | scripts/image/imageProcessing.ts:103-108 | reading the `Int32Array` view of the C point array back, point k from ints 2k and 2k + 1, gives the first `pointCount` points the C code wrote |
| `ImageScript.Collector.CreatePolygon` | scripts/image/imageProcessing.ts:103-110 | the callback appends one polygon, the unpacked first `pointCount` points, and keeps the earlier polygons |
| `Levels.RevivedTime` | scripts/level/level.ts:109-112 | a missing, NaN, zero or negative timestamp becomes 0, any other is kept, so the result is 0 or positive |
| `Levels.RevivedHeight` | scripts/level/level.ts:114-117 | a height in (`iconSize`, `maxHeight`] is truncated to an integer; a missing one, one of at most `iconSize` or one above `maxHeight` becomes `maxHeight`; the result lies in [`iconSize`, `maxHeight`] |
| `Levels.RevivedImage` | scripts/level/level.ts:118-123 | a non-empty image is kept; otherwise the processed image, or "", stands in for it |
| `Levels.ReviveHeader` | scripts/level/level.ts:107-125 | the revived name, timestamps, size and images always form a normal header (trimmed name, non-negative times, base width, height in range) |
| `Levels.ReviveSaved` | scripts/level/level.ts:64-125 | storing a normal level taller than `iconSize` and reviving it gives back the same header |
| `Levels.ReviveIconSizeHeight` | scripts/level/level.ts:114-115 | a level exactly `iconSize` high, which `prepare` can produce, comes back `maxHeight` high |
| `Levels.ReviveHeaderIdempotent` | scripts/level/level.ts:107-125 | reviving a revived header changes it no further unless its height is `iconSize` |
| `Levels.WithinPointLimits` | scripts/level/level.ts:126-138 | the polygons are accepted exactly when there are at most `MaxPolygonCount` of them and at most `MaxPointCount` points in all, although the loop stops at the first excess |
| `Levels.ScanCountsBalls` | scripts/level/level.ts:144-152 | with valid types only, the object scan accepts exactly when the balls stay within `MaxBallCount` |
| `Levels.ScanFindsInvalid` | scripts/level/level.ts:145-146 | a scan that meets an object of invalid type throws, unless too many balls come after it (earlier in the backward scan) |
| `Levels.ReviveObjects` | scripts/level/level.ts:139-153 | the objects loop accepts, rejects for too many balls, or throws the invalid-type message exactly as the scan says, and an accepted revival holds one fresh object built from each stored one |
| `Levels.Revive` | scripts/level/level.ts:94-155 | `revive` returns a level exactly when the polygon and object checks pass, throws exactly when an invalid object type is met first, and otherwise gives null; a revived level has the revived header, the stored polygons, its objects rebuilt one by one, and no physics handle |
| `Levels.ProcessedHeight` | scripts/level/level.ts:179-186 | the height from the lowest opaque row: `iconSize` below it, one more than the row otherwise, capped at `maxHeight` |
| `Levels.PreparedHeight` | scripts/level/level.ts:178-207 | the height is in range, at least the processed height, reaches the bottom edge of every object that fits, and is the processed height, `maxHeight` or some object's bottom edge |
| `Levels.ValidObjectsInside` | scripts/level/level.ts:198-207 | valid objects lie entirely inside the height `prepare` gives the level |
| `Levels.PrepareOutcome` | scripts/level/level.ts:188-196 | `prepare` passes exactly when the polygons are within both limits, and throws `MaxPolygonCount` before `MaxPointCount` |
| `Levels.CountPoints` | scripts/level/level.ts:191-193 | the loop counts every point of every polygon |
| `Levels.CheckLimits` | scripts/level/level.ts:188-196 | the checks give `PrepareOutcome`, with the messages the source throws |
| `Levels.RaiseToObjects` | scripts/level/level.ts:200-204 | the loop raises the height to the lowest object's bottom edge, as `Raised` defines |
| `Levels.Level.Prepare` | scripts/level/level.ts:157-228 | without an image to process nothing changes; otherwise the thumbnail, width and polygons are set, a limit failure throws with the processed height and the images kept, and success sets the prepared height, the processed image, and a resized image when the processed height differs from the canvas height |
| `Levels.Level.SetProcessed` | scripts/level/level.ts:171-186 | the thumbnail, base width, found polygons and processed height are stored |
| `Levels.Level.Resize` | scripts/level/level.ts:198-227 | the height becomes the prepared height, the processed image is stored, and the image is replaced only when the canvas was redrawn at another height |
| `Levels.Level.ToLevelFullInfo` | scripts/level/level.ts:64-81 | everything the level stores: its header, polygons and objects |
| `Levels.Level.ToLevelInfo` | scripts/level/level.ts:83-92 | the summary of the level's header |
| `Levels.Level.InfoOfFullInfo` | scripts/level/level.ts:64-92 | the summary is the summary of the full information |
| `Levels.Level.FromHeader` | scripts/level/level.ts:51-62 | a level holding the given header, polygons and objects and no physics handle |
| `Levels.Level.ClearImage` | scripts/level/level.ts:332-338 | base width, largest height and no images |
| `Levels.Level.ClearObjects` | scripts/level/level.ts:340-343 | no polygons and no objects |
| `Levels.Level.DestroyLevelPtr` | scripts/level/level.ts:325-330 | the physics handle is 0 afterwards |
| `Levels.BorderWalls` | scripts/level/level.ts:272-288 | four walls, one pixel outside the level |
| `Levels.BorderClosed` | scripts/level/level.ts:272-288 | the four border walls form a closed loop around (-1, -1) .. (width, height) |
| `Levels.PolygonWalls` | scripts/level/level.ts:290-308 | a polygon of one point has no wall; otherwise it has as many walls as `createLevelPtr` counts for it (1 for two points, one per point beyond) |
| `Levels.PolygonWallsChain` | scripts/level/level.ts:294-308 | a polygon's walls are the chain through its points, then the closing wall when it has more than two points |
| `Levels.PolygonClosed` | scripts/level/level.ts:294-308 | a polygon of more than two points becomes a closed loop of walls through its points in order, one wall per point |
| `Levels.WallsFit` | scripts/level/level.ts:242-309 | the walls written always fit the entries allocated, and fill them exactly when no polygon has a single point |
| `Levels.CountWalls` | scripts/level/level.ts:242-247 | the loop computes the wall count: 4 plus each polygon's count |
| `Levels.WritePolygon` | scripts/level/level.ts:294-308 | entries `w0` on receive the polygon's walls, entries before `w0` are kept, and the next free entry is returned |
| `Levels.WriteWalls` | scripts/level/level.ts:272-309 | the wall arrays begin with the border and then every polygon's walls, in order |
| `Levels.WriteObjects` | scripts/level/level.ts:311-317 | record k holds the type, position and radius of object k |
| `Levels.Level.CreateLevelPtr` | scripts/level/level.ts:236-323 | fresh wall arrays of the counted size that begin with `Walls` of the level, one record per object, and the handle the engine returns stored |
| `LevelObjects.TypeOf` | scripts/level/levelObject.ts:55-65 | an accepted type value stands for one of the four types, 0 to 3, equal to the number given |
| `LevelObjects.Coordinate` | scripts/level/levelObject.ts:67 | `parseInt(v) \|\| 0`: a finite number gives what `parseInt` reads from its `toString` form (its integer part when it is written without an exponent); a string gives the integer its leading sign and digits spell; every other value, and every NaN, gives 0 |
| `LevelObjects.CoordinateOfText` | scripts/level/levelObject.ts:67 | a coordinate saved as the decimal text of an integer, with or without a minus sign, reads back as that integer |
| `LevelObjects.CoordinateOfInteger` | scripts/level/levelObject.ts:67 | a coordinate saved as an integer of magnitude below 10^21 reads back as that integer |
| `LevelObjects.Radius` | scripts/level/levelObject.ts:46 | the radius is 6 for balls and cucumbers and 5 for goals and bombs |
| `LevelObjects.ClampX` | scripts/level/levelObject.ts:71-74 | the horizontal position lies in [`iconRadius`, `baseWidth - iconRadius`]; inside it is kept, below or above it becomes the nearer end |
| `LevelObjects.ClampY` | scripts/level/levelObject.ts:75-78 | the vertical position lies in [`iconRadius`, `maxHeight - iconRadius`]; inside it is kept, below or above it becomes the nearer end |
| `LevelObjects.ClampIdempotent` | scripts/level/levelObject.ts:70-79 | clamping a clamped position changes nothing, so moving an object to where it is leaves it there |
| `LevelObjects.LevelObject.constructor` | scripts/level/levelObject.ts:65-67 | a valid type builds an object with that type, the radius of the type and the clamped position |
| `LevelObjects.LevelObject.Move` | scripts/level/levelObject.ts:70-79 | the new position is the requested one clamped to the level, and nothing else changes |
| `LevelObjects.Create` | scripts/level/levelObject.ts:54-68 | the constructor succeeds exactly when the type is one of the numbers 0 to 3, and otherwise fails with "Invalid level object type: "; a new object has the type, its radius, a valid state and the clamped coordinates |
| `LevelObjects.Revive` | scripts/level/levelObject.ts:81-83 | reviving saved properties is constructing from them, with the same success condition and result |
| `ParseInts.RadixDigit` | scripts/level/levelObject.ts:67 | a character is a digit of base 10 exactly when it is '0' to '9', and a digit's value is below the base |
| `ParseInts.AccumulateDecimal` | scripts/level/levelObject.ts:67 | `parseInt` reads a run of decimal digits, most significant first, as the decimal value of the string |
| `ParseInts.ReadDecimal` | scripts/level/levelObject.ts:67 | decimal digits followed by anything that cannot continue them read as the value of the digits alone |
| `ParseInts.ParseIntDecimal` | scripts/level/levelObject.ts:67 | `parseInt` of a string that starts with decimal digits is the value of those digits |
| `ParseInts.MinusRead` | scripts/level/levelObject.ts:67 | after a minus sign `parseInt` negates what it reads |
| `ParseInts.ParseIntNat` | scripts/level/levelObject.ts:67 | `parseInt(n.toString())` is `n`, and with a minus sign in front it is `-n` |
| `ParseInts.ParseIntSkipsSpace` | scripts/level/levelObject.ts:67 | leading white space does not change what `parseInt` reads |
| `ParseInts.LeadingDigit` | scripts/level/levelObject.ts:67 | a number of at least 1 has a leading digit d in 1..9 at a place e with d·10^e <= y < (d+1)·10^e, which is the digit `parseInt` reads from an exponential form |
| `ParseInts.SmallLeadingDigit` | scripts/level/levelObject.ts:67 | a number in (0, 1) has a leading digit d in 1..9, e places below the point, with d <= y·10^e < d+1 |
| `ParseInts.ParseIntNumber` | scripts/level/levelObject.ts:67 | `parseInt` of a finite number is its integer part when `toString` writes it plainly, and its signed leading digit when `toString` uses an exponent |
| `LevelCacheNames.IsNameValid` | scripts/level/levelCache.ts:90-93 | an accepted name is present and not blank, and its trimmed form has no reserved character, does not end in ".levelinfo", and is neither digits only nor dots only |
| `LevelCacheNames.NameValidityIgnoresPadding` | scripts/level/levelCache.ts:91 | whether a name is accepted depends only on its trimmed form |
| `LevelCacheNames.LevelInfoKeyInvalid` | scripts/level/levelCache.ts:92 | a level's information key, a name followed by ".levelinfo", is never a valid name |
| `LevelCacheNames.NumberNameInvalid` | scripts/level/levelCache.ts:92 | the decimal form of a number is never a valid name |
| `LevelCacheNames.DotsNameInvalid` | scripts/level/levelCache.ts:92 | a name of dots only is rejected |
| `LevelCacheListing.KeyName` | scripts/level/levelCache.ts:110-111 | the name part of a key is a suffix of its URL without any "/" |
| `LevelCacheListing.GatheredNames` | scripts/level/levelCache.ts:106-112 | the loop collects one name per key not ending in ".levelinfo", each the decoding of such a key's name part |
| `LevelCacheListing.GatheredFails` | scripts/level/levelCache.ts:111-116 | once decoding a name throws, the whole listing fails |
| `LevelCacheListing.Present` | scripts/level/levelCache.ts:111 | one array entry per name, holding that name |
| `LevelCacheListing.Holes` | scripts/level/levelCache.ts:104 | an array of `n` holes |
| `LevelCacheListing.LevelNames` | scripts/level/levelCache.ts:95-121 | the listing is empty when decoding fails, and otherwise has `max(keys.length >> 1, names found)` entries |
| `LevelCacheListing.ValuesOfFilled` | scripts/level/levelCache.ts:104-112 | the names of an array filled from the front are the names written, in order |
| `LevelCacheListing.LevelNamesSorted` | scripts/level/levelCache.ts:113 | the listing is the collected names sorted (a sorted permutation), followed by the remaining holes |
| `LevelCacheListing.LevelNamesWithoutHoles` | scripts/level/levelCache.ts:104-113 | when at least half the keys name levels the listing is exactly the sorted names |
| `LevelCacheListing.OrphanInformationListsHole` | scripts/level/levelCache.ts:104-113 | two information keys without their levels list as one hole |
| `LevelCacheListing.Stored` | scripts/level/levelCache.ts:111 | `names[n++] = d` sets an entry, or appends one when `n` is the array's length |
| `LevelCacheListing.StoredFilled` | scripts/level/levelCache.ts:111 | storing the next name keeps the array filled from the front |
| `LevelCacheListing.GetLevelNames` | scripts/level/levelCache.ts:95-121 | the loop from the last key down returns `LevelNames` of the keys |
| `LevelCacheDownload.Head` | scripts/level/levelCache.ts:233 | `substr(0, n)` is a prefix, the first n characters when n is in range |
| `LevelCacheDownload.Tail` | scripts/level/levelCache.ts:233 | `substr(start)` is the text from `start` when it is in range |
| `LevelCacheDownload.OccursPrefix` | scripts/level/levelCache.ts:247 | an occurrence that ends in the first part of a concatenation is one of that part |
| `LevelCacheDownload.OccursQuote` | scripts/level/levelCache.ts:251 | the one-character pattern `"` occurs exactly where the text has a quote |
| `LevelCacheDownload.QuoteFirst` | scripts/level/levelCache.ts:233-251 | a quote with none before it from `from` on is the one `indexOf` finds |
| `LevelCacheDownload.WithNameReplacesName` | scripts/level/levelCache.ts:229-233 | a built-in level gets the new name in place of the text between its first `"name":"` and the next quote, the rest kept |
| `LevelCacheDownload.Splice` | scripts/level/levelCache.ts:253 | replacing a slice by "null" changes the length by `4 - (w - v)` |
| `LevelCacheDownload.StringCut` | scripts/level/levelCache.ts:247-255 | a cut runs from the quote just after the first key to the next quote, both quotes included |
| `LevelCacheDownload.StringCutQuoteFree` | scripts/level/levelCache.ts:251 | no quote lies strictly inside a string cut |
| `LevelCacheDownload.StringCutAbsent` | scripts/level/levelCache.ts:247-250 | without the key, or with a value that is not a string, the text is unchanged |
| `LevelCacheDownload.NulledStringValue` | scripts/level/levelCache.ts:247-255 | a string value after the first key becomes the literal null, and nothing else changes |
| `LevelCacheDownload.FirstOccurrenceKept` | scripts/level/levelCache.ts:253 | a change after the first occurrence of the key leaves that occurrence first |
| `LevelCacheDownload.NullFollowsKey` | scripts/level/levelCache.ts:253 | after nulling, the first key is where it was and is followed by the null |
| `LevelCacheDownload.NulledStringIdempotent` | scripts/level/levelCache.ts:247-264 | nulling a value twice is nulling it once |
| `LevelCacheDownload.NullStringValue` | scripts/level/levelCache.ts:247-264 | the method's edit is `NulledString`, for the processed image and for the thumbnail |
| `LevelCacheDownload.PolygonsCut` | scripts/level/levelCache.ts:265-278 | a polygons cut starts at the bracket just after the first `"polygons":` |
| `LevelCacheDownload.NulledPolygonsValue` | scripts/level/levelCache.ts:269-271 | polygons ended by the first "]," become null, and the comma and the rest stay |
| `LevelCacheDownload.NulledPolygonsLast` | scripts/level/levelCache.ts:272-275 | polygons without any "]," after them are nulled up to the first "}]}]}", whose last brace stays |
| `LevelCacheDownload.NulledPolygonsIdempotent` | scripts/level/levelCache.ts:265-278 | nulling the polygons twice is nulling them once |
| `LevelCacheDownload.NullPolygons` | scripts/level/levelCache.ts:265-278 | the method's edit is `NulledPolygons` |
| `LevelCacheDownload.DownloadLevel` | scripts/level/levelCache.ts:215-289 | an invalid name throws; the error code comes exactly when there is no downloader or no level text; otherwise the file is `name.json` holding the text with images and polygons nulled |
| `LevelCacheTimes.FormatLevelRecordTime` | scripts/level/levelCache.ts:459-468 | "-" exactly when there is no positive time; otherwise the capped centiseconds as seconds, the separator and two digits |
| `LevelCacheTimes.Centiseconds` | scripts/level/levelCache.ts:463-465 | the centiseconds lie in [0, 99999]: the floor of a tenth of the milliseconds, or the cap from 999990 ms on |
| `LevelCacheTimes.DigitsText` | scripts/level/levelCache.ts:467 | the text starts with a digit |
| `LevelCacheTimes.TimeTextParts` | scripts/level/levelCache.ts:467 | for 0 to 99999 centiseconds the text of line 467 is the integer seconds and two-digit hundredths |
| `LevelCacheTimes.WholeSeconds` | scripts/level/levelCache.ts:467 | `(centiseconds / 100) \| 0` is the integer quotient |
| `LevelCacheTimes.FormatAgreesBelowWrap` | scripts/level/levelCache.ts:459-468 | below 2^31 * 10 ms the corrected formatter and the one as written agree |
| `LevelCacheTimes.FormatMaximum` | scripts/level/levelCache.ts:464-467 | every time from 999.99 s on shows "999", the separator and "99 s" |
| `LevelCacheTimes.MaximumText` | scripts/level/levelCache.ts:464-467 | the cap reads "999", the separator and "99 s" |
| `LevelCacheTimes.DigitsTextInjective` | scripts/level/levelCache.ts:467 | two centisecond counts in range show the same text exactly when they are equal |
| `LevelCacheTimes.FormatIdentifiesCentiseconds` | scripts/level/levelCache.ts:459-468 | two times show the same text exactly when they have the same capped centiseconds |
| `LevelCacheTimes.AsWrittenWrapsToNegative` | scripts/level/levelCache.ts:463 | as written, 21474836480 ms wraps to a negative number of seconds instead of the cap |
| `LevelCacheRecords.RecordName` | scripts/level/levelCache.ts:426-430 | the name a record keeps is never empty, and is the trimmed name when that is not empty |
| `LevelCacheRecords.Normalized` | scripts/level/levelCache.ts:406-414 | the rewrite keeps the table's keys, and every record's time and name |
| `LevelCacheRecords.RewriteRelocalizes` | scripts/level/levelCache.ts:409-410 | a time formatted under the opposite separator reads, after `replace`, as formatted under the current one; the opposite separator occurs exactly when there is a time |
| `LevelCacheRecords.ReplaceAfterDigits` | scripts/level/levelCache.ts:409-410 | in seconds digits followed by the separator, `indexOf` finds the separator right after the digits, and `replace` swaps exactly that one for the new separator |
| `LevelCacheRecords.FirstChar` | scripts/level/levelCache.ts:409 | a character with none of its kind before it is the one `indexOf` finds |
| `LevelCacheRecords.DistinctTail` | scripts/level/levelCache.ts:406 | the keys after the first of a walk without repeats are the others |
| `LevelCacheRecords.StepLocalized` | scripts/level/levelCache.ts:407-410 | one rewrite step finds the opposite separator and leaves the table partly rewritten for the rest of the walk |
| `LevelCacheRecords.NormalizedRelocalizes` | scripts/level/levelCache.ts:403-415 | a table saved under the opposite separator, all of whose records hold a time, reads back entirely under the current separator |
| `LevelCacheRecords.NormalizedStopsAtCurrent` | scripts/level/levelCache.ts:411-412 | the walk stops, changing nothing, at a first record already under the current separator |
| `LevelCacheRecords.LevelRecords.constructor` | scripts/level/levelCache.ts:394-418 | the stored table rewritten by `Normalized`, or an empty one, and the stored last name |
| `LevelCacheRecords.LevelRecords.GetLevelRecord` | scripts/level/levelCache.ts:420 | the record under the key exactly when the table holds the key, and None otherwise |
| `LevelCacheRecords.LevelRecords.SetLevelRecord` | scripts/level/levelCache.ts:423-443 | the key maps to the time, the record name and the formatted time; the table is saved; the last name is the trimmed name, saved when it changed |
| `LevelCacheRecords.LevelRecords.DeleteLevelRecord` | scripts/level/levelCache.ts:445-452 | the key is removed, and the table saved only when it was there |
| `LevelCacheRecords.LevelRecords.ClearLastRecordName` | scripts/level/levelCache.ts:454-457 | a non-empty last name becomes "" and is saved; otherwise nothing changes |
| `LevelCacheRecords.RecordReadBack` | scripts/level/levelCache.ts:459-468 | a time whose text equals the stored record's has the same centiseconds as the recorded time |
| `LevelCacheDownload.MatchesPrefix` | scripts/level/levelCache.ts:247 | a comparison that stays inside the first part of a concatenation compares that part |
| `ControlModes.NextMode` | scripts/ui/controlMode.ts:67-69 | toggling keeps the mode among the five modes, and without acceleration support it is always the pointer |
| `ControlModes.ToggleCycles` | scripts/ui/controlMode.ts:66-73 | with acceleration support, toggling five times comes back to the start after visiting every mode |
| `ControlModes.InitialMode` | scripts/ui/controlMode.ts:77-81 | the initial mode is the stored one when acceleration is supported and the stored text reads as a mode from 0 to 4, and the pointer otherwise |
| `ControlModes.OrientedByMode` | scripts/ui/controlMode.ts:95-96 | each accelerometer mode maps a reading (x, y) to (-x, y), (y, x), (x, -y) or (-y, -x) |
| `ControlModes.DeadZone` | scripts/ui/controlMode.ts:121-124 | a component is zeroed exactly when it lies strictly between -0.3 and 0.3, and kept otherwise |
| `ControlModes.SmoothedBetween` | scripts/ui/controlMode.ts:127-128 | the low-pass filter moves the value towards the reading without passing it, and leaves it alone only when the two are equal |
| `ControlModes.ControlMode.constructor` | scripts/ui/controlMode.ts:45-52 | the pointer mode, no acceleration support, all flags clear, zero acceleration and no listener |
| `ControlModes.ControlMode.ModeImage` | scripts/ui/controlMode.ts:62-64 | the pointer shows the hand image, and only the two non-inverted device modes have an image in the sheet |
| `ControlModes.ControlMode.Prepare` | scripts/ui/controlMode.ts:86-99 | the axes are swapped for the vertical modes, the signs flipped for the inverted ones, and the motion listener is registered exactly when the mode is not the pointer |
| `ControlModes.ControlMode.ToggleMode` | scripts/ui/controlMode.ts:66-73 | the mode becomes the next one, its decimal text is stored, and the state stays consistent |
| `ControlModes.ControlMode.Init` | scripts/ui/controlMode.ts:75-84 | the support flag is recorded and the mode is the one chosen from the stored text, with a consistent state |
| `ControlModes.ControlMode.ProcessAndroidAcceleration` | scripts/ui/controlMode.ts:101-129 | every other call is skipped and leaves the acceleration unchanged; the others filter the oriented, dead-zoned reading |
| `ControlModes.ControlMode.DeviceMotion` | scripts/ui/controlMode.ts:131-154 | the acceleration becomes the filtered, oriented, dead-zoned reading of the event |
| `MainHelpers.Format2TwoDigits` | scripts/main.ts:69-71 | every number from 0 to 99 is written with exactly two decimal digits, which read back as the number |
| `MainHelpers.Format2Large` | scripts/main.ts:69-71 | a number of 10 or more is written as its plain decimal form, with no leading zero |
| `MainHelpers.CssNumber` | scripts/main.ts:78-81 | a model coordinate whose 32-bit integer part is 0 is 0 CSS pixels |
| `MainHelpers.ModelOfCssNumber` | scripts/main.ts:78-86 | converting an integer model coordinate to CSS units and back with `model` gives it again (in exact arithmetic) |
| `MainHelpers.ScaleRoundTrip` | scripts/main.ts:78-91 | scaling by s / p and then by p / s gives the number back |
| `MainHelpers.ScaledHeightAtMostBaseWidth` | scripts/main.ts:179-180 | the base height a scale factor gives is never more than the base width |
| `MainHelpers.AdjustScale` | scripts/main.ts:174-192 | the scale factor is at least 1; every factor up to a chosen one above 1 fits the window; the next one does not fit (or even 1 does not); the base height is the scaled height raised to `minHeight`, and lies between `minHeight` and the base width |
| `MainHelpers.Zeroed` | scripts/main.ts:127-142 | a function property is kept, a boolean becomes false, a number 0, and anything else null |
| `MainHelpers.ZeroedIdempotent` | scripts/main.ts:125-144 | zeroing an object twice is zeroing it once |
| `MainHelpers.JsObject.ZeroObject` | scripts/main.ts:125-144 | every property is zeroed, no property is added or removed, and every array a property referred to is filled with null |
| `MainHelpers.JsObject.ZeroProperty` | scripts/main.ts:127-142 | one property is zeroed, the others are unchanged, and its array, if any, is filled with null |
| `MainHelpers.FillNull` | scripts/main.ts:139 | every element of the array becomes null |
| `Memory.AlignBuffer` | lib/memory.c:33-38 | the result is a multiple of 16, at least `buffer + skipCount` and less than 16 bytes past it, and equal to it when it is already aligned |
| `Memory.LowBitsAreRemainder` | lib/memory.c:35-36 | `address & 15` is the address modulo 16 |
| `Memory.Carve` | lib/physics.c:162-206 | one region start per size, each aligned after the end of the previous region |
| `Memory.CarveLayout` | lib/physics.c:162-206 | every carved region start is aligned, the first lies at or after the buffer, each region ends before the next one starts, and the last ends within the sizes plus 15 bytes of padding per region |
| `Memory.LevelRegionSizes` | lib/physics.c:141-156 | the fifteen region sizes of a physics level, in allocation order |
| `Memory.LevelBufferFits` | lib/physics.c:140-206 | the fifteen regions carved from one allocation of the summed sizes plus 15·16 bytes are aligned, disjoint and inside the allocation |
| `ModelCoords.ModelCoordinates.constructor` | scripts/gl/modelCoordinates.ts:31-33 | the descriptor remembers its heap address |
| `ModelCoords.ModelCoordinates.SetCoordinates` | scripts/gl/modelCoordinates.ts:35-59 | the stored rectangle gives back the pivot as (-left, -top) and the size as (right - left, bottom - top), as the commented-out getters assume; only the four floats at `ptr / 4` change |
| `SheetLayout.FieldsAreConsecutive` | lib/gl.c:50-83 | each 16-byte descriptor of the sprite sheet starts where the previous one ends, so descriptor k lies 4k floats past the base |
| `Pivot.PivotX` | scripts/gl/pivot.ts:36-45 | left gives 0, center half the width rounded down, right the width, tested in that order; with no horizontal flag it fails with "Invalid alignment: " and the alignment |
| `Pivot.PivotY` | scripts/gl/pivot.ts:47-56 | top gives 0, center half the height rounded down, bottom the height, tested in that order; with no vertical flag it fails |
| `Pivot.PivotWithinSize` | scripts/gl/pivot.ts:36-56 | a pivot that exists lies between 0 and the (non-negative) size |
| `Pivot.AxesIndependent` | scripts/gl/pivot.ts:28-56 | vertical flags do not change the horizontal pivot, and horizontal flags do not change the vertical one |
| `Polyfills.RelativeIndex` | assets/js/polyfills.js:53-55 | a position is clamped to 0 .. len, a negative one counting back from the end |
| `Polyfills.Filled` | assets/js/polyfills.js:57-58 | exactly the indices in [first, final) get the value; the length and every other element are kept |
| `Polyfills.FilledEmpty` | assets/js/polyfills.js:57-58 | an empty or reversed range changes nothing |
| `Polyfills.FilledIdempotent` | assets/js/polyfills.js:48-61 | filling the same range twice is filling it once |
| `Polyfills.FillAll` | assets/js/polyfills.js:49-55 | `fill(value)` with start 0 and no end sets every element |
| `Polyfills.FillTail` | assets/js/polyfills.js:51-55 | a negative start -n with no end fills exactly the last n elements |
| `Polyfills.Fill` | assets/js/polyfills.js:48-61 | the array itself is returned, with the elements from the first index (`start \| 0` made relative) up to the final index (`end \| 0`, or the length, made relative) set to the value and all others kept |
| `Resources.Without` | scripts/resource/resourceStorage.ts:56 | deleting a name keeps every other name, keeps the names distinct, shortens a list that held it by one and leaves a list without it unchanged |
| `Resources.InvokeAll` | scripts/resource/resourceStorage.ts:81-82 | one call of the member operation per stored name, in the visiting order |
| `Resources.InvokeAllOnce` | scripts/resource/resourceStorage.ts:79-99 | each stored resource receives the operation exactly once, and a name not stored receives none |
| `Resources.ResourceStorage.constructor` | scripts/resource/resourceStorage.ts:28-29 | an empty, live registry with count 0 |
| `Resources.ResourceStorage.Contains` | scripts/resource/resourceStorage.ts:35-37 | a destroyed registry contains nothing |
| `Resources.ResourceStorage.Get` | scripts/resource/resourceStorage.ts:64-66 | a resource is returned exactly when the registry contains its name, and it is the stored one |
| `Resources.ResourceStorage.Add` | scripts/resource/resourceStorage.ts:39-48 | an empty name, a null resource or a destroyed registry fails with "Invalid resource"; a known name fails with "Name already exists"; both leave the registry unchanged; otherwise the resource is stored under its name and the count grows by one, so the count stays the number of names |
| `Resources.ResourceStorage.GetAndRemove` | scripts/resource/resourceStorage.ts:50-62 | the result is what `get` gave; a present resource is removed and the count drops by one; afterwards the name is not contained, so a second call returns null |
| `Resources.ResourceStorage.IsLoaded` | scripts/resource/resourceStorage.ts:68-77 | loaded exactly when the registry is live, non-empty and every member is loaded |
| `Resources.ResourceStorage.InvokeMembers` | scripts/resource/resourceStorage.ts:79-91 | a live registry calls the operation once per member in order; a destroyed one calls nothing |
| `Resources.ResourceStorage.LoadAll` | scripts/resource/resourceStorage.ts:79-84 | `load` calls `load` of every member once, and nothing after destroy |
| `Resources.ResourceStorage.ReleaseAll` | scripts/resource/resourceStorage.ts:86-91 | `release` calls `release` of every member once, and nothing after destroy |
| `Resources.ResourceStorage.DestroyAll` | scripts/resource/resourceStorage.ts:93-99 | every member is destroyed once and the registry becomes destroyed and empty for good; a second call does nothing; the count is not reset |
| `Textures.MaxSize` | scripts/gl/texture.ts:103 | the largest allowed side is the smaller of 4096 and the context's `MAX_TEXTURE_SIZE` |
| `Textures.BindFailure` | scripts/gl/texture.ts:100-112 | with a context, binding gets a handle exactly when both sides are positive and at most the maximum, `createTexture` returns a texture and no GL error is pending |
| `Textures.UploadParameters` | scripts/gl/texture.ts:116-132 | an upload leaves both filters NEAREST and both wrap modes MIRRORED_REPEAT when the texture is mirrored, else CLAMP_TO_EDGE |
| `Textures.Texture.constructor` | scripts/gl/texture.ts:30-42 | a texture starts with its `gl` and `mirrored` flag, size 0 x 0, no image and no handle |
| `Textures.Texture.ReleaseInternal` | scripts/gl/texture.ts:75-78 | the handle is deleted and dropped, so the texture is no longer loaded, while the image and size are kept; without `gl` it fails |
| `Textures.Texture.Release` | scripts/gl/texture.ts:86 | the `release()` that `bindImage` calls first: a loaded texture goes through `releaseInternal`, loses its handle and logs its delete, or fails like `releaseInternal` once `gl` is gone; an unloaded one is left alone (the behaviour assumed of the `Resource` base class, see "Left out") |
| `Textures.Texture.BindImage` | scripts/gl/texture.ts:85-137 | the texture is released first, then the size (from the image when there is one, else the arguments) and the image are recorded; with no context it stays unloaded; with one it fails for a non-positive size, a size above the maximum, a null texture or a GL error, with the source's messages, and otherwise holds the new handle after binding, uploading and setting filters and wrap modes |
| `Textures.Texture.LoadInternal` | scripts/gl/texture.ts:70-73 | a texture with an image is bound again from that image and its size; one without an image, such as the framebuffer texture, is left as it is |
| `Textures.Texture.DestroyInternal` | scripts/gl/texture.ts:80-83 | the image and `gl` are forgotten, so later loads do nothing |
| `Textures.Texture.Create` | scripts/gl/texture.ts:38-44 | a new texture records `mirrored`, the resolved size and the image; with a context it is loaded exactly when binding succeeds, and never for a non-positive size |
| `Textures.CreateFramebufferTextureAsWritten` | scripts/gl/webGL.ts:314 | as written, the framebuffer texture gets the width as `mirrored` and the height as its width, so its height is 0 and, with a context, the constructor always fails with "Invalid image size: H x 0" |
| `Textures.CreateFramebufferTexture` | scripts/gl/webGL.ts:314 | the intended framebuffer texture is unmirrored, of the power-of-two size, and loaded exactly when that size fits and the context does not fail |
| `TextureCoords.PackIsSum` | scripts/gl/textureCoordinates.ts:44-49 | for y below 256 the packed corner `(x << 9) \| (y << 1)` is x·512 + y·2, an even number, so the low bit is free for alpha |
| `TextureCoords.DecodePacked` | scripts/gl/webGL.ts:71-75 | the shader's `floor(v / 512)`, `floor(mod(v / 2, 256))` and `mod(v, 2)` recover x, y and alpha from a packed corner plus alpha in [0, 2) |
| `TextureCoords.TextureCoordinates.constructor` | scripts/gl/textureCoordinates.ts:34-36 | the descriptor remembers its heap address |
| `TextureCoords.TextureCoordinates.SetCoordinates` | scripts/gl/textureCoordinates.ts:38-50 | the four floats at `ptr / 4` become the packed left-top, left-bottom, right-top and right-bottom corners, with right = left + width and bottom = top + height, and no other heap slot changes |
| `TextureCoords.CornersDecode` | scripts/gl/textureCoordinates.ts:38-50 | for a rectangle inside 256 x 256 texels, the shader recovers each of the four corners that `setCoordinates` writes, whatever alpha in [0, 2) a draw adds |
| `UiSprites.Decode` | scripts/ui/uiSpriteSheet.ts:73-77 | the four fields read from an id by `&` and `>>>` are bytes |
| `UiSprites.DecodeEncode` | scripts/ui/uiSpriteSheet.ts:73-77 | decoding an id built from four bytes (width, height, left, top from the low byte up) gives those four bytes back |
| `UiSprites.SpriteEncodesLayout` | scripts/ui/uiSpriteSheet.ts:36-70 | every declared id is the encoding of its cell of the sheet layout |
| `UiSprites.SpriteDecodes` | scripts/ui/uiSpriteSheet.ts:36-77 | every declared id decodes to its cell |
| `UiSprites.SpriteSizes` | scripts/ui/uiSpriteSheet.ts:36-70 | `ScrollThumb` is two cells wide and three high at cell (4, 3); every other sprite is one cell |
| `UiSprites.SpriteInsideSheet` | scripts/ui/uiSpriteSheet.ts:30-70 | every declared sprite lies inside the 96 x 112 sheet |
| `UiSprites.LayoutStep` | scripts/ui/uiSpriteSheet.ts:36-70 | consecutive declared sprites advance in reading order over the sheet |
| `UiSprites.LayoutIncreasing` | scripts/ui/uiSpriteSheet.ts:36-70 | the declared sprites are in strictly increasing reading order |
| `UiSprites.SpriteCellsDistinct` | scripts/ui/uiSpriteSheet.ts:36-70 | no two declared sprites share a cell |
| `UiSprites.CellStyle` | scripts/ui/uiSpriteSheet.ts:80-90 | a one-cell sprite shows a 12-pixel icon 2 pixels in from its cell's corner; a larger one shows all its cells |
| `UiSprites.StyleOf` | scripts/ui/uiSpriteSheet.ts:72-91 | the style of an id: the icon or whole-cells style of its decoded cell, and for `ScrollThumb` a 24 x 48 strip at (-72, -48) |
| `UiSprites.SpriteShowsOwnCell` | scripts/ui/uiSpriteSheet.ts:72-91 | every declared sprite's element shows only pixels of its own cell, which lies inside the sheet |
| `UiSprites.ParsedStyleOfId` | scripts/ui/uiSpriteSheet.ts:73-90 | for an id below 2^32, resizing from the parsed number gives the style of the id |
| `UiSprites.ParseIdOfText` | scripts/ui/uiSpriteSheet.ts:73-99 | the attribute `id.toString()` writes reads back through `parseInt` as the same number, and NaN as NaN |
| `UiSprites.Html` | scripts/ui/uiSpriteSheet.ts:115-117 | the span's markup starts with its id attribute, whose text reads back as the id |
| `UiSprites.SpanElement.constructor` | scripts/ui/uiSpriteSheet.ts:104 | a new span has no attribute and no style |
| `UiSprites.UiSpriteSheet.constructor` | scripts/ui/uiSpriteSheet.ts:32 | the background size is unset until the window is first resized |
| `UiSprites.UiSpriteSheet.WindowResized` | scripts/ui/uiSpriteSheet.ts:124-126 | the background size becomes the whole sheet, 96 x 112 |
| `UiSprites.UiSpriteSheet.Resize` | scripts/ui/uiSpriteSheet.ts:72-91 | the element gets the sheet's background size and the style of the number its attribute parses to |
| `UiSprites.UiSpriteSheet.Change` | scripts/ui/uiSpriteSheet.ts:93-101 | the attribute becomes the id's text ("NaN" for NaN) and the element the style of that id |
| `UiSprites.UiSpriteSheet.Create` | scripts/ui/uiSpriteSheet.ts:103-113 | a fresh span with the sheet image, the id's decimal text and, for an id below 2^32, the id's style |
| `UiSprites.UiSpriteSheet.FinishHtmlCreation` | scripts/ui/uiSpriteSheet.ts:119-122 | the element gets the sheet image, and its attribute is replaced by the text of the number it parses to, "NaN" when it holds no digits, with that number's style |
| `Renderer.NextPowerOfTwoIsSmear` | scripts/gl/webGL.ts:166-175 | when x is not a power of two, the five `x \|= x >>> k` steps plus one are the bit smear of x plus one |
| `Renderer.SmearOfX` | scripts/gl/webGL.ts:169-173 | for 0 < x < 2^31 the smear sets every bit up to and including x's top bit, and no more |
| `Renderer.SmearReachesTop` | scripts/gl/webGL.ts:169-173 | every bit at or below the top bit of x is set by the smear |
| `Renderer.NextPowerOfTwoIsLeast` | scripts/gl/webGL.ts:166-175 | for 0 < x < 2^31, `nextPowerOfTwo(x)` is a power of two with x <= result < 2x, and it is x itself exactly when x is a power of two |
| `Renderer.FramebufferSizing` | scripts/gl/webGL.ts:301-312 | per axis, the framebuffer texture is a power of two at least the desired size; its texel extent in the 128-texel sprite sheet is in 1 .. 128; the view it maps back to covers at least the desired size and at most the texture |
| `Renderer.TexelExtent` | scripts/gl/webGL.ts:307-308 | `Math.ceil(desired * 128 / powerOfTwo)` lies in 1 .. 128, and maps back to between desired and powerOfTwo pixels |
| `Renderer.ViewExtent` | scripts/gl/webGL.ts:311-312 | truncating with `\| 0` keeps the view between the desired size and the texture size |
| `Renderer.SizingBounds` | scripts/gl/webGL.ts:307-312 | with desired <= powerOfTwo, the rounded-up coordinate is in 1 .. 128 and maps back inside [desired, powerOfTwo] |
| `Renderer.IndexTableSpec` | scripts/gl/webGL.ts:441-463 | rectangle r gets the indices 4r, 4r+1, 4r+2, 4r+2, 4r+1, 4r+3 (triangles 0 1 2 and 2 1 3), and every index stays below 4n |
| `Renderer.IndexTableFitsUnsignedShort` | scripts/gl/webGL.ts:450-463 | the 512-rectangle table has 3072 entries, the largest 2047, which fits the `Uint16Array` |
| `Renderer.BuildIndexTable` | scripts/gl/webGL.ts:450-463 | the loop fills the 3072 entries with exactly the index table |
| `Renderer.IndexEntries` | scripts/gl/webGL.ts:453-463 | the six entries one loop step writes for rectangle r are the table's entries 6r .. 6r+5 |
| `Renderer.Slots` | scripts/gl/webGL.ts:131-132 | the i-th staged rectangle is the 12 floats at `verticesPtr / 4 + 12 i` |
| `Renderer.FlattenSlots` | scripts/gl/webGL.ts:380 | uploading the first n staged rectangles is uploading the first 12 n floats of the staging buffer |
| `Renderer.SlotsAppend` | scripts/gl/webGL.ts:503-510 | writing slot n and nothing else appends one rectangle to the staged ones |
| `Renderer.WebGL.constructor` | scripts/gl/webGL.ts:117-137 | every field starts zero or null, with no staging buffer and no GL calls |
| `Renderer.WebGL.Flush` | scripts/gl/webGL.ts:372-388 | with no rectangles nothing happens; otherwise the staged floats are uploaded, the current texture bound, 6 n indices drawn and the count reset, as the batch model's flush says; nothing else changes |
| `Renderer.WebGL.BeginRectangle` | scripts/gl/webGL.ts:498-501 | flushes when the texture changes or 512 rectangles are staged, then makes the texture current; afterwards there is room for one more rectangle |
| `Renderer.WebGL.NextSlotArguments` | scripts/gl/webGL.ts:503 | the next slot `verticesPtr + 48 * rectangleCount` is a valid destination for the C draw call, disjoint from the descriptors it reads |
| `Renderer.WebGL.Commit` | scripts/gl/webGL.ts:510 | counting the rectangle just written appends it to the staged batch |
| `Renderer.WebGL.Draw` | scripts/gl/webGL.ts:497-511 | the batch becomes the batch model's draw of the rectangle `_draw` computes from the descriptors; only the staging buffer of the heap changes |
| `Renderer.WebGL.DrawScale` | scripts/gl/webGL.ts:513-528 | as `draw`, with the scaled rectangle of `_drawScale` |
| `Renderer.WebGL.DrawRotate` | scripts/gl/webGL.ts:530-545 | as `draw`, with the rotated rectangle of `_drawRotate` |
| `Renderer.WebGL.DrawScaleRotate` | scripts/gl/webGL.ts:547-563 | as `draw`, with the scaled and rotated rectangle of `_drawScaleRotate` |
| `Renderer.WebGL.PrepareNativeDraw` | scripts/gl/webGL.ts:152-155 | flushes and makes the texture current, with nothing staged |
| `Renderer.WebGL.DrawNative` | scripts/gl/webGL.ts:157-160 | the n rectangles the C side wrote to the first slots are drawn as one flush, and the count is reset |
| `Renderer.WebGL.Destroy` | scripts/gl/webGL.ts:338-370 | with a context, unbinds the framebuffer and deletes every object held; zeroes every field; a partial destroy keeps the staging buffer, a full one frees it if there was one |
| `Renderer.WebGL.ZeroObject` | scripts/gl/webGL.ts:362 | every field back to zero or null, without GL calls |
| `Renderer.WebGL.UseFramebuffer` | scripts/gl/webGL.ts:478-495 | binds the framebuffer (or the canvas), then sets the view constants and viewport to its size |
| `Renderer.WebGL.CheckForLostContextUseFrameBufferAndClear` | scripts/gl/webGL.ts:396-421 | true exactly when there is a live context; with none nothing changes; with a lost one the object is partially destroyed; otherwise the framebuffer is bound and cleared |
| `Renderer.WebGL.AllocateRectangleBuffers` | scripts/gl/webGL.ts:435-476 | allocates the staging buffer only when there is none, then uploads the index table, sizes the vertex buffer and uploads the whole staging buffer |
| `Renderer.WebGL.AcquireContext` | scripts/gl/webGL.ts:188-230 | the context is the first of "webgl2", "webgl" and "experimental-webgl" that is given, version 2 only for "webgl2" |
| `Renderer.WebGL.CreateObjects` | scripts/gl/webGL.ts:239-297 | the view is the canvas size and the program, shaders and buffers are the created ones |
| `Renderer.WebGL.CreateFramebuffer` | scripts/gl/webGL.ts:301-323 | the framebuffer texture and view get the computed sizes, the framebuffer coordinates descriptor gets the texel rectangle, and the framebuffer is bound; the heap changes only at the descriptor |
| `Renderer.WebGL.Recreate` | scripts/gl/webGL.ts:177-336 | fails with "WebGL apparently not supported" exactly when no context is given, after the partial destroy's GL calls and with the heap untouched; otherwise the GL log grows by the partial destroy's calls, the index, vertex and staging uploads, the framebuffer bound and then the canvas bound with the view constants and viewport at the canvas size; the heap changes only at the framebuffer coordinates; the view is the canvas, the staging buffer exists, nothing is staged, the framebuffer is sized by `FramebufferSizing`, and `checkRecreate` with the same canvas answers false |
| `Renderer.WebGL.Build` | scripts/gl/webGL.ts:239-325 | from a context on, the objects, buffers and framebuffer of `recreate` are in place, the view is the canvas, the log grows by `BuildCalls` (the uploads of the staging floats as they were, then the framebuffer bound) and the heap changes only at the framebuffer coordinates |
| `Renderer.WebGL.Reacquire` | scripts/gl/webGL.ts:177-230 | the partial destroy and the context attempts of `recreate`: the log grows by exactly the destroy's calls, the heap and the staging pointer stay, nothing is staged or bound, the context is the first one given and the version is 2 only for "webgl2" |
| `Renderer.WebGL.BuildBuffers` | scripts/gl/webGL.ts:238-299 | the view is set, the program and buffers exist, the staging buffer is the one held or else the allocation, the log grows by the index, vertex and staging uploads of the floats in the heap, and `checkRecreate` with the same canvas answers false |
| `Renderer.WebGL.BuildAndBind` | scripts/gl/webGL.ts:238-326 | after the framebuffer is built the canvas is bound again: the log grows by `RebuildCalls` (the uploads, the framebuffer bound, then the canvas bound with view constants and viewport at the canvas size) and the heap changes only at the framebuffer coordinates |
| `Renderer.RecreateSettlesCheck` | scripts/gl/webGL.ts:162-164 | with a context and the view at the canvas size, `checkRecreate` answers false for exactly that size without a lost context; any other size or a lost context asks for another `recreate` |
| `Batching.FlattenLength` | scripts/gl/webGL.ts:380 | an upload of n rectangles carries 12 n floats, rectangle k's floats at 12 k onwards |
| `Batching.FlattenAppend` | scripts/gl/webGL.ts:380 | uploading two runs of rectangles one after the other is uploading their concatenation |
| `Batching.FlushSpec` | scripts/gl/webGL.ts:372-388 | with nothing pending flush changes nothing; otherwise it uploads exactly the pending floats, binds the current texture, draws 6 indices per rectangle and empties the batch |
| `Batching.DrawSpec` | scripts/gl/webGL.ts:497-511 | a draw makes its texture current and stages its rectangle last; it flushes exactly on a texture change or a full buffer, and otherwise leaves earlier rectangles and the log alone; the batch stays within 512 |
| `Batching.TextureSwitch` | scripts/gl/webGL.ts:498-501 | drawing texture B while A's rectangles are pending issues one flush of A's rectangles first |
| `Batching.PrepareNativeDrawSpec` | scripts/gl/webGL.ts:152-155 | flushes and retargets the texture without staging anything |
| `Batching.DrawNativeSpec` | scripts/gl/webGL.ts:157-160 | the n rectangles the C side staged are flushed with the prepared texture, and nothing stays pending |
| `Batching.ChunksSpec` | scripts/gl/webGL.ts:498 | N rectangles split into ceil(N / 512) groups of 1 to 512, which together are the N rectangles in order |
| `Batching.DrawAllFrom` | scripts/gl/webGL.ts:497-511 | from 1 to 512 pending rectangles of one texture, more draws of it then a flush issue one flush per chunk of all of them |
| `Batching.DrawAllThenFlush` | scripts/gl/webGL.ts:497-511 | from an empty batch, N draws of one texture then flush issue one flush per chunk of at most 512 rectangles, in call order |
| `Gl.Quad` | lib/gl.c:94-123 | a quad is twelve floats: per corner x, y, then the corner's packed texture coordinate plus alpha |
| `Gl.DrawQuadLayout` | lib/gl.c:89-124 | `draw` writes left-top, left-bottom, right-top, right-bottom, each model corner plus the view offset, with the texture coordinate plus alpha |
| `Gl.DrawScaleQuadLayout` | lib/gl.c:126-161 | `drawScale` writes each model corner times the scale plus the view offset |
| `Gl.DrawRotateQuadLayout` | lib/gl.c:163-207 | `drawRotate` writes each corner (x, y) as (cos x + sin y, cos y - sin x) plus the view offset |
| `Gl.DrawScaleRotateQuadLayout` | lib/gl.c:209-253 | `drawScaleRotate` is `drawRotate` of the model scaled about its pivot |
| `Gl.DrawScaleIsDrawOfScaledModel` | lib/gl.c:126-161 | `drawScale` is `draw` of the scaled model, and scale 1 is a plain `draw` |
| `Gl.RotateDraws` | lib/gl.c:163-253 | angle 0 (cos 1, sin 0) is a plain `draw`, and `drawScaleRotate` with scale 1 is `drawRotate` |
| `Gl.RotationIsRigid` | lib/gl.c:186-206 | with cos² + sin² = 1 the written rotation keeps every distance, so the quad stays congruent despite the flipped sine |
| `Gl.TextureFloatsIgnoreTransform` | lib/gl.c:89-252 | whatever the transform, every vertex's third float is its corner's packed texture coordinate plus alpha |
| `Gl.WriteQuad` | lib/gl.c:109-123 | the twelve floats at the destination become the quad and no other heap float changes |
| `Gl.WriteVertex` | lib/gl.c:109-111 | one vertex's three floats are written and nothing else |
| `Gl.Draw` | lib/gl.c:89-124 | the destination holds `draw`'s quad of the descriptors read before the write; the rest of the heap is unchanged |
| `Gl.DrawScale` | lib/gl.c:126-161 | the destination holds `drawScale`'s quad; the rest of the heap is unchanged |
| `Gl.DrawRotate` | lib/gl.c:163-207 | the destination holds `drawRotate`'s quad for the given cosine and sine; the rest of the heap is unchanged |
| `Gl.DrawScaleRotate` | lib/gl.c:209-253 | the destination holds `drawScaleRotate`'s quad; the rest of the heap is unchanged |
| `GlRender.Rendered` | lib/gl.c:89-207 | a plain, scaled or rotated rectangle is the twelve floats `draw`, `drawScale` or `drawRotate` write |
| `GlRender.QuadsAppend` | lib/gl.c:258 | the rectangles of two lists written one after the other are the rectangles of their concatenation |
| `GlRender.RenderedUnmoved` | lib/gl.c:89-207 | a rectangle whose descriptors lie outside the staging buffer reads the same floats however the buffer changes |
| `GlRender.ChunksAfterWhole` | lib/gl.c:260-262 | whole chunks of 512 followed by at most 512 more flush as the whole chunks, then the rest in one flush |
| `GlRender.FirstChunk` | lib/gl.c:262 | a whole number of chunks flushes its first 512 rectangles first |
| `GlRender.Stage` | lib/gl.c:258 | writing one rectangle to the next slot stages it after the others; the heap outside the staging buffer stays as it was |
| `GlRender.EmitSmall` | lib/gl.c:258 | `incrementSmallRectangleCount` then a draw: one more rectangle staged, without a flush |
| `GlRender.Emit` | lib/gl.c:262 | `incrementRectangleCount` then a draw: with 512 staged they are first sent to `drawNative`, then the rectangle is staged; the sent and staged rectangles together are all written so far |
| `GlRender.FlushFull` | lib/gl.c:260 | `flushRectangleCount` with 512 staged sends them to `drawNative` and restarts at the first slot |
| `GlRender.Finish` | lib/gl.c:260 | the closing `drawNative` sends the rest; the GL calls are one flush per chunk of 512 of every rectangle written, in order |
| `GlRender.FinishBatch` | lib/gl.c:358-382 | the closing `drawNative` of a batch under 512 draws every rectangle written in one flush |
| `GlRender.SpriteSheet.constructor` | lib/gl.c:264-299 | the sheet keeps its base address, speeds and angles, with the last time 0 |
| `GlRender.SpriteSheet.Tick` | lib/gl.c:304-315 | the frame time is the clamped time since the last frame, and the last time becomes the given time |
| `GlRender.LevelState.constructor` | lib/physics.c:140-206 | a fresh level is unfinished, unfaded, with no explosion and full global alpha |
| `GlRender.FrameDelta` | lib/gl.c:304-364 | the frame time is 0 when not animating and never above 33 ms; below 33 ms it is the time since the last frame |
| `GlRender.AdvanceAngles` | lib/gl.c:323-329 | every background angle advances by its speed times a quarter of the frame's seconds, wrapped once by 2π |
| `GlRender.AngleStaysInRange` | lib/gl.c:324-328 | an angle in (-2π, 2π) stays there when one frame's step is at most 2π |
| `GlRender.SmoothStep` | lib/gl.c:345 | the smooth-step polynomial maps [0, 1] into [0, 1], fixing 0 and 1 |
| `GlRender.FadeUp` | lib/gl.c:340-344 | the fade grows by twice the frame's seconds and never passes 1 |
| `GlRender.Strips` | lib/gl.c:323-333 | the strips are drawn for backgrounds 14 down to 0, each rotated by its angle around the view center with alpha 0.3 and texture `i & 7` |
| `GlRender.StripsExtend` | lib/gl.c:323 | one more pass of the loop draws the next lower background's strip last |
| `GlRender.LevelRects` | lib/gl.c:339-355 | a finished level adds the fade rectangle and an exploding one the explosion rectangle |
| `GlRender.BackgroundCount16` | lib/gl.c:317-356 | `renderBackground` writes 16 rectangles, plus one each for a finished and an exploding level, so it never fills the 512 slots |
| `GlRender.CompactCount` | lib/gl.c:369-380 | `renderCompactBackground` writes one rectangle, plus one while exploding |
| `GlRender.SetDelta` | lib/gl.c:336-376 | the level gets the frame time truncated to whole milliseconds and in seconds |
| `GlRender.FadeLevel` | lib/gl.c:340-346 | the fade advances by `FadeUp`, the rectangle's alpha is its smooth step and the global alpha 1 - 0.8 × that |
| `GlRender.RenderBackground` | lib/gl.c:303-359 | the angles advance by the clamped frame time, the level gets that time (and its fade when finished), and one `drawNative` draws the clear, the 15 strips and the level's rectangles, reading descriptors from the unchanged heap |
| `GlRender.DrawBackground` | lib/gl.c:317-358 | from a known frame time: the angles advance, and one flush draws the clear, the strips and the level's rectangles |
| `GlRender.DrawClear` | lib/gl.c:317-321 | the first rectangle staged is the clear colour over the whole view |
| `GlRender.DrawLevelAndFinish` | lib/gl.c:335-358 | the level's rectangles follow the ones staged, and the closing `drawNative` draws all of them in one flush |
| `GlRender.DrawStrips` | lib/gl.c:323-333 | each background from the last down turns by one frame and its strip is staged; the angles array ends as `AdvanceAngles` |
| `GlRender.DrawStrip` | lib/gl.c:324-332 | one background's angle is advanced in place and its strip staged with the cosine and sine of the new angle |
| `GlRender.DrawLevel` | lib/gl.c:335-356 | a null level adds nothing; otherwise its frame time is set and its fade and explosion rectangles staged |
| `GlRender.DrawLevelLayers` | lib/gl.c:339-355 | a finished level's fade advances and its fade rectangle is staged, then the explosion rectangle while exploding |
| `GlRender.DrawFade` | lib/gl.c:339-350 | a finished level stages a full-view rectangle at the smooth-stepped fade, with the victory or loss texture |
| `GlRender.DrawExplosion` | lib/gl.c:352-355 | while `explosionBgAlpha` is not 0, the explosion rectangle is staged at that alpha |
| `GlRender.RenderCompactBackground` | lib/gl.c:361-383 | the level gets the clamped frame time, and one `drawNative` draws the full fade rectangle and, while exploding, the explosion rectangle |
| `GlScene.FinishTransition` | lib/gl.c:399-412 | a finished level that is not fading yet reports `FinishedThisFrame` exactly when its fade lies in [1, 2), and switches to fading from 0 (preview or game) exactly when the fade reached 2; otherwise nothing changes |
| `GlScene.TransitionTakesTwoFrames` | lib/gl.c:399-412 | once the fade reaches 1 the transition takes two frames, the first reporting the finish and the second starting the fade, and then leaves the fields alone |
| `GlScene.Low3` | lib/gl.c:468-469 | `i & 7` picks the descriptor `i mod 8` |
| `GlScene.ObjectsDown` | lib/gl.c:415-421 | the object loop draws at most one rectangle per object |
| `GlScene.CucumbersDown` | lib/gl.c:423-436 | the cucumber loop draws at most one rectangle per cucumber |
| `GlScene.MaxUnsavedIsMaximum` | lib/gl.c:455-459 | the running maximum is at least 0, bounds the time of every ball not saved, and is 0 or the time of one of them |
| `GlScene.ExplosionAlpha` | lib/gl.c:460-461 | the explosion background alpha is never negative, and is 0 exactly when the largest unsaved time is at most half the fragments' lifetime |
| `GlScene.BallFragments` | lib/gl.c:467-470 | a ball contributes exactly as many fragment rectangles as the loop runs |
| `GlScene.VictoryWrap` | lib/gl.c:517-519 | the wrapped victory clock lies in [0, 2) for a non-negative clock and is unchanged below 2 |
| `GlScene.WrapStep` | lib/gl.c:517-519 | one pass of `victoryTime -= 2` keeps the value the loop ends with |
| `GlScene.VictoryUpTo` | lib/gl.c:502-513 | the victory loop draws at most one rectangle per victory fragment |
| `GlScene.ApplyFinishTransition` | lib/gl.c:399-412 | the method writes `fadeBgAlpha` and `finishedFading` and returns `finishedThisFrame` as `FinishTransition` gives them |
| `GlScene.DrawObjects` | lib/gl.c:415-421 | the loop from the last object down emits exactly the rectangles `ObjectsDown` lists, each rendered into the staging buffer |
| `GlScene.DrawObject` | lib/gl.c:416-420 | one pass extends the emitted list by object i's rectangle when it is visible and, while cucumbers animate, not fading |
| `GlScene.ObjectsStep` | lib/gl.c:415-421 | object i's rectangles after those of the objects above it are the list from i |
| `GlScene.DrawCucumbers` | lib/gl.c:423-436 | the cucumber loop emits exactly the rectangles `CucumbersDown` lists |
| `GlScene.DrawCucumber` | lib/gl.c:424-435 | a fading cucumber is drawn scaled by `1 + (1 - alpha) * 4` at alpha `(visibility >> 8) / 256`, another visible one plainly |
| `GlScene.CucumbersStep` | lib/gl.c:423-436 | cucumber i's rectangles after those above it are the list from i |
| `GlScene.MaxUnsavedTime` | lib/gl.c:455-459 | the loop computes `MaxUnsaved` over all balls |
| `GlScene.SetExplosion` | lib/gl.c:460-461 | `explosionBgAlpha` becomes `ExplosionAlpha(max)` |
| `GlScene.BallFragmentsStep` | lib/gl.c:467-470 | fragment k of a ball extends the list of its first k fragments |
| `GlScene.DrawBall` | lib/gl.c:465-470 | the 64 fragments of ball f are emitted in increasing index with the ball's smoothed alpha and texture set 0, or 8 when saved |
| `GlScene.DrawFragment` | lib/gl.c:468-469 | one fragment is emitted with its position scaled and shifted by the view |
| `GlScene.DrawBalls` | lib/gl.c:463-472 | the ball loop emits exactly `FragmentsDown`: the fragments of every ball whose time is not 0, from the last ball down |
| `GlScene.DrawExplodingBall` | lib/gl.c:464-471 | a ball whose time is 0 adds nothing, another adds its 64 fragments |
| `GlScene.FragmentsStep` | lib/gl.c:463-472 | ball f's rectangles after those of the balls above it are the list from f |
| `GlScene.DrawFragments` | lib/gl.c:446-473 | the fragment part sets the explosion background from the largest unsaved time and emits every exploding ball's fragments |
| `GlScene.DrawCursor` | lib/gl.c:475-480 | the cursor's centre and its target, rounded toward zero, are emitted in that order |
| `GlScene.DrawObjectPart` | lib/gl.c:414-444 | the object loops emit `ObjectPart`: all drawn objects, then the cucumbers while they animate |
| `GlScene.ObjectPartSplit` | lib/gl.c:414-444 | the two object loops together give `ObjectPart` |
| `GlScene.DrawFragmentPart` | lib/gl.c:446-473 | while fragments are alive the fragment part runs; otherwise nothing is emitted and `explosionBgAlpha` is kept |
| `GlScene.DrawCursorPart` | lib/gl.c:475-480 | the cursor is emitted only while one is attached |
| `GlScene.DrawScene` | lib/gl.c:414-480 | from an empty staging buffer the scene emits exactly `ScenePart`: objects, fragments, cursor |
| `GlScene.ScenePartSplit` | lib/gl.c:414-480 | the three parts concatenated are `ScenePart` |
| `GlScene.FadeFace` | lib/gl.c:485-492 | the face's fade moves on while below 1 and the returned alpha is the smoothed fade, or the fade itself from 1 on |
| `GlScene.AdvanceVictoryTime` | lib/gl.c:515-519 | the victory clock advances by twice the frame time and is wrapped below 2 |
| `GlScene.DrawVictoryFragment` | lib/gl.c:503-512 | one pass extends the list of the first k victory fragments by fragment k's rectangle, when it is shown |
| `GlScene.IsVictoryShown` | lib/gl.c:503-509 | the three `continue` tests let through exactly the saved fragments inside the view |
| `GlScene.VictoryStep` | lib/gl.c:502-513 | fragment k's rectangles after the first k are the first k + 1 |
| `GlScene.DrawVictory` | lib/gl.c:502-513 | the victory loop emits exactly `VictoryUpTo` of all victory fragments |
| `GlScene.DrawFinishedGame` | lib/gl.c:485-527 | a won game emits the victory fragments and the happy face, another the sad face, with the face alpha of `FadeFace`; the clock advances only for a won game |
| `GlScene.DrawHappyEnd` | lib/gl.c:494-522 | the won game's victory fragments come first, then the happy face at the advanced clock |
| `GlScene.SendScene` | lib/gl.c:414-529 | the scene's rectangles all fit the staging buffer and the log grows by their flush in chunks of at most 512 |
| `GlScene.SendFinishedGame` | lib/gl.c:482-527 | only a finished game draws and flushes the finish part, in chunks of at most 512; otherwise the log and the level are unchanged |
| `GlScene.Render` | lib/gl.c:385-532 | `render` returns the transition's `finishedThisFrame`, writes the transitioned fields, the face fade, the victory clock and the explosion alpha, and logs the scene's flushes followed, for a finished game, by those of the finish part |
| `GlScene.RenderScene` | lib/gl.c:414-529 | after the transition, the log holds the scene's flushes and, exactly for a finished game, the finish part's |
| `LevelSprites.BackgroundHeightIsCeiling` | scripts/level/levelSpriteSheet.ts:145 | 297 is the ceiling of sqrt(2) * 210, the background height the source computes |
| `LevelSprites.Layout` | scripts/level/levelSpriteSheet.ts:68-137 | the coordinate objects of the sheet, one per field, in struct order |
| `LevelSprites.LayoutSnoc` | scripts/level/levelSpriteSheet.ts:68-137 | allocating the next field's object extends the layout by that field's descriptor |
| `LevelSprites.Applied` | scripts/level/levelSpriteSheet.ts:139-241 | a run of `setCoordinates` calls keeps the heap's size |
| `LevelSprites.AppliedKeeps` | scripts/level/levelSpriteSheet.ts:139-241 | a descriptor that no call names keeps its floats |
| `LevelSprites.AppliedLast` | scripts/level/levelSpriteSheet.ts:139-241 | a descriptor holds the floats of the last call that names it |
| `LevelSprites.AppliedFrame` | scripts/level/levelSpriteSheet.ts:139-241 | the calls write nothing outside the struct |
| `LevelSprites.PutSame` | scripts/level/levelSpriteSheet.ts:211 | storing the floats a descriptor already holds changes nothing |
| `LevelSprites.PutFrom` | scripts/level/levelSpriteSheet.ts:211 | a heap that differs from another only in four floats, holding v there, is the other with v stored there |
| `LevelSprites.FixedWellFormed` | scripts/level/levelSpriteSheet.ts:139-203 | every fixed call names a descriptor of its own kind and packs without wrapping |
| `LevelSprites.ScaledWellFormed` | scripts/level/levelSpriteSheet.ts:222-240 | every scaled call names a model descriptor |
| `LevelSprites.FixedTexelsInTexture` | scripts/level/levelSpriteSheet.ts:139-203 | every fixed texel rectangle lies inside the 128 x 128 sheet texture |
| `LevelSprites.ScaledAreMultiples` | scripts/level/levelSpriteSheet.ts:222-240 | after a scale change every rewritten model rectangle but the cursors is s times its size at scale 1 |
| `LevelSprites.ScaledPrefix` | scripts/level/levelSpriteSheet.ts:222-225 | the level object, full view and fade rectangles scale linearly |
| `LevelSprites.FullViewScales` | scripts/level/levelSpriteSheet.ts:206-224 | the full view at scale s is the full view at scale 1 times s |
| `LevelSprites.ScaledFragment` | scripts/level/levelSpriteSheet.ts:227-234 | the fragment rectangles scale linearly |
| `LevelSprites.CursorsPivotOnTheirCentre` | scripts/level/levelSpriteSheet.ts:236-238 | the cursors are 25s wide and high and pivot on `(12.5 s) \| 0` |
| `LevelSprites.ClearBackgroundUntouched` | scripts/level/levelSpriteSheet.ts:139-241 | neither table of calls names `clearBackgroundTextureCoordinates` |
| `LevelSprites.ScaledEndsWithFullView` | scripts/level/levelSpriteSheet.ts:224 | after the scaled calls the full-view descriptor holds the full view of this scale |
| `LevelSprites.Zeroed` | lib/gl.c:264-266 | the struct's descriptors zero, the rest of the heap as it was |
| `LevelSprites.CreatedFacts` | scripts/level/levelSpriteSheet.ts:215-240 | the first call writes only inside the struct, leaves the last descriptor zero and the full view of this scale in its descriptor |
| `LevelSprites.RepeatChangesNothing` | scripts/level/levelSpriteSheet.ts:210-213 | a second call at the same scale stores the full view the descriptor already holds, so the heap is unchanged |
| `LevelSprites.LevelSpriteSheet.constructor` | scripts/level/levelSpriteSheet.ts:65-66 | no struct and no coordinate objects yet, scale factor 0 |
| `LevelSprites.LevelSpriteSheet.InitLevelSpriteSheet` | lib/gl.c:264-266 | every descriptor of the struct is zeroed and nothing else of the heap changes |
| `LevelSprites.LevelSpriteSheet.AllocateCoordinates` | scripts/level/levelSpriteSheet.ts:68-137 | one coordinate object per field, 16 bytes apart from the struct pointer, of the field's kind; the last field gets none |
| `LevelSprites.LevelSpriteSheet.AllocateBackgrounds` | scripts/level/levelSpriteSheet.ts:76-92 | the objects up to the level objects' model, with the pointer at the next field |
| `LevelSprites.LevelSpriteSheet.AllocateObjects` | scripts/level/levelSpriteSheet.ts:94-110 | the objects up to the fragments' models |
| `LevelSprites.LevelSpriteSheet.AllocateFragments` | scripts/level/levelSpriteSheet.ts:112-119 | the objects up to the cursor centre's model |
| `LevelSprites.LevelSpriteSheet.AllocateFaces` | scripts/level/levelSpriteSheet.ts:121-136 | all the objects, with the pointer past the last one |
| `LevelSprites.LevelSpriteSheet.NewModel` | scripts/level/levelSpriteSheet.ts:76-77 | one more model object at the next field, and the pointer 16 bytes on |
| `LevelSprites.LevelSpriteSheet.NewTexture` | scripts/level/levelSpriteSheet.ts:79-80 | one more texture object at the next field, and the pointer 16 bytes on |
| `LevelSprites.LevelSpriteSheet.Write` | scripts/level/levelSpriteSheet.ts:140 | one `setCoordinates` stores the call's four floats in its descriptor and nothing else |
| `LevelSprites.LevelSpriteSheet.WriteModel` | scripts/level/levelSpriteSheet.ts:147 | a model call stores the pivot-relative left, top, right and bottom |
| `LevelSprites.LevelSpriteSheet.WriteTexture` | scripts/level/levelSpriteSheet.ts:162 | a texture call stores the packed texel corners |
| `LevelSprites.LevelSpriteSheet.WriteAll` | scripts/level/levelSpriteSheet.ts:139-203 | the calls one after the other leave the heap as `Applied` gives it |
| `LevelSprites.LevelSpriteSheet.Create` | scripts/level/levelSpriteSheet.ts:217-240 | allocate, write the fixed and then the scaled coordinates |
| `LevelSprites.LevelSpriteSheet.RecreateIfNecessary` | scripts/level/levelSpriteSheet.ts:205-241 | at the same scale only the full view is rewritten; after a scale change the scaled calls run; the first call allocates, zeroes the struct and applies the fixed and then the scaled calls (`Created`), leaving the rest of the heap as it was; the full view of the current scale ends in its descriptor |
| `EditorViews.ObjectTypeOfTool` | scripts/view/editorView.ts:692-693 | an object tool places one of the four object types |
| `EditorViews.ToolOfType` | scripts/view/editorView.ts:692-693 | every object type has an object tool |
| `EditorViews.ToolTypeRoundTrip` | scripts/view/editorView.ts:692-693 | tool-to-type and type-to-tool are inverse on the object tools, and the ball, goal, bomb and cucumber tools place balls, goals, bombs and cucumbers |
| `EditorViews.ObjectImage.constructor` | scripts/view/editorView.ts:582-588 | a new icon shows the sprite of its object's type and holds that object |
| `EditorViews.ObjectsOf` | scripts/view/editorView.ts:588 | the objects of a list of icons, position by position |
| `EditorViews.Balls` | scripts/view/editorView.ts:595-613 | the ball count of a list of icons is at most its length |
| `EditorViews.BallsAppend` | scripts/view/editorView.ts:590-596 | the balls of two lists one after the other add up |
| `EditorViews.BallsWithout` | scripts/view/editorView.ts:610-613 | taking one icon out lowers the ball count by one exactly when it is a ball |
| `EditorViews.SpliceParallel` | scripts/view/editorView.ts:610-615 | splicing the same position out of the icons and the objects keeps them parallel and the ball count right |
| `EditorViews.Compare` | scripts/view/editorView.ts:401-404 | negative exactly when the first goes before (smaller type, or same type and larger y), zero exactly on equal keys, positive exactly when the second goes first |
| `EditorViews.CompareTransitive` | scripts/view/editorView.ts:401-404 | the comparator's order is transitive |
| `EditorViews.Insert` | scripts/view/editorView.ts:401-404 | inserting into the sorted list lengthens it by one |
| `EditorViews.InsertPermutes` | scripts/view/editorView.ts:401-404 | inserting adds exactly the one entry |
| `EditorViews.InsertSorted` | scripts/view/editorView.ts:401-404 | inserting into a sorted list keeps it sorted |
| `EditorViews.InsertFront` | scripts/view/editorView.ts:401-404 | an entry no later than a sorted list's head can lead it |
| `EditorViews.SortedTail` | scripts/view/editorView.ts:401-404 | the tail of a sorted list is sorted |
| `EditorViews.InsertBounded` | scripts/view/editorView.ts:401-404 | a lower bound of an entry and a list bounds the list with the entry inserted |
| `EditorViews.Sort` | scripts/view/editorView.ts:401-404 | sorting keeps the length |
| `EditorViews.SortSpec` | scripts/view/editorView.ts:401-404 | the sort is in the comparator's order and a permutation of its input |
| `EditorViews.ImagesOf` | scripts/view/editorView.ts:401-409 | the icons of the sorted entries, position by position |
| `EditorViews.InsertKeepsImages` | scripts/view/editorView.ts:401-404 | inserting an entry adds its icon, and its ball if it is one |
| `EditorViews.SortKeepsImages` | scripts/view/editorView.ts:401-404 | sorting keeps the same icons and ball count |
| `EditorViews.Entries` | scripts/view/editorView.ts:402-403 | each icon is keyed by its object's type and y |
| `EditorViews.SortedImages` | scripts/view/editorView.ts:401-404 | sorting the icons keeps their number |
| `EditorViews.SortedImagesSpec` | scripts/view/editorView.ts:399-404 | `mouseUp`'s sort puts balls first, then goals, bombs and cucumbers, each from the largest y down, and rearranges the icons without losing any ball |
| `EditorViews.SortedImagesTypes` | scripts/view/editorView.ts:401-404 | sorting keeps every object's type valid |
| `EditorViews.KeyUp` | scripts/view/editorView.ts:902-930 | nothing while loading or a modal is shown; "d" restarts the sequence at the current time; "b" within 2000 ms of the "d" advances it; the debug action exactly on "d","b","g" confirmed in time, the save action exactly on "d","b","s" in time; any other key ends the sequence |
| `EditorViews.DebugSequence` | scripts/view/editorView.ts:906-920 | typing "d", "b", "g" within 2000 ms of the "d" starts the debug action when confirmed, from any state, and resets the counter |
| `EditorViews.SaveSequence` | scripts/view/editorView.ts:906-923 | typing "d", "b", "s" within 2000 ms of the "d" starts the save action from any state and resets the counter |
| `EditorViews.EditorView.constructor` | scripts/view/editorView.ts:152-177 | the editor starts with the pencil, the ball type, no level, no icons, no balls, no drag, nothing dirty and a reset key sequence |
| `EditorViews.EditorView.ValidObjects` | scripts/view/editorView.ts:569-620 | with the lists parallel, the level's objects are the icons' objects and the ball count is the icons' balls |
| `EditorViews.EditorView.Attach` | scripts/view/editorView.ts:236-248 | a detached view takes the loaded level, with the override name when one is given, and gives each of its objects an icon in order; a view with a level keeps everything |
| `EditorViews.EditorView.AddObject` | scripts/view/editorView.ts:569-599 | refused, with nothing changed, exactly when the object is new to the level and the level is full or it is one ball too many; otherwise a fresh icon of the object's sprite is appended, the object joins the level unless it already belongs to it, and a ball is counted |
| `EditorViews.EditorView.RemoveObject` | scripts/view/editorView.ts:601-620 | the icon's last position, searched from the end, leaves both lists and its ball the count; an absent icon changes nothing |
| `EditorViews.EditorView.RemoveAt` | scripts/view/editorView.ts:610-615 | position i leaves the icons and the objects, and its ball the count |
| `EditorViews.EditorView.LastImageIndex` | scripts/view/editorView.ts:606-607 | the last index of the icon in the list, or -1 |
| `EditorViews.EditorView.ClearObjects` | scripts/view/editorView.ts:622-635 | no icons, no objects, no walls, no balls, and the editor is dirty |
| `EditorViews.EditorView.FindObjectWithinRadius` | scripts/view/editorView.ts:548-567 | none exactly when no object of the wanted type lies within one icon size; otherwise the icon of the first object that does, the one `FirstNear` names |
| `EditorViews.EditorView.MouseUp` | scripts/view/editorView.ts:381-411 | the drag ends; with the pencil or the eraser nothing else changes; otherwise the icons are the sorted icons and the level's objects follow them, the same icons as before |
| `EditorViews.EditorView.RewriteObjects` | scripts/view/editorView.ts:406-410 | the level's objects become the icons' objects in the icons' order |
| `EditorViews.EditorView.HandleObjectToolDown` | scripts/view/editorView.ts:450-472 | with an object tool, the icon of the first object within reach is dragged and nothing else changes; with none within reach a new object of the last type at the clamped (x, y) joins the level and its icon is dragged, unless `addObject` refuses it exactly when the level is full or it is a ball too many; with another tool nothing changes when no object is within reach, and otherwise the first such object's icon leaves both lists (at its last position, which holds that object) with its ball |
| `EditorViews.EditorView.PickUpOrAdd` | scripts/view/editorView.ts:454-460 | the object-tool branch: the first object within reach is dragged with nothing changed, or a new clamped object of the last type is added and dragged unless refused |
| `EditorViews.EditorView.RemoveNear` | scripts/view/editorView.ts:467-470 | the other tools: nothing without an object within reach, otherwise the first one's icon and object leave the lists and its ball the count |
| `EditorViews.FirstNear` | scripts/view/editorView.ts:555-565 | -1 exactly when no object from `from` on is within reach; otherwise an object within reach with none before it from `from` on |
| `EditorViews.EditorView.ChangeTool` | scripts/view/editorView.ts:689-695 | the tool becomes the button's, and the last object type follows an object tool |
| `EditorViews.EditorView.DocumentKeyUp` | scripts/view/editorView.ts:902-930 | the counter, the time and the action are those `KeyUp` gives, with loading or a visible modal blocking |
| `SelectionViews.CreateLoadOptions` | scripts/view/selectionView.ts:44-48 | no options exactly without a name; by id, with the name as override and the id read by `parseInt`, exactly when there is an id too; otherwise by name |
| `SelectionViews.LoadOptionsKeepId` | scripts/view/selectionView.ts:44-48 | a built-in thumbnail's id attribute reads back as the level's id |
| `SelectionViews.BaseName` | scripts/view/selectionView.ts:296-301 | a name not ending in a number in parentheses is its own base |
| `SelectionViews.BaseNameCutsCount` | scripts/view/selectionView.ts:296-301 | a name ending in a number in parentheses is cut at its last "(" and trimmed, and becomes the default name when nothing is left |
| `SelectionViews.CandidateInjective` | scripts/view/selectionView.ts:320 | different copy numbers give different names |
| `SelectionViews.Elements` | scripts/view/selectionView.ts:303-321 | the distinct names, no more of them than the list holds |
| `SelectionViews.CandidatesFit` | scripts/view/selectionView.ts:303-321 | a set holding the first m numbered names has at least m elements |
| `SelectionViews.CandidatesBound` | scripts/view/selectionView.ts:303-321 | if the first m numbered names are taken, there are at least m saved names, so the search ends |
| `SelectionViews.Contains` | scripts/view/selectionView.ts:309-314 | found exactly when some saved name equals the name |
| `SelectionViews.FreeName` | scripts/view/selectionView.ts:303-321 | a name no saved level has: the name itself when free, otherwise the first numbered copy not taken, within the number of names plus one |
| `SelectionViews.ImportName` | scripts/view/selectionView.ts:288-289 | a valid level name is kept, any other becomes the default name |
| `SelectionViews.ImportedName` | scripts/view/selectionView.ts:288-323 | the imported level is saved under a name no saved level has: its own (or the default) name when free, otherwise the first free numbered copy of its base name |
| `SelectionViews.SelectionView.constructor` | scripts/view/selectionView.ts:78-83 | no thumbnails and no rule |
| `SelectionViews.SelectionView.AddThumbnail` | scripts/view/selectionView.ts:199-207 | each list gains the new thumbnail's element at its end, and a saved level brings the rule |
| `SelectionViews.SelectionView.RemoveThumbnail` | scripts/view/selectionView.ts:467-478 | the last entry with the anchor leaves all four lists, and the rule goes when only the built-in levels are left; an unknown anchor changes nothing |
| `StringSort.LeTotal` | scripts/level/levelCache.ts:113 | the order `sort` uses relates any two names |
| `StringSort.LeTransitive` | scripts/level/levelCache.ts:113 | the order is transitive |
| `StringSort.LeAntisymmetric` | scripts/level/levelCache.ts:113 | names ordered both ways are equal |
| `StringSort.SortSpec` | scripts/level/levelCache.ts:113 | `names.sort()` puts the names in ascending order and keeps exactly the same names |
| `StringSort.SortedUnique` | scripts/level/levelCache.ts:113 | two ascending orders of the same names are the same list |
| `StringSort.SortPermutationInvariant` | scripts/level/levelCache.ts:113 | the sorted names do not depend on the order the storage lists them in |
| `Text.Trim` | scripts/level/levelCache.ts:91 | `trim` never lengthens, leaves no white space at either end, and gives "" exactly on all-white-space text |
| `Text.TrimIdempotent` | scripts/level/levelCache.ts:91 | trimming twice is trimming once |
| `Text.IndexOf` | scripts/level/levelCache.ts:406-414 | `indexOf` gives -1 or a position at or after the start where the pattern occurs |
| `Text.IndexOfFirst` | scripts/level/levelCache.ts:406-414 | an occurrence with none between the start and it is what `indexOf` finds |

## Left out

- Number precision: every float of the heap, every JavaScript number and every GL value is an exact `real` or `int`. The float32 precision of the packed coordinate-and-alpha channel, double rounding and shader precision are not modelled.
- MainHelpers.ModelOfCssNumber: holds in exact arithmetic only. In doubles, `(m * s / p) * p / s | 0` can give m - 1.
- Renderer.WebGL.Recreate: models only the path where every GL object is created. It leaves out the shader compile and link failures, the `throwIfError` checks and the exception of the "experimental-webgl" attempt (scripts/gl/webGL.ts:177-330).
- Renderer.WebGL.Recreate: its GL log holds only the calls the rest of the model relies on: the deletes, the buffer uploads and the framebuffer and viewport bindings. The shader, program, capability, pixel-store, composition and vertex-attribute calls of scripts/gl/webGL.ts:244-335 are not entered in it.
- Renderer.WebGL.Recreate: the first vertex buffer of scripts/gl/webGL.ts:295-296 is created and then replaced. Only the second handle is modelled.
- Renderer.WebGL.DrawNative: requires `n <= RectangleCapacity`. scripts/gl/webGL.ts:157-160 accepts any count, but the native callers never pass more (`GlRender`).
- StringSort.Le: compares whole characters. JavaScript's `sort()` compares UTF-16 code units, so names with characters above U+FFFF may sort differently.
- UiSprites.ParseIdOfText: `parseInt` of a number's decimal form is exact here. For ids beyond 2^53, doubles would round.
- LevelObjects.Coordinate: a coordinate is a number, a string or any other value. A string is read as `parseInt` reads it. The text of the offending value (levelObject.ts:62) is not modelled.
- Resources.ResourceStorage: it models a plain dictionary whose names are visited in insertion order. JavaScript's `in`, which also sees inherited names, is not modelled, and neither is its listing of integer-like names first.
- Textures.Texture.Release: the `Resource` base class that defines `release()` is not part of this model. The member assumes that `release()` calls `releaseInternal()` exactly when the resource is loaded and does nothing otherwise. Any bookkeeping of its own in the base class, such as a loaded flag or a guard against destroyed resources, is not modelled.
- Resources.ResourceStorage.LoadAll: what a member's `load`, `release` and `destroy` do belongs to the `Resource` base class, which is not part of this model. The calls are recorded by name instead.
- ImageScript: the copies of the whole RGBA buffer into the native heap and back (scripts/image/imageProcessing.ts:112-116) are not modelled. The native passes work on the copy directly.
- ImagePasses: the polygon-discovery pass of lib/imageProcessing.c:518-551 is not modelled. That pass runs the flood fill and its more-than-ten-pixels test, `trace4`, `polygonFound` or `traceUndo`, and the erasing of small polygons and holes. Its parts (`FloodFill.Fill`, `Tracing.TraceUndo`, `Tracing.PolygonFound`, `Erosion.Erase1`) are modelled one by one; the boundary tracer `trace4` and their composition are not.
- Erosion.Erase1: the stack is an unbounded sequence. The C stack is a fixed array of `maxStackSize` cells, and a cell can be pushed more than once, so the model does not prove that bound.
- EditorViews.EditorView.MouseUp: the sort is the stable insertion sort `Array.prototype.sort` is required to be. The icons' z-indices and styles are not modelled.
- TextureCoords.TextureCoordinates.SetCoordinates: requires that `right << 9` and `bottom << 1` stay below 2^31 (`NoWrap`: the right edge below 2^22 and the bottom edge below 2^30), so that the shifts do not wrap. The source does not check this; its callers rely on it. Only `TextureCoords.CornersDecode` assumes the smaller 256 x 256 bound, which the shader decoding needs.
- Polyfills.Fill: requires an array shorter than 2^31, where `this.length | 0` is the length itself.
- Gl: `cosf` and `sinf` of an angle are parameters of the rotating draws. `lib/math_fix_sincos.c` is not part of this model.
- GlRender: the background speeds and angles that `initLevelSpriteSheet` (lib/gl.c:268-298) sets up are parameters of the sheet.
- UiSprites.UiSpriteSheet.Create: attaching the new element to a parent is not modelled.
- LevelCacheRecords.LevelRecords: the stored table is handed to the constructor and assumed to be an object whose records have a text. A stored record that is null or malformed, and the exception it raises, are not modelled. The key order of `for (n in ...)` is a parameter.
- LevelCacheRecords.LevelRecords.GetLevelRecord: the table is a map with no inherited keys. The source indexes a plain object (scripts/level/levelCache.ts:420), so a level named like an `Object.prototype` member, such as "constructor" or "toString" (both pass `isNameValid`), finds that inherited function and returns it instead of null. The model answers None for such names.
- LevelCacheRecords.LevelRecords.SetLevelRecord: for a level named like an `Object.prototype` member, the source finds the inherited function and writes the time onto it (scripts/level/levelCache.ts:428-431). The `name` assignment that follows targets a read-only property of functions, which throws in the strict code of a class, and nothing new reaches the saved JSON. The model stores a fresh record under such a name instead.
- ImagePasses.ErasePass: the contract says which cells are cleared and why each one was, but not that the seeds are taken in the scan's order (rows from the bottom, right to left) nor that every thin cell the scan reaches becomes a seed. What it does state is that no thin cell is left.
- LevelCacheDownload.DownloadLevel: `Downloaded` stands for handing the text to the platform (scripts/level/levelCache.ts:279-281). What the Android wrapper or the blob downloader then return, success or error, is not modelled, and neither is writing the file.
- LevelCacheListing: the Cache API is a parameter (its list of keys), and `decodeURIComponent` is a parameter that may fail.
- Physics (lib/physics.c beyond its buffer layout), the screens, fades, timers, modals, canvas drawing, localStorage, the Cache API and file I/O are outside the core and not modelled.

## Findings

| source | as written | input that shows it | evidently intended | confidence | as-written member | corrected member |
|---|---|---|---|---|---|---|
| scripts/gl/webGL.ts:314 | `new Texture(this, null, powerOfTwoWidth, powerOfTwoHeight)` passes the width as `mirrored` and the height as the width, so the height is 0 and binding fails with "Invalid image size" | any context; for example a desired size of 420 by 840 | `new Texture(this, null, false, powerOfTwoWidth, powerOfTwoHeight)`: an unmirrored texture of the power-of-two size | not executed | `Textures.CreateFramebufferTextureAsWritten` | `Textures.CreateFramebufferTexture` |
| scripts/level/levelCache.ts:463-465 | `(milliseconds / 10) \| 0` wraps past 2^31 before the cap at 99999 is applied, so a huge time prints a negative number of seconds | a time of 21474836480 ms | cap first, so every time from 999990 ms up prints "999.99 s" | not executed | `LevelCacheTimes.FormatLevelRecordTimeAsWritten`, shown by `LevelCacheTimes.AsWrittenWrapsToNegative` | `LevelCacheTimes.FormatLevelRecordTime` |
