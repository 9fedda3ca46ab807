# CollageMaker, rectangle mode, in Dafny

This project models the rectangle-packing collage maker of `Collage.py`. It
reads every file in a folder and works out each image's effective size: the
native size times a fixed factor, or scaled so that every image is the same
tile height. Each size is registered with a `rectpack` packer and collected
into a list. `makeBins` then sizes one square bin from those sizes and a
multiplier. After packing, the packer's placements are copied out, and each
image is re-opened, re-scaled and pasted onto a black canvas of the bin's size
at its placement, flipped from packing space (origin bottom-left) to canvas
space (origin top-left).

The modules follow the program's stages:

- `Rounding`: Python's `round` (half to even) on exact reals, and the product
  `n * f` of a side and a factor.
- `Types`: the values that flow between the stages, and the exceptions a run
  can raise.
- `Packing`: the `rectpack` packer as the program uses it. It is a class whose
  `add_rect`, `add_bin` and `pack` calls update its lists. The placement
  algorithm itself is a parameter.
- `Sizes`: `getSizes`, as a loop proved against the recursive specification
  `Collect`.
- `Bins`: `makeBins` and the multiplier chosen in `main`.
- `Pasting`: `makeRectangles`, `makeCanvas` and `pasteImages`. The canvas is a
  class that records the paste calls it receives. `pasteImages` is a loop
  proved against the recursive specification `PastePlan`.
- `Collage`: `main` after argument parsing, proved to produce `MakeLayout`, and
  the end-to-end guarantees.

The file-name check at `Collage.py:21-23` is reproduced as written. A file whose
name does not end in `.jpg` is not opened for sizing. It is registered at the
size of the last image opened. If no image has been opened yet, it
raises, which is `NoImageYet` here. At paste time the same file is opened
under its own name, so it can be pasted at a size different from the one it
was packed at. `NonJpgPastedAtOtherSize` shows a concrete case.
`LayoutSound`, the end-to-end guarantee, is stated for folders of `.jpg` files
only.

The exceptions the core raises itself are `Result` errors rather than
preconditions:

- `resolution / height` with a height of 0 (`ZeroHeight`);
- the unbound `im` above (`NoImageYet`);
- `Image.open` on a file PIL cannot read (`Unreadable`);
- `max` over an empty list of sizes (`NoSizes`).

The foreign libraries can raise as well, and those failures are not modelled
(see "Left out"). An effective side that rounds below one pixel makes
Pillow's `resize` raise. A negative bin side makes `Image.new` raise. For
such inputs the model still returns a layout.

`Collage.py:37-42` sizes the bin from the minimum of the largest width and
the largest height. For images of size (100,100), (200,100), (100,200) and
(50,50) and multiplier 2 that is min(200, 200) = 200, which gives a bin of
side 400. `BinSideExample` proves this.

## Model

| member | source | states |
|---|---|---|
| `Rounding.Round` | Collage.py:27-28 | definition: Python's `round` on a real, half to even |
| `Rounding.RoundNearest` | Collage.py:27-28 | `round` returns an integer within one half of its argument, and the even one when the argument lies exactly half-way |
| `Rounding.RoundUnique` | Collage.py:27-28 | those two properties determine the result, so `Round` is exactly Python's round-half-to-even |
| `Rounding.RoundOfInt` | Collage.py:41-42 | rounding an integer-valued real gives that integer back |
| `Rounding.RoundMonotone` | Collage.py:41-42 | a larger argument never rounds to a smaller integer |
| `Rounding.Scale` | Collage.py:27-28 | definition: `round(n * f)`, a side scaled by a factor and rounded |
| `Rounding.TimesIsProduct` | Collage.py:27 | the side-times-factor term used in every scaled size is the product `n * f` |
| `Rounding.ScaleByOne` | Collage.py:83-84 | scaling a side by 1 and rounding leaves it unchanged, which is why skipping the resize at factor 1 loses nothing |
| `Types.IsJpg` | Collage.py:21 | definition: `file.endswith(".jpg")`, case-sensitive |
| `Sizes.Factor` | Collage.py:25-26 | definition: the factor an image is scaled by, `tileHeight / height` when normalising and the fixed factor otherwise; the same rule recurs at Collage.py:81-82 |
| `Sizes.NormalizedFactor` | Collage.py:25-26 | with normalisation the factor takes the native height to the tile height |
| `Sizes.EffectiveSize` | Collage.py:25-28 | with normalisation every effective height is the tile height, whatever the native size; a fixed factor of 1 keeps the native size |
| `Sizes.OpenForSizing` | Collage.py:21-23 | definition: a .jpg is opened (or raises when unreadable); any other name reuses the last image opened, and raises when there is none |
| `Sizes.Collect` | Collage.py:20-28 | definition: the `add_rect` calls of the `getSizes` loop, in listing order, or the error the loop raises first |
| `Sizes.CollectShape` | Collage.py:20-28 | a successful collection registers one rectangle per listed file, in listing order and named after it, and with normalisation all at the tile height; a first file that is not a .jpg raises |
| `Sizes.CollectAllJpg` | Collage.py:20-28 | for a folder of .jpg files, collection fails exactly when some file cannot be opened, and otherwise registers each file at its own effective size |
| `Sizes.CollectSucceeds` | Collage.py:20-28 | collection succeeds exactly when the listing is empty, or its first name is a .jpg (or an image is left over) and every .jpg in it opens; names that are not .jpg never fail after the first image |
| `Sizes.CollectReusesPrevious` | Collage.py:21-28 | a file that is not a .jpg is registered at the same size as the file before it |
| `Sizes.GetSizes` | Collage.py:15-30 | the loop raises exactly when `Collect` does, with the same error; otherwise it registers `Collect`'s rectangles with the packer and returns their sizes, and the pair appended for each file is the pair given to `add_rect`, in listing order; bins and placements are untouched |
| `Bins.Max` | Collage.py:37-38 | `max` of a non-empty list is one of its elements and no element exceeds it |
| `Bins.SquareMax` | Collage.py:37-39 | definition: `min(max(widths), max(heights))` |
| `Bins.SquareMaxBounds` | Collage.py:37-39 | `squareMax` is at most some width and at most some height, equals one of the two maxima, and is one of the collected sides |
| `Bins.SquareMaxNormalized` | Collage.py:37-39 | with every height equal to the tile height, `squareMax` is at most the tile height, and equal to it once some width reaches it |
| `Bins.BinSide` | Collage.py:41-42 | definition: `round(squareMax * multiplier)`, the side of the one square bin |
| `Bins.ChooseMultiplier` | Collage.py:104-107 | the multiplier is the command-line value, or `resolution / height` when normalising, which raises exactly when the height is 0 |
| `Bins.MultiplierReachesResolution` | Collage.py:106-107 | under normalisation the multiplier takes one tile height to exactly the requested resolution |
| `Bins.ScaleByRatioAtMost` | Collage.py:41 | scaling a side no larger than t by `res / t` gives at most `res` |
| `Bins.ScaleByRatioReached` | Collage.py:41 | scaling t itself by `res / t` gives exactly `res` |
| `Bins.NormalizedBinSide` | Collage.py:37-42 | with normalised heights and multiplier `resolution / tileHeight`, the bin side never exceeds the resolution |
| `Bins.NormalizedBinSideReached` | Collage.py:37-42 | and it equals the resolution once some image is at least as wide as the tile height |
| `Bins.BinSideExample` | Collage.py:37-42 | images (100,100), (200,100), (100,200), (50,50) with multiplier 2 give a bin of side 400 |
| `Bins.MakeBins` | Collage.py:32-48 | no sizes raise; otherwise the returned bin is square with side `round(squareMax * multiplier)`, exactly that one bin is registered with the packer, and nothing else on the packer changes |
| `Packing.Packer.RectList` | Collage.py:53 | definition: `rect_list()`, the packer's current placements |
| `Packing.Packer.constructor` | Collage.py:100 | a new packer has no rectangles, bins or placements |
| `Packing.Packer.AddRect` | Collage.py:27 | `add_rect` appends one registration and changes nothing else |
| `Packing.Packer.AddBin` | Collage.py:47 | `add_bin` appends one bin and changes nothing else |
| `Packing.Packer.Pack` | Collage.py:114 | `pack` sets the placements to the algorithm's result over everything registered, leaving rectangles and bins alone |
| `Pasting.PasteOffset` | Collage.py:69-77 | the paste offset keeps x, puts the lower edge y above the canvas's lower edge, and keeps a rectangle that lies within the bin vertically within the canvas |
| `Pasting.FlipPreservesOverlap` | Collage.py:73-77 | flipping into canvas coordinates neither creates nor removes an overlap between two placements |
| `Pasting.PastedSize` | Collage.py:81-84 | the paste-time size, with the resize skipped at factor 1, equals the effective size computed during collection |
| `Pasting.PasteFor` | Collage.py:69-85 | definition: the paste call for one placement, at its flipped offset and at the image's paste-time size |
| `Pasting.PastePlan` | Collage.py:68-85 | definition: the paste calls of the `pasteImages` loop, in placement order, or the first `Image.open` failure |
| `Pasting.PastePlanFails` | Collage.py:68-85 | pasting fails exactly when some placed file cannot be opened, and then with the first such file |
| `Pasting.PastePlanPastes` | Collage.py:68-85 | otherwise there is one paste per placement, in placement order, at that placement's offset and paste-time size |
| `Pasting.Canvas.constructor` | Collage.py:58-63 | the canvas has the bin's width and height and nothing pasted on it |
| `Pasting.Canvas.Paste` | Collage.py:85 | a paste is recorded after the earlier ones |
| `Pasting.MakeRectangles` | Collage.py:50-56 | the copied list is the packer's placement list, in order |
| `Pasting.PasteImages` | Collage.py:65-87 | the loop raises exactly when `PastePlan` does, with the same error; otherwise the canvas receives exactly `PastePlan`'s paste calls after the earlier ones |
| `Collage.MakeLayout` | Collage.py:104-111 | a zero tile height under normalisation raises before any file is read, then collection errors come first, and an empty folder raises at `max` |
| `Collage.Run` | Collage.py:89-120 | `main` succeeds exactly when `MakeLayout` does and raises the same error otherwise; on success the canvas is fresh, square with the layout's side, and carries exactly the layout's paste calls |
| `Collage.RegisteredPastesAtRegisteredSize` | Collage.py:20-28 | in a folder of .jpg files, every registered rectangle's file opens again at paste time and is pasted at its registered size |
| `Collage.PlacementsPaste` | Collage.py:79-84 | in a folder of readable .jpg files, every placement the packer returns for the registered rectangles names a listed file that opens again and is pasted at its packed size |
| `Collage.PastesFollowPlacements` | Collage.py:68-85 | each paste covers its placement's box flipped into the canvas, so placements within the bin are pasted within the canvas, and non-overlapping placements give non-overlapping pastes |
| `Collage.PastesSound` | Collage.py:65-87 | the pastes for a packing that keeps the packer's promises are listed files at their effective sizes, inside the canvas, pairwise non-overlapping, and at the tile height under normalisation |
| `Collage.LayoutSound` | Collage.py:89-120 | for a non-empty folder of readable .jpg files whose effective sides are all at least 1, a usable non-negative multiplier and a packer that keeps its promises, the run succeeds, and the pastes are listed files at their effective sizes, inside the canvas, with no overlaps, and at the tile height under normalisation |
| `Collage.NonJpgPastedAtOtherSize` | Collage.py:21-23 | after a.jpg (200x100), b.png (10x10) is packed at 200x100 but pasted at 10x10 |

## Left out

- The packing algorithm (`rectpack`'s `GuillotineBssfSas` without rotation, Collage.py:5, 100, 114) is foreign code. `pack()` takes it as a function parameter. The end-to-end lemmas assume, as `KeepsPromises`, what the library promises: each placement is a registered rectangle at its registered size, lies within the bin, and overlaps no other placement. Rectangles the library leaves unplaced are simply absent from its result.
- PIL's pixel work is not modelled: decoding (Collage.py:22, 79), resampling in `resize` (Collage.py:84), compositing in `paste` (Collage.py:85) and the JPEG `save` (Collage.py:87). A file is known only by the size PIL reports for it, or by its absence when `Image.open` raises. The canvas records paste calls instead of pixels, and a paste reaching outside the canvas is not clipped.
- `Pasting.Canvas.constructor` does not model `Image.new` raising on a negative width or height, which a negative multiplier would produce.
- `Collage.LayoutSound` is stated only for images whose effective sides are both at least 1 and for a non-negative multiplier. Outside that range the source fails inside foreign code. Pillow's `resize` (Collage.py:84) raises for a side below 1, rectpack's `pack` (Collage.py:114) is not made for rectangles of non-positive size, and `Image.new` (Collage.py:61) raises for a negative side. Normalising a 4x1000 image to height 100 gives such a side: its width rounds to 0. Inside that range a multiplier small enough still gives a bin of side 0, and then an empty canvas; whether the JPEG `save` (Collage.py:87), which is not modelled, accepts an empty image is outside what `LayoutSound` says.
- `Collage.MakeLayout` and `Collage.Run` do not raise for those foreign failures. For such inputs they return a layout, for instance one with a paste of width 0, where the program raises.
- `Pasting.PasteImages` drops the `x` and `outfile` parameters, which the source uses only for the final message and the save.
- The folder is a fixed snapshot for the whole run: one map of file sizes answers both the sizing open (Collage.py:22) and the paste open (Collage.py:79). A file changed, added or removed between the two opens is not modelled, and `Collage.PlacementsPaste` and `Collage.LayoutSound` rely on the snapshot.
- The directory listing is an input. Its order is the order `os.listdir` returns. `tqdm` progress bars and `print` messages (Collage.py:16, 20, 23, 33, 51, 54, 60, 66, 68, 86, 102, 113) are not modelled.
- Argument parsing (Collage.py:90-99) is replaced by the `Config` value it produces, and so is its `type=bool` conversion.
- The warning filters and the truncated-image flag (Collage.py:9-13) are global library settings and are not modelled.
- Floats are exact reals. IEEE double rounding of the products and quotients is not modelled, so a product that lands a hair off a half-way point in floating point may round differently here.
- The hexagon tiling mode does not appear in `Collage.py` and is not part of this model.
