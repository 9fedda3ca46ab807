/**
 * The values that flow through the collage maker: the folder it reads, the
 * resolved command line, the rectangles handed to and returned by the
 * packer, the paste calls made on the canvas, and the ways a run can fail.
 */
module Types {

  /** A side of a decoded image, in pixels: an image PIL opens is never empty. */
  type Pixels = n: int | n >= 1 witness 1

  /** `Image.open(path).size` of an image file. */
  datatype Dims = Dims(width: Pixels, height: Pixels)

  /** A (width, height) pair of scaled, rounded pixel counts. */
  datatype Size = Size(width: int, height: int)

  /**
   * The input folder: the names `os.listdir` yields, in its order, and the
   * size PIL reports for every file it can open as an image.  A name
   * missing from `images` is a file `Image.open` raises on.
   */
  datatype Folder = Folder(listing: seq<string>, images: map<string, Dims>)

  /** The three arguments both `getSizes` and `pasteImages` scale by. */
  datatype Scaling = Scaling(normalizeHeight: bool, scaleFactor: real, tileHeight: int)

  /** The parsed command line, as far as the layout uses it. */
  datatype Config = Config(scaling: Scaling, multiplier: real, resolution: int)

  /** One `packer.add_rect(width, height, id)` call. */
  datatype Registration = Registration(size: Size, id: string)

  /**
   * One entry of `packer.rect_list()`: bin index, lower-left corner in
   * packing space (origin bottom-left), width, height and rectangle id.
   */
  datatype PackedRect = PackedRect(bin: nat, x: int, y: int, width: int, height: int, id: string)

  /** One `background.paste(im, (left, top))` call, with the pasted image's size. */
  datatype PasteCall = PasteCall(id: string, left: int, top: int, size: Size)

  /** The exceptions a run can raise before the collage is saved. */
  datatype Error =
    | ZeroHeight                  // `resolution / height` with height 0
    | NoImageYet(file: string)    // a first file that is not a .jpg leaves `im` unbound
    | Unreadable(file: string)    // `Image.open` raises on this file
    | NoSizes                     // `max` over an empty list of sizes

  datatype Option<T> = None | Some(value: T)

  datatype Result<T> = Ok(value: T) | Err(error: Error)

  /** Prefixes the successful result `r` with `prefix`; an error passes through. */
  function Then<T>(prefix: seq<T>, r: Result<seq<T>>): Result<seq<T>>
  {
    if r.Ok? then Ok(prefix + r.value) else r
  }

  /** An empty prefix leaves a result unchanged. */
  lemma ThenNil<T>(r: Result<seq<T>>)
    ensures Then([], r) == r
  {
    if r.Ok? {
      assert [] + r.value == r.value;
    }
  }

  /** Prefixing twice is prefixing once with both prefixes joined. */
  lemma ThenThen<T>(a: seq<T>, b: seq<T>, r: Result<seq<T>>)
    ensures Then(a, Then(b, r)) == Then(a + b, r)
  {
    if r.Ok? {
      assert a + (b + r.value) == (a + b) + r.value;
    }
  }

  /** `str.endswith(".jpg")`: case-sensitive. */
  predicate IsJpg(name: string)
  {
    |name| >= 4 && name[|name| - 4..] == ".jpg"
  }
}
