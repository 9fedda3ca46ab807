/**
 * The `rectpack` packer object as the collage maker uses it: rectangles and
 * bins are registered on it, `pack()` places the rectangles, and
 * `rect_list()` reads the placements back.  The placement algorithm
 * (GuillotineBssfSas, no rotation) is a library this model cannot see, so
 * `Pack` takes it as a function of what was registered.
 */
module Packing {
  import opened Types

  /** The algorithm behind `pack()`: from the registered rectangles and bins to placements. */
  type Algorithm = (seq<Registration>, seq<Size>) -> seq<PackedRect>

  class Packer {
    /** The `add_rect` calls so far, in order. */
    var rects: seq<Registration>
    /** The `add_bin` calls so far, in order. */
    var bins: seq<Size>
    /** What `rect_list()` returns: the placements of the last `pack()`. */
    var placed: seq<PackedRect>

    /** `newPacker(pack_algo = GuillotineBssfSas, rotation = False)`. */
    constructor ()
      ensures rects == [] && bins == [] && placed == []
    {
      rects, bins, placed := [], [], [];
    }

    /** `add_rect(width, height, rid)`. */
    method AddRect(size: Size, id: string)
      modifies this
      ensures rects == old(rects) + [Registration(size, id)]
      ensures bins == old(bins) && placed == old(placed)
    {
      rects := rects + [Registration(size, id)];
    }

    /** `add_bin(width, height)`. */
    method AddBin(bin: Size)
      modifies this
      ensures bins == old(bins) + [bin]
      ensures rects == old(rects) && placed == old(placed)
    {
      bins := bins + [bin];
    }

    /** `pack()`: runs the packing algorithm over everything registered so far. */
    method Pack(algorithm: Algorithm)
      modifies this
      ensures placed == algorithm(rects, bins)
      ensures rects == old(rects) && bins == old(bins)
    {
      placed := algorithm(rects, bins);
    }

    /** `rect_list()`. */
    function RectList(): seq<PackedRect>
      reads this
    {
      placed
    }
  }
}
