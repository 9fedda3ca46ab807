/**
 * Placement conversion (`makeRectangles`, `makeCanvas`, `pasteImages`): the
 * packer's placements are copied out in order, each bottom-left corner in
 * packing space becomes a top-left paste offset on the canvas, and each
 * image is re-opened and re-scaled by the rule used during collection
 * before it is pasted.  The canvas itself is PIL's; here it records the
 * paste calls it receives.
 */
module Pasting {
  import opened Types
  import opened Sizes
  import opened Packing
  import opened Rounding

  /**
   * `(left, top)`: the paste offset of a placed rectangle on a canvas of
   * height binHeight, whose origin is the top-left corner.
   */
  function PasteOffset(r: PackedRect, binHeight: int): (offset: (int, int))
    // the horizontal position is kept
    ensures offset.0 == r.x
    // the rectangle's lower edge stays r.y above the canvas's lower edge
    ensures binHeight - (offset.1 + r.height) == r.y
    // a rectangle that lies within the bin vertically is pasted within the canvas
    ensures 0 <= r.y && r.y + r.height <= binHeight ==> 0 <= offset.1 && offset.1 + r.height <= binHeight
  {
    var left := r.x;
    var bottom := binHeight - r.y;
    var top := bottom - r.height;
    (left, top)
  }

  /** An axis-aligned box: corner, width and height. */
  datatype Box = Box(x: int, y: int, width: int, height: int)

  /** Two boxes share some area. */
  predicate Overlap(a: Box, b: Box)
  {
    a.x < b.x + b.width && b.x < a.x + a.width &&
    a.y < b.y + b.height && b.y < a.y + a.height
  }

  /** The box a placement covers in packing space. */
  function PackedBox(r: PackedRect): Box
  {
    Box(r.x, r.y, r.width, r.height)
  }

  /** The box the same placement covers on the canvas, at its paste offset. */
  function CanvasBox(r: PackedRect, binHeight: int): Box
  {
    var offset := PasteOffset(r, binHeight);
    Box(offset.0, offset.1, r.width, r.height)
  }

  /** Flipping the vertical axis neither creates nor removes overlaps. */
  lemma FlipPreservesOverlap(a: PackedRect, b: PackedRect, binHeight: int)
    ensures Overlap(CanvasBox(a, binHeight), CanvasBox(b, binHeight)) <==> Overlap(PackedBox(a), PackedBox(b))
  {
  }

  /**
   * The size an image is pasted at: resized by its factor, unless the
   * factor is one, in which case it keeps its native size.
   */
  function PastedSize(s: Scaling, im: Dims): (size: Size)
    // the same factor rule and rounding as during collection
    ensures size == EffectiveSize(s, im)
  {
    var f := Factor(s, im);
    EffectiveSizeByFactor(s, im, f);
    if f != 1.0 then Size(Scale(im.width, f), Scale(im.height, f))
    else
      ScaleByOne(im.width);
      ScaleByOne(im.height);
      Size(im.width, im.height)
  }

  /** The paste call made for one placement whose file opens as im. */
  function PasteFor(r: PackedRect, binHeight: int, im: Dims, s: Scaling): PasteCall
  {
    var offset := PasteOffset(r, binHeight);
    PasteCall(r.id, offset.0, offset.1, PastedSize(s, im))
  }

  /**
   * The paste calls `pasteImages` makes for `rects`, in order, or the error
   * raised by the first file that cannot be opened.
   */
  function PastePlan(rects: seq<PackedRect>, binHeight: int, images: map<string, Dims>, s: Scaling): Result<seq<PasteCall>>
    decreases |rects|
  {
    if rects == [] then Ok([])
    else if rects[0].id !in images then Err(Unreadable(rects[0].id))
    else Then([PasteFor(rects[0], binHeight, images[rects[0].id], s)], PastePlan(rects[1..], binHeight, images, s))
  }

  /**
   * Pasting fails exactly when some placed file cannot be opened, and then
   * with the first such file.
   */
  lemma {:induction false} PastePlanFails(rects: seq<PackedRect>, binHeight: int, images: map<string, Dims>, s: Scaling)
    ensures PastePlan(rects, binHeight, images, s).Ok? <==> forall i :: 0 <= i < |rects| ==> rects[i].id in images
    ensures PastePlan(rects, binHeight, images, s).Err? ==>
      exists i :: 0 <= i < |rects| && rects[i].id !in images && (forall j :: 0 <= j < i ==> rects[j].id in images) &&
        PastePlan(rects, binHeight, images, s) == Err(Unreadable(rects[i].id))
    decreases |rects|
  {
    if rects != [] && rects[0].id in images {
      var rest := rects[1..];
      PastePlanFails(rest, binHeight, images, s);
      assert forall i :: 0 <= i < |rest| ==> rest[i] == rects[i + 1];
      if PastePlan(rest, binHeight, images, s).Err? {
        var i :| 0 <= i < |rest| && rest[i].id !in images && (forall j :: 0 <= j < i ==> rest[j].id in images) &&
          PastePlan(rest, binHeight, images, s) == Err(Unreadable(rest[i].id));
        assert rects[i + 1].id !in images;
        assert forall j :: 0 <= j < i + 1 ==> rects[j].id in images;
      }
    }
  }

  /** Otherwise there is one paste per placement, in placement order. */
  lemma {:induction false} PastePlanPastes(rects: seq<PackedRect>, binHeight: int, images: map<string, Dims>, s: Scaling)
    requires PastePlan(rects, binHeight, images, s).Ok?
    ensures |PastePlan(rects, binHeight, images, s).value| == |rects|
    ensures forall i :: 0 <= i < |rects| ==>
      rects[i].id in images &&
      PastePlan(rects, binHeight, images, s).value[i] == PasteFor(rects[i], binHeight, images[rects[i].id], s)
    decreases |rects|
  {
    if rects != [] {
      var rest := rects[1..];
      PastePlanPastes(rest, binHeight, images, s);
      assert forall i :: 0 <= i < |rest| ==> rest[i] == rects[i + 1];
    }
  }

  /** One step of pasting: the placement at index k is pasted ahead of the rest. */
  lemma PastePlanStep(rects: seq<PackedRect>, k: nat, binHeight: int, images: map<string, Dims>, s: Scaling)
    requires k < |rects|
    ensures rects[k].id !in images ==> PastePlan(rects[k..], binHeight, images, s) == Err(Unreadable(rects[k].id))
    ensures rects[k].id in images ==>
      PastePlan(rects[k..], binHeight, images, s)
        == Then([PasteFor(rects[k], binHeight, images[rects[k].id], s)], PastePlan(rects[k + 1..], binHeight, images, s))
  {
    assert rects[k..][1..] == rects[k + 1..];
  }

  /** The canvas: PIL's `Image.new('RGB', (width, height), black)`, recording what is pasted on it. */
  class Canvas {
    const width: int
    const height: int
    /** The `paste` calls received so far, in order. */
    var pastes: seq<PasteCall>

    /** `makeCanvas(x, y)`: a black canvas of the bin's size. */
    constructor (x: int, y: int)
      ensures width == x && height == y && pastes == []
    {
      width, height, pastes := x, y, [];
    }

    /** `paste(im, offset)`. */
    method Paste(call: PasteCall)
      modifies this
      ensures pastes == old(pastes) + [call]
    {
      pastes := pastes + [call];
    }
  }

  /** `makeRectangles`: copies the packer's placements into a list, in order. */
  method MakeRectangles(packer: Packer) returns (rectangles: seq<PackedRect>)
    ensures rectangles == packer.RectList()
  {
    rectangles := [];
    var allRects := packer.RectList();
    for k := 0 to |allRects|
      invariant rectangles == allRects[..k]
    {
      rectangles := rectangles + [allRects[k]];
    }
    assert allRects[..|allRects|] == allRects;
  }

  /**
   * `pasteImages`: for each placement, re-opens its file, re-scales it by
   * the collection rule (resizing only when the factor is not one) and
   * pastes it at the top-left offset on a canvas of height y.
   */
  method PasteImages(folder: Folder, s: Scaling, rectangles: seq<PackedRect>, y: int, background: Canvas)
    returns (r: Result<()>)
    modifies background
    ensures r.Ok? <==> PastePlan(rectangles, y, folder.images, s).Ok?
    ensures r.Ok? ==> background.pastes == old(background.pastes) + PastePlan(rectangles, y, folder.images, s).value
    ensures r.Err? ==> PastePlan(rectangles, y, folder.images, s) == Err(r.error)
  {
    var scaleFactor := s.scaleFactor;
    ghost var done: seq<PasteCall> := [];
    assert rectangles[0..] == rectangles;
    ThenNil(PastePlan(rectangles, y, folder.images, s));
    for k := 0 to |rectangles|
      invariant background.pastes == old(background.pastes) + done
      invariant !s.normalizeHeight ==> scaleFactor == s.scaleFactor
      invariant PastePlan(rectangles, y, folder.images, s) == Then(done, PastePlan(rectangles[k..], y, folder.images, s))
    {
      var rect := rectangles[k];
      var corner := (rect.x, rect.y);
      var height := rect.height;
      var rid := rect.id;

      var left := corner.0;
      var bottom := y - corner.1;
      var top := bottom - height;
      var offset := (left, top);

      PasteStep(rectangles, k, y, folder.images, s, done);
      if rid !in folder.images {
        return Err(Unreadable(rid));
      }
      var im := folder.images[rid];
      if s.normalizeHeight {
        scaleFactor := s.tileHeight as real / im.height as real;
      }
      var size := Size(im.width, im.height);
      if scaleFactor != 1.0 {
        size := Size(Scale(im.width, scaleFactor), Scale(im.height, scaleFactor));
      }
      PasteForByFactor(rect, y, im, s, scaleFactor);
      background.Paste(PasteCall(rid, offset.0, offset.1, size));
      done := done + [PasteCall(rid, offset.0, offset.1, size)];
    }
    assert rectangles[|rectangles|..] == [];
    return Ok(());
  }

  /** The paste call for one placement, written out the way `pasteImages` computes it. */
  lemma PasteForByFactor(r: PackedRect, binHeight: int, im: Dims, s: Scaling, f: real)
    requires f == Factor(s, im)
    ensures PasteFor(r, binHeight, im, s)
         == PasteCall(r.id, r.x, binHeight - r.y - r.height,
                      if f != 1.0 then Size(Scale(im.width, f), Scale(im.height, f)) else Size(im.width, im.height))
  {
  }

  /**
   * One iteration of `pasteImages`: with `done` pasted so far, the placement
   * at index k either names a file that cannot be opened, which is the
   * error of the whole plan, or is pasted next.
   */
  lemma PasteStep(rects: seq<PackedRect>, k: nat, binHeight: int, images: map<string, Dims>, s: Scaling, done: seq<PasteCall>)
    requires k < |rects|
    requires PastePlan(rects, binHeight, images, s) == Then(done, PastePlan(rects[k..], binHeight, images, s))
    ensures rects[k].id !in images ==> PastePlan(rects, binHeight, images, s) == Err(Unreadable(rects[k].id))
    ensures rects[k].id in images ==>
      PastePlan(rects, binHeight, images, s)
        == Then(done + [PasteFor(rects[k], binHeight, images[rects[k].id], s)], PastePlan(rects[k + 1..], binHeight, images, s))
  {
    PastePlanStep(rects, k, binHeight, images, s);
    if rects[k].id in images {
      ThenThen(done, [PasteFor(rects[k], binHeight, images[rects[k].id], s)], PastePlan(rects[k + 1..], binHeight, images, s));
    }
  }
}
