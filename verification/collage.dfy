/**
 * The rectangle-mode pipeline of `main`: choose the multiplier, collect the
 * sizes, size the one square bin, pack, copy the placements out, create the
 * canvas and paste every image.  `Layout` is what a run produces, stage by
 * stage; `Run` is `main` itself, proved to produce it; the lemmas state
 * what the run guarantees when the packer keeps its promises.
 */
module Collage {
  import opened Types
  import opened Sizes
  import opened Bins
  import opened Packing
  import opened Pasting

  /** A finished layout: the side of the square canvas and the paste calls made on it. */
  datatype Layout = Layout(side: int, pastes: seq<PasteCall>)

  /** The layout a run produces, or the exception it raises first. */
  function MakeLayout(cfg: Config, folder: Folder, algorithm: Algorithm): (r: Result<Layout>)
    // the multiplier is chosen before any file is read
    ensures ChooseMultiplier(cfg).Err? ==> r == Err(ZeroHeight)
    // an empty folder reaches `max` with nothing to compare
    ensures ChooseMultiplier(cfg).Ok? && folder.listing == [] ==> r == Err(NoSizes)
    // then every file is read once for its size, and the first failure is the run's
    ensures ChooseMultiplier(cfg).Ok? && Collect(folder.listing, folder.images, cfg.scaling, None).Err? ==>
      r == Err(Collect(folder.listing, folder.images, cfg.scaling, None).error)
  {
    match ChooseMultiplier(cfg)
    case Err(e) => Err(e)
    case Ok(multiplier) =>
      match Collect(folder.listing, folder.images, cfg.scaling, None)
      case Err(e) => Err(e)
      case Ok(regs) =>
        if regs == [] then Err(NoSizes)
        else
          var side := BinSide(SizesOf(regs), multiplier);
          var placed := algorithm(regs, [Size(side, side)]);
          match PastePlan(placed, side, folder.images, cfg.scaling)
          case Err(e) => Err(e)
          case Ok(pastes) => Ok(Layout(side, pastes))
  }

  /** The layout once the multiplier is chosen and the sizes are collected. */
  lemma LayoutOfStages(cfg: Config, folder: Folder, algorithm: Algorithm, multiplier: real, regs: seq<Registration>, side: int)
    requires ChooseMultiplier(cfg) == Ok(multiplier)
    requires Collect(folder.listing, folder.images, cfg.scaling, None) == Ok(regs) && regs != []
    requires side == BinSide(SizesOf(regs), multiplier)
    ensures PastePlan(algorithm(regs, [Size(side, side)]), side, folder.images, cfg.scaling).Err? ==>
      MakeLayout(cfg, folder, algorithm) == Err(PastePlan(algorithm(regs, [Size(side, side)]), side, folder.images, cfg.scaling).error)
    ensures PastePlan(algorithm(regs, [Size(side, side)]), side, folder.images, cfg.scaling).Ok? ==>
      MakeLayout(cfg, folder, algorithm) == Ok(Layout(side, PastePlan(algorithm(regs, [Size(side, side)]), side, folder.images, cfg.scaling).value))
  {
  }

  /** `main` after argument parsing: builds the collage on a fresh canvas. */
  method Run(cfg: Config, folder: Folder, algorithm: Algorithm) returns (r: Result<Canvas>)
    ensures r.Ok? <==> MakeLayout(cfg, folder, algorithm).Ok?
    ensures r.Err? ==> MakeLayout(cfg, folder, algorithm) == Err(r.error)
    ensures r.Ok? ==> fresh(r.value)
    // the canvas is the square bin, carrying exactly the layout's pastes
    ensures r.Ok? ==> r.value.width == r.value.height == MakeLayout(cfg, folder, algorithm).value.side
    ensures r.Ok? ==> r.value.pastes == MakeLayout(cfg, folder, algorithm).value.pastes
  {
    var packer := new Packer();

    var multiplier := cfg.multiplier;
    if cfg.scaling.normalizeHeight {
      if cfg.scaling.tileHeight == 0 {
        return Err(ZeroHeight);
      }
      multiplier := cfg.resolution as real / cfg.scaling.tileHeight as real;
    }
    assert ChooseMultiplier(cfg) == Ok(multiplier);

    var sizes := GetSizes(folder, cfg.scaling, packer);
    if sizes.Err? {
      return Err(sizes.error);
    }
    ghost var regs := Collect(folder.listing, folder.images, cfg.scaling, None).value;
    assert packer.rects == regs && packer.bins == [];
    assert sizes.value == SizesOf(regs);

    var bin := MakeBins(sizes.value, multiplier, packer);
    if bin.Err? {
      return Err(bin.error);
    }
    var x, y := bin.value.width, bin.value.height;
    assert packer.bins == [Size(x, y)] && packer.rects == regs;

    packer.Pack(algorithm);
    assert packer.placed == algorithm(regs, [Size(x, y)]);

    var rectangles := MakeRectangles(packer);
    var background := new Canvas(x, y);
    var pasted := PasteImages(folder, cfg.scaling, rectangles, y, background);
    assert regs != [];
    assert x == BinSide(SizesOf(regs), multiplier);
    LayoutOfStages(cfg, folder, algorithm, multiplier, regs, x);
    if pasted.Err? {
      return Err(pasted.error);
    }
    return Ok(background);
  }

  /** The box a paste call covers on the canvas. */
  function PasteBox(p: PasteCall): Box
  {
    Box(p.left, p.top, p.size.width, p.size.height)
  }

  /** A box lies within the square [0, side] x [0, side]. */
  predicate Within(b: Box, side: int)
  {
    0 <= b.x && b.x + b.width <= side && 0 <= b.y && b.y + b.height <= side
  }

  /**
   * What the packing library (GuillotineBssfSas, no rotation) promises for
   * one square bin, taken here as an assumption about `algorithm`: every
   * placement is one of the registered rectangles at its registered size,
   * lies within the bin, and no two placements overlap.
   */
  ghost predicate KeepsPromises(algorithm: Algorithm)
  {
    forall regs: seq<Registration>, side: int ::
      var placed := algorithm(regs, [Size(side, side)]);
      (forall k :: 0 <= k < |placed| ==>
         Registration(Size(placed[k].width, placed[k].height), placed[k].id) in regs &&
         Within(PackedBox(placed[k]), side)) &&
      (forall i, j :: 0 <= i < j < |placed| ==> !Overlap(PackedBox(placed[i]), PackedBox(placed[j])))
  }

  /**
   * When every listed file is a .jpg that opens, a registered rectangle's
   * file opens again at paste time and is pasted at its registered size.
   */
  lemma RegisteredPastesAtRegisteredSize(names: seq<string>, images: map<string, Dims>, s: Scaling, reg: Registration)
    requires forall i :: 0 <= i < |names| ==> IsJpg(names[i]) && names[i] in images
    requires Collect(names, images, s, None).Ok? && reg in Collect(names, images, s, None).value
    ensures reg.id in images && PastedSize(s, images[reg.id]) == reg.size
  {
    CollectAllJpg(names, images, s, None);
    CollectShape(names, images, s, None);
    var regs := Collect(names, images, s, None).value;
    var i :| 0 <= i < |regs| && regs[i] == reg;
    assert reg.id == names[i];
  }

  /**
   * Every placement the packer returns for the registered rectangles names
   * a listed file that opens again and is pasted at its packed size.
   */
  lemma PlacementsPaste(folder: Folder, s: Scaling, regs: seq<Registration>, side: int, placed: seq<PackedRect>)
    requires forall i :: 0 <= i < |folder.listing| ==> IsJpg(folder.listing[i]) && folder.listing[i] in folder.images
    requires Collect(folder.listing, folder.images, s, None) == Ok(regs)
    requires forall k :: 0 <= k < |placed| ==> Registration(Size(placed[k].width, placed[k].height), placed[k].id) in regs
    ensures forall k :: 0 <= k < |placed| ==>
      placed[k].id in folder.images && placed[k].id in folder.listing &&
      PastedSize(s, folder.images[placed[k].id]) == Size(placed[k].width, placed[k].height)
  {
    CollectShape(folder.listing, folder.images, s, None);
    forall k | 0 <= k < |placed|
      ensures placed[k].id in folder.images
      ensures placed[k].id in folder.listing
      ensures PastedSize(s, folder.images[placed[k].id]) == Size(placed[k].width, placed[k].height)
    {
      var reg := Registration(Size(placed[k].width, placed[k].height), placed[k].id);
      RegisteredPastesAtRegisteredSize(folder.listing, folder.images, s, reg);
      var i :| 0 <= i < |regs| && regs[i] == reg;
      assert folder.listing[i] == placed[k].id;
    }
  }

  /**
   * Pasting follows the packing: the k-th paste is the k-th placement's
   * image, at the placement's box flipped into canvas coordinates; so what
   * lies within the bin lies within the canvas, and placements that do not
   * overlap give pastes that do not overlap.
   */
  lemma PastesFollowPlacements(placed: seq<PackedRect>, side: int, images: map<string, Dims>, s: Scaling)
    requires forall k :: 0 <= k < |placed| ==>
      placed[k].id in images && PastedSize(s, images[placed[k].id]) == Size(placed[k].width, placed[k].height)
    requires forall k :: 0 <= k < |placed| ==> Within(PackedBox(placed[k]), side)
    requires forall i, j :: 0 <= i < j < |placed| ==> !Overlap(PackedBox(placed[i]), PackedBox(placed[j]))
    ensures PastePlan(placed, side, images, s).Ok?
    ensures var pastes := PastePlan(placed, side, images, s).value;
      |pastes| == |placed| &&
      forall k :: 0 <= k < |pastes| ==>
        placed[k].id in images &&
        pastes[k].id == placed[k].id && pastes[k].size == PastedSize(s, images[placed[k].id]) &&
        PasteBox(pastes[k]) == CanvasBox(placed[k], side) &&
        Within(PasteBox(pastes[k]), side)
    ensures var pastes := PastePlan(placed, side, images, s).value;
      forall i, j :: 0 <= i < j < |pastes| ==> !Overlap(PasteBox(pastes[i]), PasteBox(pastes[j]))
  {
    PastePlanFails(placed, side, images, s);
    PastePlanPastes(placed, side, images, s);
    var pastes := PastePlan(placed, side, images, s).value;
    forall k | 0 <= k < |pastes|
      ensures PasteBox(pastes[k]) == CanvasBox(placed[k], side)
    {
    }
    forall i, j | 0 <= i < j < |pastes|
      ensures !Overlap(PasteBox(pastes[i]), PasteBox(pastes[j]))
    {
      FlipPreservesOverlap(placed[i], placed[j], side);
    }
  }

  /**
   * The pastes for a packing of the collected rectangles that keeps the
   * packer's promises: each is a listed file at its effective size inside
   * the canvas, no two overlap, and with normalisation each is exactly the
   * tile height.
   */
  lemma PastesSound(folder: Folder, s: Scaling, regs: seq<Registration>, side: int, placed: seq<PackedRect>)
    requires forall i :: 0 <= i < |folder.listing| ==> IsJpg(folder.listing[i]) && folder.listing[i] in folder.images
    requires Collect(folder.listing, folder.images, s, None) == Ok(regs)
    requires forall k :: 0 <= k < |placed| ==>
      Registration(Size(placed[k].width, placed[k].height), placed[k].id) in regs && Within(PackedBox(placed[k]), side)
    requires forall i, j :: 0 <= i < j < |placed| ==> !Overlap(PackedBox(placed[i]), PackedBox(placed[j]))
    ensures PastePlan(placed, side, folder.images, s).Ok?
    ensures var pastes := PastePlan(placed, side, folder.images, s).value;
      forall k :: 0 <= k < |pastes| ==>
        pastes[k].id in folder.listing &&
        pastes[k].size == EffectiveSize(s, folder.images[pastes[k].id]) &&
        Within(PasteBox(pastes[k]), side)
    ensures var pastes := PastePlan(placed, side, folder.images, s).value;
      forall i, j :: 0 <= i < j < |pastes| ==> !Overlap(PasteBox(pastes[i]), PasteBox(pastes[j]))
    ensures var pastes := PastePlan(placed, side, folder.images, s).value;
      s.normalizeHeight ==> forall k :: 0 <= k < |pastes| ==> pastes[k].size.height == s.tileHeight
  {
    PlacementsPaste(folder, s, regs, side, placed);
    PastesFollowPlacements(placed, side, folder.images, s);
  }

  /**
   * The end-to-end guarantee.  With a non-empty folder of .jpg files that
   * all open at effective sizes of at least one pixel a side, a usable
   * non-negative multiplier and a packer that keeps its promises, the run
   * succeeds; every image is pasted at exactly the size it was packed
   * at, inside the canvas, and no two pasted images overlap.  With heights
   * normalised every pasted image is exactly the tile height.
   */
  lemma LayoutSound(cfg: Config, folder: Folder, algorithm: Algorithm)
    requires KeepsPromises(algorithm)
    requires folder.listing != [] && ChooseMultiplier(cfg).Ok? && ChooseMultiplier(cfg).value >= 0.0
    requires forall i :: 0 <= i < |folder.listing| ==> IsJpg(folder.listing[i]) && folder.listing[i] in folder.images
    // sides below one pixel and a negative canvas side make PIL and rectpack raise
    requires forall i :: 0 <= i < |folder.listing| ==>
               EffectiveSize(cfg.scaling, folder.images[folder.listing[i]]).width >= 1 &&
               EffectiveSize(cfg.scaling, folder.images[folder.listing[i]]).height >= 1
    ensures MakeLayout(cfg, folder, algorithm).Ok?
    ensures var layout := MakeLayout(cfg, folder, algorithm).value;
      forall k :: 0 <= k < |layout.pastes| ==>
        layout.pastes[k].id in folder.listing &&
        layout.pastes[k].size == EffectiveSize(cfg.scaling, folder.images[layout.pastes[k].id]) &&
        Within(PasteBox(layout.pastes[k]), layout.side)
    ensures var layout := MakeLayout(cfg, folder, algorithm).value;
      forall i, j :: 0 <= i < j < |layout.pastes| ==> !Overlap(PasteBox(layout.pastes[i]), PasteBox(layout.pastes[j]))
    ensures var layout := MakeLayout(cfg, folder, algorithm).value;
      cfg.scaling.normalizeHeight ==> forall k :: 0 <= k < |layout.pastes| ==> layout.pastes[k].size.height == cfg.scaling.tileHeight
  {
    var s := cfg.scaling;
    var multiplier := ChooseMultiplier(cfg).value;
    CollectAllJpg(folder.listing, folder.images, s, None);
    CollectShape(folder.listing, folder.images, s, None);
    var regs := Collect(folder.listing, folder.images, s, None).value;
    var side := BinSide(SizesOf(regs), multiplier);
    var placed := algorithm(regs, [Size(side, side)]);
    assert forall k :: 0 <= k < |placed| ==>
      Registration(Size(placed[k].width, placed[k].height), placed[k].id) in regs && Within(PackedBox(placed[k]), side);
    assert forall i, j :: 0 <= i < j < |placed| ==> !Overlap(PackedBox(placed[i]), PackedBox(placed[j]));
    PastesSound(folder, s, regs, side, placed);
    LayoutOfStages(cfg, folder, algorithm, multiplier, regs, side);
  }

  /**
   * The reuse of the previous image is visible at paste time: after a.jpg
   * (200x100), a file b.png (10x10) is packed at 200x100 but pasted, when
   * PIL can open it, at 10x10.
   */
  lemma NonJpgPastedAtOtherSize()
    ensures var images := map["a.jpg" := Dims(200, 100), "b.png" := Dims(10, 10)];
      var s := Scaling(false, 1.0, 100);
      var regs := Collect(["a.jpg", "b.png"], images, s, None);
      regs.Ok? && regs.value[1] == Registration(Size(200, 100), "b.png") &&
      PastedSize(s, images["b.png"]) == Size(10, 10)
  {
    var images := map["a.jpg" := Dims(200, 100), "b.png" := Dims(10, 10)];
    var s := Scaling(false, 1.0, 100);
    var names := ["a.jpg", "b.png"];
    assert IsJpg(names[0]);
    assert !IsJpg(names[1]) by {
      assert names[1][|names[1]| - 4..] == ".png";
    }
    assert names[1..] == ["b.png"];
    assert names[1..][1..] == [];
    assert EffectiveSize(s, images["a.jpg"]) == Size(200, 100);
  }
}
