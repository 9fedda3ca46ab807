/**
 * Bin sizing (`makeBins`, and the multiplier chosen in `main`): one square
 * bin whose side is the smaller of the largest collected width and the
 * largest collected height, times a multiplier, rounded.
 */
module Bins {
  import opened Types
  import opened Rounding
  import opened Packing

  /** Python's `max` over a non-empty sequence of integers. */
  function Max(xs: seq<int>): (m: int)
    requires xs != []
    ensures m in xs
    ensures forall i :: 0 <= i < |xs| ==> xs[i] <= m
  {
    if |xs| == 1 then xs[0]
    else
      var rest := Max(xs[1..]);
      if xs[0] >= rest then xs[0] else rest
  }

  /** `[x[0] for x in sizes]`. */
  function Widths(sizes: seq<Size>): seq<int>
  {
    seq(|sizes|, i requires 0 <= i < |sizes| => sizes[i].width)
  }

  /** `[x[1] for x in sizes]`. */
  function Heights(sizes: seq<Size>): seq<int>
  {
    seq(|sizes|, i requires 0 <= i < |sizes| => sizes[i].height)
  }

  /** `squareMax = min(max(widths), max(heights))`. */
  function SquareMax(sizes: seq<Size>): int
    requires sizes != []
  {
    var maxx := Max(Widths(sizes));
    var maxy := Max(Heights(sizes));
    if maxx <= maxy then maxx else maxy
  }

  /**
   * SquareMax is the largest m such that some image is at least m wide and
   * some image is at least m tall; it is one of the collected sides.
   */
  lemma SquareMaxBounds(sizes: seq<Size>)
    requires sizes != []
    // no more than the largest width, nor the largest height ...
    ensures exists i :: 0 <= i < |sizes| && SquareMax(sizes) <= sizes[i].width
    ensures exists j :: 0 <= j < |sizes| && SquareMax(sizes) <= sizes[j].height
    // ... and as large as one of the two maxima
    ensures (forall i :: 0 <= i < |sizes| ==> sizes[i].width <= SquareMax(sizes)) ||
            (forall j :: 0 <= j < |sizes| ==> sizes[j].height <= SquareMax(sizes))
    // one of the collected widths or heights
    ensures exists i :: 0 <= i < |sizes| && (SquareMax(sizes) == sizes[i].width || SquareMax(sizes) == sizes[i].height)
  {
    var maxx := Max(Widths(sizes));
    var maxy := Max(Heights(sizes));
    assert forall i :: 0 <= i < |sizes| ==> Widths(sizes)[i] == sizes[i].width;
    assert forall j :: 0 <= j < |sizes| ==> Heights(sizes)[j] == sizes[j].height;
    assert exists i :: 0 <= i < |sizes| && Widths(sizes)[i] == maxx;
    assert exists j :: 0 <= j < |sizes| && Heights(sizes)[j] == maxy;
  }

  /** The side of the one square bin: `round(squareMax * multiplier)`. */
  function BinSide(sizes: seq<Size>, multiplier: real): int
    requires sizes != []
  {
    Scale(SquareMax(sizes), multiplier)
  }

  /**
   * The multiplier `main` passes to `makeBins`: the command-line value, or
   * `resolution / height` when heights are normalised.
   */
  function ChooseMultiplier(cfg: Config): (r: Result<real>)
    ensures !cfg.scaling.normalizeHeight ==> r == Ok(cfg.multiplier)
    // dividing by a zero height raises
    ensures cfg.scaling.normalizeHeight ==> (r.Ok? <==> cfg.scaling.tileHeight != 0)
  {
    if !cfg.scaling.normalizeHeight then Ok(cfg.multiplier)
    else if cfg.scaling.tileHeight == 0 then Err(ZeroHeight)
    else Ok(cfg.resolution as real / cfg.scaling.tileHeight as real)
  }

  /** With every height equal to t, SquareMax is at most t, and exactly t once some width reaches t. */
  lemma SquareMaxNormalized(sizes: seq<Size>, t: int)
    requires sizes != []
    requires forall i :: 0 <= i < |sizes| ==> sizes[i].height == t
    ensures SquareMax(sizes) <= t
    ensures (exists i :: 0 <= i < |sizes| && sizes[i].width >= t) ==> SquareMax(sizes) == t
  {
    SquareMaxBounds(sizes);
  }

  /** Scaling by res / t gives at most res for a side m <= t ... */
  lemma ScaleByRatioAtMost(m: int, t: int, res: int)
    requires 0 < t && m <= t && 0 <= res
    ensures Scale(m, res as real / t as real) <= res
  {
    var q := res as real / t as real;
    assert q * t as real == res as real;
    assert 0.0 <= q;
    assert m as real * q <= t as real * q;
    TimesIsProduct(m, q);
    RoundMonotone(Times(m, q), res as real);
    RoundOfInt(res);
  }

  /** ... and exactly res for the side t itself. */
  lemma ScaleByRatioReached(t: int, res: int)
    requires t != 0
    ensures Scale(t, res as real / t as real) == res
  {
    var q := res as real / t as real;
    assert q * t as real == res as real;
    TimesIsProduct(t, q);
    RoundOfInt(res);
  }

  /** Under normalisation the multiplier takes one tile height to the requested resolution. */
  lemma MultiplierReachesResolution(cfg: Config)
    requires cfg.scaling.normalizeHeight && ChooseMultiplier(cfg).Ok?
    ensures Scale(cfg.scaling.tileHeight, ChooseMultiplier(cfg).value) == cfg.resolution
  {
    ScaleByRatioReached(cfg.scaling.tileHeight, cfg.resolution);
  }

  /**
   * With heights normalised to a positive tile height and the multiplier
   * `resolution / tileHeight`, the bin is never wider than the requested
   * resolution ...
   */
  lemma NormalizedBinSide(sizes: seq<Size>, tileHeight: int, resolution: int)
    requires sizes != [] && tileHeight > 0 && resolution >= 0
    requires forall i :: 0 <= i < |sizes| ==> sizes[i].height == tileHeight
    ensures BinSide(sizes, resolution as real / tileHeight as real) <= resolution
  {
    SquareMaxNormalized(sizes, tileHeight);
    ScaleByRatioAtMost(SquareMax(sizes), tileHeight, resolution);
  }

  /**
   * ... and it is exactly that wide once some image is at least as wide as
   * it is tall after scaling.
   */
  lemma NormalizedBinSideReached(sizes: seq<Size>, tileHeight: int, resolution: int)
    requires sizes != [] && tileHeight > 0
    requires forall i :: 0 <= i < |sizes| ==> sizes[i].height == tileHeight
    requires exists i :: 0 <= i < |sizes| && sizes[i].width >= tileHeight
    ensures BinSide(sizes, resolution as real / tileHeight as real) == resolution
  {
    SquareMaxNormalized(sizes, tileHeight);
    ScaleByRatioReached(tileHeight, resolution);
  }

  /**
   * The four images (100,100), (200,100), (100,200), (50,50) with multiplier
   * 2 give a largest width and a largest height of 200, so a bin of side 400.
   */
  lemma BinSideExample()
    ensures BinSide([Size(100, 100), Size(200, 100), Size(100, 200), Size(50, 50)], 2.0) == 400
  {
    var sizes := [Size(100, 100), Size(200, 100), Size(100, 200), Size(50, 50)];
    assert Max(Widths(sizes)) == 200 by {
      assert Widths(sizes) == [100, 200, 100, 50];
    }
    assert Max(Heights(sizes)) == 200 by {
      var hs := Heights(sizes);
      assert hs == [100, 100, 200, 50];
      assert hs[2] <= Max(hs);
    }
    TimesIsProduct(200, 2.0);
    RoundOfInt(400);
  }

  /**
   * `makeBins`: registers one square bin of side `BinSide` with the packer
   * and returns its dimensions; `max` over no sizes raises.
   */
  method MakeBins(sizes: seq<Size>, multiplier: real, packer: Packer) returns (r: Result<Size>)
    modifies packer
    ensures packer.rects == old(packer.rects) && packer.placed == old(packer.placed)
    ensures sizes == [] ==> r == Err(NoSizes) && packer.bins == old(packer.bins)
    // the bin is square, with the side computed from the sizes
    ensures sizes != [] ==> r.Ok? && r.value.width == r.value.height == BinSide(sizes, multiplier)
    // exactly one bin is registered, and it is the one returned
    ensures r.Ok? ==> packer.bins == old(packer.bins) + [r.value]
  {
    if sizes == [] {
      return Err(NoSizes);
    }
    var bins: seq<Size> := [];
    var squareMax := SquareMax(sizes);
    var x := Scale(squareMax, multiplier);
    var y := Scale(squareMax, multiplier);
    bins := bins + [Size(x, y)];
    for k := 0 to |bins|
      invariant packer.bins == old(packer.bins) + bins[..k]
      invariant packer.rects == old(packer.rects) && packer.placed == old(packer.placed)
    {
      packer.AddBin(bins[k]);
    }
    assert bins[..|bins|] == bins;
    return Ok(Size(x, y));
  }
}
