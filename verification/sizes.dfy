/**
 * Size collection (`getSizes`): every listed file's effective size, scaled
 * by a fixed factor or normalised to a common height, registered with the
 * packer and collected into a list, in listing order.
 *
 * The source opens a file only when its name ends in ".jpg"; for any other
 * name it prints a message and carries on with the last image opened (and
 * raises if there is none yet).  This model keeps that
 * behaviour: `OpenForSizing` threads the previous image through.
 */
module Sizes {
  import opened Types
  import opened Rounding
  import opened Packing

  /** The factor applied to an image: fixed, or `tileHeight / nativeHeight`. */
  function Factor(s: Scaling, im: Dims): real
  {
    if s.normalizeHeight then s.tileHeight as real / im.height as real else s.scaleFactor
  }

  /** Under normalisation an image's factor takes its native height to the tile height. */
  lemma NormalizedFactor(s: Scaling, im: Dims)
    ensures s.normalizeHeight ==> Factor(s, im) * im.height as real == s.tileHeight as real
  {
  }

  /** The size an image is laid out and pasted at: both sides scaled by its factor. */
  function EffectiveSize(s: Scaling, im: Dims): (size: Size)
    // normalising brings every image to exactly the tile height ...
    ensures s.normalizeHeight ==> size.height == s.tileHeight
    // ... and a fixed factor of one leaves the native size alone
    ensures !s.normalizeHeight && s.scaleFactor == 1.0 ==> size == Size(im.width, im.height)
  {
    var f := Factor(s, im);
    NormalizedFactor(s, im);
    TimesIsProduct(im.height, f);
    RoundOfInt(s.tileHeight);
    ScaleByOne(im.width);
    ScaleByOne(im.height);
    Size(Scale(im.width, f), Scale(im.height, f))
  }

  /** An image's effective size is both of its sides scaled by its factor. */
  lemma EffectiveSizeByFactor(s: Scaling, im: Dims, f: real)
    requires f == Factor(s, im)
    ensures EffectiveSize(s, im) == Size(Scale(im.width, f), Scale(im.height, f))
  {
  }

  /**
   * The image `im` refers to while `name` is processed: the file itself if
   * it is a .jpg, otherwise whatever `prev` the previous iteration left.
   */
  function OpenForSizing(name: string, images: map<string, Dims>, prev: Option<Dims>): Result<Dims>
  {
    if IsJpg(name) then
      if name in images then Ok(images[name]) else Err(Unreadable(name))
    else if prev.Some? then Ok(prev.value)
    else Err(NoImageYet(name))
  }

  /**
   * The `add_rect` calls `getSizes` makes for `names`, starting with `prev`
   * as the image left over from earlier files, or the error it raises.
   */
  function Collect(names: seq<string>, images: map<string, Dims>, s: Scaling, prev: Option<Dims>): Result<seq<Registration>>
    decreases |names|
  {
    if names == [] then Ok([])
    else
      match OpenForSizing(names[0], images, prev)
      case Err(e) => Err(e)
      case Ok(im) =>
        Then([Registration(EffectiveSize(s, im), names[0])], Collect(names[1..], images, s, Some(im)))
  }

  /**
   * A successful collection registers one rectangle per listed file, in
   * listing order and named after it; with normalisation every registered
   * height is the tile height.  A first file that is not a .jpg finds no
   * image to reuse.
   */
  lemma {:induction false} CollectShape(names: seq<string>, images: map<string, Dims>, s: Scaling, prev: Option<Dims>)
    ensures Collect(names, images, s, prev).Ok? ==> |Collect(names, images, s, prev).value| == |names|
    ensures Collect(names, images, s, prev).Ok? ==>
      forall i :: 0 <= i < |names| ==> Collect(names, images, s, prev).value[i].id == names[i]
    ensures Collect(names, images, s, prev).Ok? && s.normalizeHeight ==>
      forall i :: 0 <= i < |names| ==> Collect(names, images, s, prev).value[i].size.height == s.tileHeight
    ensures names != [] && !IsJpg(names[0]) && prev.None? ==> Collect(names, images, s, prev) == Err(NoImageYet(names[0]))
    decreases |names|
  {
    if names != [] && OpenForSizing(names[0], images, prev).Ok? {
      var im := OpenForSizing(names[0], images, prev).value;
      var rest := names[1..];
      CollectShape(rest, images, s, Some(im));
      assert forall i :: 0 <= i < |rest| ==> rest[i] == names[i + 1];
    }
  }

  /** The sizes `getSizes` returns: the registered pairs, without their ids. */
  function SizesOf(regs: seq<Registration>): seq<Size>
  {
    seq(|regs|, i requires 0 <= i < |regs| => regs[i].size)
  }

  /** Registering one more pair appends its size. */
  lemma SizesOfAppend(regs: seq<Registration>, reg: Registration)
    ensures SizesOf(regs + [reg]) == SizesOf(regs) + [reg.size]
  {
    assert forall i :: 0 <= i < |regs| ==> SizesOf(regs + [reg])[i] == SizesOf(regs)[i];
  }

  /**
   * A completed collection pairs each listed file, in order, with the size
   * returned for it.
   */
  lemma SizesOfCollected(names: seq<string>, images: map<string, Dims>, s: Scaling, regs: seq<Registration>)
    requires Collect(names, images, s, None) == Ok(regs)
    ensures |SizesOf(regs)| == |regs| == |names|
    ensures forall i :: 0 <= i < |names| ==> regs[i] == Registration(SizesOf(regs)[i], names[i])
  {
    CollectShape(names, images, s, None);
  }

  /**
   * When every listed file is a .jpg, nothing is reused: collection fails
   * exactly when some file cannot be opened, and otherwise each file is
   * registered at its own effective size.
   */
  lemma {:induction false} CollectAllJpg(names: seq<string>, images: map<string, Dims>, s: Scaling, prev: Option<Dims>)
    requires forall i :: 0 <= i < |names| ==> IsJpg(names[i])
    ensures Collect(names, images, s, prev).Ok? <==> forall i :: 0 <= i < |names| ==> names[i] in images
    ensures Collect(names, images, s, prev).Ok? ==>
      |Collect(names, images, s, prev).value| == |names| &&
      forall i :: 0 <= i < |names| ==> Collect(names, images, s, prev).value[i].size == EffectiveSize(s, images[names[i]])
    decreases |names|
  {
    if names != [] {
      var rest := names[1..];
      assert forall i :: 0 <= i < |rest| ==> rest[i] == names[i + 1];
      if names[0] in images {
        CollectAllJpg(rest, images, s, Some(images[names[0]]));
      }
    }
  }

  /**
   * Collection succeeds exactly when the first file has an image to be
   * sized by (it is a .jpg, or an image is left over) and every .jpg in the
   * listing opens; a name that is not a .jpg never fails once an image has
   * been opened.
   */
  lemma {:induction false} CollectSucceeds(names: seq<string>, images: map<string, Dims>, s: Scaling, prev: Option<Dims>)
    ensures Collect(names, images, s, prev).Ok? <==>
      names == [] ||
      ((IsJpg(names[0]) || prev.Some?) &&
       forall i :: 0 <= i < |names| && IsJpg(names[i]) ==> names[i] in images)
    decreases |names|
  {
    if names != [] {
      var rest := names[1..];
      assert forall i :: 0 <= i < |rest| ==> rest[i] == names[i + 1];
      match OpenForSizing(names[0], images, prev)
      case Err(_) =>
      case Ok(im) =>
        CollectSucceeds(rest, images, s, Some(im));
    }
  }

  /**
   * A file that is not a .jpg is registered at the same size as the file
   * before it: the source reuses the previous image.
   */
  lemma {:induction false} CollectReusesPrevious(names: seq<string>, images: map<string, Dims>, s: Scaling, prev: Option<Dims>, k: nat)
    requires Collect(names, images, s, prev).Ok?
    requires 0 < k < |names| && !IsJpg(names[k])
    ensures |Collect(names, images, s, prev).value| == |names|
    ensures Collect(names, images, s, prev).value[k].size == Collect(names, images, s, prev).value[k - 1].size
    decreases |names|
  {
    CollectShape(names, images, s, prev);
    var im := OpenForSizing(names[0], images, prev).value;
    var rest := names[1..];
    assert rest[k - 1] == names[k];
    if k > 1 {
      CollectReusesPrevious(rest, images, s, Some(im), k - 1);
    } else {
      assert OpenForSizing(rest[0], images, Some(im)) == Ok(im);
    }
  }

  /** One step of collection: the file at index i, opened as d, is registered ahead of the rest. */
  lemma CollectStep(names: seq<string>, i: nat, images: map<string, Dims>, s: Scaling, prev: Option<Dims>, d: Dims)
    requires i < |names| && OpenForSizing(names[i], images, prev) == Ok(d)
    ensures Collect(names[i..], images, s, prev)
         == Then([Registration(EffectiveSize(s, d), names[i])], Collect(names[i + 1..], images, s, Some(d)))
  {
    assert names[i..][1..] == names[i + 1..];
  }

  /** After the last file: the collection is exactly the registrations made. */
  lemma SizesDone(names: seq<string>, images: map<string, Dims>, s: Scaling,
                  prev: Option<Dims>, regs: seq<Registration>)
    requires Collect(names, images, s, None) == Then(regs, Collect(names[|names|..], images, s, prev))
    ensures Collect(names, images, s, None) == Ok(regs)
  {
    assert names[|names|..] == [];
    assert regs + [] == regs;
  }

  /** The iteration at i raises: the whole collection raises the same error. */
  lemma SizesStop(names: seq<string>, i: nat, images: map<string, Dims>, s: Scaling,
                  prev: Option<Dims>, regs: seq<Registration>)
    requires i < |names| && OpenForSizing(names[i], images, prev).Err?
    requires Collect(names, images, s, None) == Then(regs, Collect(names[i..], images, s, prev))
    ensures Collect(names, images, s, None) == Err(OpenForSizing(names[i], images, prev).error)
  {
    assert names[i..][0] == names[i];
  }

  /**
   * One iteration of `getSizes`: once the file at i has opened as d and its
   * factor f is known, the registrations so far, extended by the file's
   * scaled size, prefix what is left.
   */
  lemma SizesStep(names: seq<string>, i: nat, images: map<string, Dims>, s: Scaling,
                  prev: Option<Dims>, d: Dims, f: real, regs: seq<Registration>)
    requires i < |names| && OpenForSizing(names[i], images, prev) == Ok(d) && f == Factor(s, d)
    requires Collect(names, images, s, None) == Then(regs, Collect(names[i..], images, s, prev))
    ensures Collect(names, images, s, None)
         == Then(regs + [Registration(Size(Scale(d.width, f), Scale(d.height, f)), names[i])],
                 Collect(names[i + 1..], images, s, Some(d)))
  {
    CollectStep(names, i, images, s, prev, d);
    EffectiveSizeByFactor(s, d, f);
    ThenThen(regs, [Registration(EffectiveSize(s, d), names[i])], Collect(names[i + 1..], images, s, Some(d)));
  }

  /**
   * `getSizes`: walks the listing, registers each file's effective size with
   * the packer and returns the same sizes in the same order.
   */
  method GetSizes(folder: Folder, s: Scaling, packer: Packer) returns (r: Result<seq<Size>>)
    modifies packer
    ensures packer.bins == old(packer.bins) && packer.placed == old(packer.placed)
    ensures r.Ok? <==> Collect(folder.listing, folder.images, s, None).Ok?
    ensures r.Err? ==> Collect(folder.listing, folder.images, s, None) == Err(r.error)
    ensures r.Ok? ==> packer.rects == old(packer.rects) + Collect(folder.listing, folder.images, s, None).value
    ensures r.Ok? ==> r.value == SizesOf(Collect(folder.listing, folder.images, s, None).value)
    // the pair appended to the list is the pair given to add_rect, in listing order
    ensures r.Ok? ==> |r.value| == |folder.listing|
    ensures r.Ok? ==> forall i :: 0 <= i < |r.value| ==>
                        packer.rects[|old(packer.rects)| + i] == Registration(r.value[i], folder.listing[i])
  {
    var sizes: seq<Size> := [];
    var im: Option<Dims> := None;
    var scaleFactor := s.scaleFactor;
    ghost var regs: seq<Registration> := [];
    assert folder.listing[0..] == folder.listing;
    ThenNil(Collect(folder.listing, folder.images, s, None));
    assert SizesOf(regs) == [];
    for i := 0 to |folder.listing|
      invariant packer.bins == old(packer.bins) && packer.placed == old(packer.placed)
      invariant packer.rects == old(packer.rects) + regs
      invariant |regs| == i && sizes == SizesOf(regs)
      invariant !s.normalizeHeight ==> scaleFactor == s.scaleFactor
      invariant Collect(folder.listing, folder.images, s, None) == Then(regs, Collect(folder.listing[i..], folder.images, s, im))
    {
      var file := folder.listing[i];
      ghost var prev := im;
      if IsJpg(file) {
        if file !in folder.images {
          SizesStop(folder.listing, i, folder.images, s, prev, regs);
          return Err(Unreadable(file));
        }
        im := Some(folder.images[file]);
      } else if im.None? {
        // the message is printed, then `im.size` fails on the unbound name
        SizesStop(folder.listing, i, folder.images, s, prev, regs);
        return Err(NoImageYet(file));
      }
      var d := im.value;
      if s.normalizeHeight {
        scaleFactor := s.tileHeight as real / d.height as real;
      }
      assert scaleFactor == Factor(s, d);
      SizesStep(folder.listing, i, folder.images, s, prev, d, scaleFactor, regs);
      var size := Size(Scale(d.width, scaleFactor), Scale(d.height, scaleFactor));
      packer.AddRect(size, file);
      sizes := sizes + [size];
      SizesOfAppend(regs, Registration(size, file));
      regs := regs + [Registration(size, file)];
    }
    SizesDone(folder.listing, folder.images, s, im, regs);
    SizesOfCollected(folder.listing, folder.images, s, regs);
    return Ok(sizes);
  }
}
