/** Colour assignment. The palette itself (a named colour map sampled at a fraction) belongs to the
    plotting library and stays symbolic: a colour is the pair of the scheme and the fraction it is
    sampled at. What the script computes itself is the fraction of each element and the order in
    which it sets colours and transparency on the drawn patches. */
module Palette {
  import opened Schema

  /** The five colour schemes offered to the user, in the order they are offered. */
  datatype Scheme = Viridis | Magma | Plasma | Inferno | Cividis

  /** A colour: the scheme's colour map sampled at a fraction. */
  datatype Colour = Sample(scheme: Scheme, at: real)

  /** The fixed fraction the line plot samples its single colour at. */
  const LINE_FRACTION: real := 0.6

  /** The transparency given to every box of a box plot. */
  const BOX_ALPHA: real := 0.7

  /** The fraction of element `i` among `n`: `i/n`. One fraction per element, starting at 0,
      inside [0, 1), strictly increasing and evenly spaced by `1/n`. */
  function Fractions(n: nat): (r: seq<real>)
    ensures |r| == n
    ensures n > 0 ==> r[0] == 0.0
    ensures forall i :: 0 <= i < n ==> 0.0 <= r[i] < 1.0
    ensures forall i, j :: 0 <= i < j < n ==> r[i] < r[j]
    ensures forall i :: 0 <= i < n - 1 ==> r[i + 1] - r[i] == 1.0 / n as real
  {
    var r := seq(n, i requires 0 <= i < n => i as real / n as real);
    forall i | 0 <= i < n ensures 0.0 <= r[i] < 1.0 {
      FractionBounds(i, n);
    }
    forall i, j | 0 <= i < j < n ensures r[i] < r[j] {
      FractionLess(i, j, n);
    }
    forall i | 0 <= i < n - 1 ensures r[i + 1] - r[i] == 1.0 / n as real {
      FractionStep(i, n);
    }
    r
  }

  lemma FractionBounds(i: nat, n: nat)
    requires i < n
    ensures 0.0 <= i as real / n as real < 1.0
  {
    var d := n as real;
    assert i as real / d * d == i as real;
  }

  lemma FractionLess(i: nat, j: nat, n: nat)
    requires i < j && 0 < n
    ensures i as real / n as real < j as real / n as real
  {
    var d := n as real;
    assert j as real / d - i as real / d == (j - i) as real / d;
    assert (j - i) as real / d * d == (j - i) as real;
  }

  lemma FractionStep(i: nat, n: nat)
    requires 0 < n
    ensures (i + 1) as real / n as real - i as real / n as real == 1.0 / n as real
  {
  }

  /** The colours of `n` elements painted along the scheme, element `i` at fraction `i/n`. */
  function Shades(scheme: Scheme, n: nat): (r: seq<Colour>)
    ensures |r| == n
    ensures forall i :: 0 <= i < n ==> r[i].Sample? && r[i].scheme == scheme && r[i].at == Fractions(n)[i]
  {
    var f := Fractions(n);
    seq(n, i requires 0 <= i < n => Sample(scheme, f[i]))
  }

  /** The drawing state of one bar, histogram patch or box that the script changes. `alpha` is
      `None` while the patch keeps the library's default opacity. */
  datatype PatchStyle = PatchStyle(face: Colour, edge: Colour, alpha: Option<real>)

  /** Bar colouring: `set_color` on bar `i` with the scheme sampled at `i/n`, which sets both
      its face and its edge colour. */
  method PaintBars(bars: array<PatchStyle>, scheme: Scheme)
    modifies bars
    ensures forall i :: 0 <= i < bars.Length ==>
      bars[i] == old(bars[i]).(face := Shades(scheme, bars.Length)[i], edge := Shades(scheme, bars.Length)[i])
  {
    var n := bars.Length;
    var shades := Shades(scheme, n);
    for i := 0 to n
      invariant forall k :: 0 <= k < i ==> bars[k] == old(bars[k]).(face := shades[k], edge := shades[k])
      invariant forall k :: i <= k < n ==> bars[k] == old(bars[k])
    {
      bars[i] := bars[i].(face := shades[i], edge := shades[i]);
    }
  }

  /** Histogram colouring: `set_facecolor` on patch `i` with the scheme sampled at `i/n`; the
      edge colour and opacity are left as they are. */
  method PaintPatches(patches: array<PatchStyle>, scheme: Scheme)
    modifies patches
    ensures forall i :: 0 <= i < patches.Length ==>
      patches[i] == old(patches[i]).(face := Shades(scheme, patches.Length)[i])
  {
    var n := patches.Length;
    var shades := Shades(scheme, n);
    for i := 0 to n
      invariant forall k :: 0 <= k < i ==> patches[k] == old(patches[k]).(face := shades[k])
      invariant forall k :: i <= k < n ==> patches[k] == old(patches[k])
    {
      patches[i] := patches[i].(face := shades[i]);
    }
  }

  /** Box colouring: walking boxes and colours together (as `zip` does, up to the shorter of
      the two), each box gets its colour as face colour and the transparency 0.7; boxes past
      the end of the colour list are left alone. */
  method ApplyBoxColours(boxes: array<PatchStyle>, colours: seq<Colour>)
    modifies boxes
    ensures forall i :: 0 <= i < boxes.Length && i < |colours| ==>
      boxes[i] == old(boxes[i]).(face := colours[i], alpha := Some(BOX_ALPHA))
    ensures forall i :: |colours| <= i < boxes.Length ==> boxes[i] == old(boxes[i])
  {
    var m := if boxes.Length < |colours| then boxes.Length else |colours|;
    for i := 0 to m
      invariant forall k :: 0 <= k < i ==> boxes[k] == old(boxes[k]).(face := colours[k], alpha := Some(BOX_ALPHA))
      invariant forall k :: i <= k < boxes.Length ==> boxes[k] == old(boxes[k])
    {
      boxes[i] := boxes[i].(face := colours[i], alpha := Some(BOX_ALPHA));
    }
  }

  /** Colouring the boxes with the script's colour list gives box `i` the scheme sampled at
      `i/n` and the transparency 0.7, for every box. */
  method PaintBoxes(boxes: array<PatchStyle>, scheme: Scheme)
    modifies boxes
    ensures forall i :: 0 <= i < boxes.Length ==>
      boxes[i] == old(boxes[i]).(face := Sample(scheme, Fractions(boxes.Length)[i]), alpha := Some(BOX_ALPHA))
  {
    var colours := Shades(scheme, boxes.Length);
    ApplyBoxColours(boxes, colours);
  }
}
