/**
 * Box formats handled by the Grounded-SAM wrapper.
 *
 * A box is a four-vector of reals. The detector produces boxes in normalized centre form
 * [cx, cy, w, h] (each a fraction of the image size); the promptable segmenter expects
 * pixel corner form [x1, y1, x2, y2]. The wrapper converts with exact arithmetic, modelled
 * here over `real`.
 */
module Geometry {

  /** A box as the four numbers the source passes around; which format it is in depends on the caller. */
  datatype Box = Box(v0: real, v1: real, v2: real, v3: real)

  /** Normalized centre box [cx, cy, bw, bh] to pixel corners [x1, y1, x2, y2] on a w x h image. */
  function ToCorners(b: Box, w: real, h: real): (r: Box)
    ensures r.v2 - r.v0 == b.v2 * w && r.v3 - r.v1 == b.v3 * h
    ensures r.v0 + r.v2 == 2.0 * b.v0 * w && r.v1 + r.v3 == 2.0 * b.v1 * h
  {
    var cx, cy, bw, bh := b.v0, b.v1, b.v2, b.v3;
    Box((cx - bw / 2.0) * w, (cy - bh / 2.0) * h, (cx + bw / 2.0) * w, (cy + bh / 2.0) * h)
  }

  /** Pixel corners back to a normalized centre box; the inverse of ToCorners on a non-degenerate image. */
  function FromCorners(c: Box, w: real, h: real): (r: Box)
    requires w > 0.0 && h > 0.0
    ensures r.v2 * w == c.v2 - c.v0 && r.v3 * h == c.v3 - c.v1
  {
    Box((c.v0 + c.v2) / 2.0 / w, (c.v1 + c.v3) / 2.0 / h, (c.v2 - c.v0) / w, (c.v3 - c.v1) / h)
  }

  /** Converting to pixel corners and back recovers the normalized box exactly. */
  lemma CornersRoundTrip(b: Box, w: real, h: real)
    requires w > 0.0 && h > 0.0
    ensures FromCorners(ToCorners(b, w, h), w, h) == b
  {
    var c := ToCorners(b, w, h);
    var r := FromCorners(c, w, h);
    assert r.v0 == b.v0 by {
      assert (c.v0 + c.v2) / 2.0 == b.v0 * w;
    }
    assert r.v1 == b.v1 by {
      assert (c.v1 + c.v3) / 2.0 == b.v1 * h;
    }
  }

  /** Going the other way, pixel corners survive a trip through the normalized form. */
  lemma CentreRoundTrip(c: Box, w: real, h: real)
    requires w > 0.0 && h > 0.0
    ensures ToCorners(FromCorners(c, w, h), w, h) == c
  {
    var b := FromCorners(c, w, h);
    assert b.v0 * w == (c.v0 + c.v2) / 2.0;
    assert b.v1 * h == (c.v1 + c.v3) / 2.0;
  }

  /** A box with non-negative size on an image with non-negative dimensions has ordered corners. */
  lemma CornersOrdered(b: Box, w: real, h: real)
    requires b.v2 >= 0.0 && b.v3 >= 0.0 && w >= 0.0 && h >= 0.0
    ensures ToCorners(b, w, h).v0 <= ToCorners(b, w, h).v2
    ensures ToCorners(b, w, h).v1 <= ToCorners(b, w, h).v3
  {
    assert b.v2 * w >= 0.0;
    assert b.v3 * h >= 0.0;
  }

  /**
   * The centre box [0.5, 0.5, 0.2, 0.4] on a 400 x 300 image becomes the pixel box
   * [160, 90, 240, 210].
   */
  lemma FlagExample()
    ensures ToCorners(Box(0.5, 0.5, 0.2, 0.4), 400.0, 300.0) == Box(160.0, 90.0, 240.0, 210.0)
  {
  }
}
