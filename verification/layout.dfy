/**
 The two-block layout of the progress bar: the host rectangle is cut into a
 "lower" block, whose extent along the split axis is proportional to the
 filled fraction, and a "higher" block holding the remainder.
 Numbers are Dafny reals, an idealisation of JavaScript doubles.
 */
module Layout {

  /** Geometry of a 2D entity: position, size and stacking order. */
  datatype Rect = Rect(x: real, y: real, w: real, h: real, z: real)

  /** The axis along which the host is cut. */
  datatype Axis = Horizontal | Vertical

  /** The two blocks a layout produces, and the axis it cut along. */
  datatype Split = Split(axis: Axis, lower: Rect, higher: Rect)

  /** Size of a rectangle along an axis. */
  function Extent(r: Rect, a: Axis): real {
    match a
    case Horizontal => r.w
    case Vertical => r.h
  }

  /** Position of a rectangle along an axis. */
  function Start(r: Rect, a: Axis): real {
    match a
    case Horizontal => r.x
    case Vertical => r.y
  }

  /** An extent scaled by a fraction. */
  function Scale(v: real, f: real): real {
    v * f
  }

  /**
   The blocks tile the host along the split's axis: both keep the host's z, the lower block
   starts at the host's origin, the higher block starts where the lower one
   ends, the two extents along the axis add up to the host's, and across it both
   span the host exactly.
   */
  predicate Tiles(host: Rect, s: Split) {
    var a := s.axis;
    && s.lower.z == host.z && s.higher.z == host.z
    && s.lower.x == host.x && s.lower.y == host.y
    && Start(s.higher, a) == Start(s.lower, a) + Extent(s.lower, a)
    && Extent(s.lower, a) + Extent(s.higher, a) == Extent(host, a)
    && match a
       case Horizontal =>
         s.lower.h == host.h && s.higher.h == host.h && s.higher.y == host.y
       case Vertical =>
         s.lower.w == host.w && s.higher.w == host.w && s.higher.x == host.x
  }

  /**
   What the axis choice means: for a positive fraction the dominant
   dimension wins (width on ties); for a zero fraction the cut is always
   horizontal, whatever the host's shape.
   */
  lemma AxisChoice(host: Rect, f: real)
    ensures f > 0.0 ==> (Cut(host, f).axis == Horizontal <==> host.w >= host.h)
    ensures f == 0.0 ==> Cut(host, f).axis == Horizontal
  {}

  /** Cuts the host into the lower and the higher block for fraction `f`:
      the scaled width and height are computed first, and the cut is
      horizontal when the scaled width is at least the scaled height. */
  function Cut(host: Rect, f: real): Split {
    CutAt(host, Scale(host.w, f), Scale(host.h, f))
  }

  /** The cut for a given scaled width `bw` and scaled height `bh`. */
  function CutAt(host: Rect, bw: real, bh: real): Split {
    if bw >= bh then
      Split(Horizontal, Rect(host.x, host.y, bw, host.h, host.z),
            Rect(host.x + bw, host.y, host.w - bw, host.h, host.z))
    else
      Split(Vertical, Rect(host.x, host.y, host.w, bh, host.z),
            Rect(host.x, host.y + bh, host.w, host.h - bh, host.z))
  }

  /**
   Whatever the fraction, the two blocks tile the host along the chosen
   axis, and the lower block's extent along that axis is the host's extent
   scaled by the fraction.
   */
  lemma CutTiles(host: Rect, f: real)
    ensures var s := Cut(host, f);
      && Tiles(host, s)
      && Extent(s.lower, s.axis) == Scale(Extent(host, s.axis), f)
  {}

  /**
   With a fraction in [0, 1] and a host of non-negative size, neither block
   has a negative size and the lower block is no larger than the host.
   */
  lemma CutSizesNonNegative(host: Rect, f: real)
    requires 0.0 <= f <= 1.0
    requires host.w >= 0.0 && host.h >= 0.0
    ensures var s := Cut(host, f);
      && s.lower.w >= 0.0 && s.lower.h >= 0.0
      && s.higher.w >= 0.0 && s.higher.h >= 0.0
      && s.lower.w <= host.w && s.lower.h <= host.h
  {
    ScaleBetween(host.w, f);
    ScaleBetween(host.h, f);
    CutAtWithin(host, Scale(host.w, f), Scale(host.h, f));
  }

  /** The size bounds of a cut, with the scaled extents abstracted. */
  lemma CutAtWithin(host: Rect, bw: real, bh: real)
    requires 0.0 <= bw && bw <= host.w
    requires 0.0 <= bh && bh <= host.h
    ensures var s := CutAt(host, bw, bh);
      && s.lower.w >= 0.0 && s.lower.h >= 0.0
      && s.higher.w >= 0.0 && s.higher.h >= 0.0
      && s.lower.w <= host.w && s.lower.h <= host.h
  {}

  /** `Scale(v, f)` lies between 0 and `v` for non-negative `v` and `f` in [0, 1]. */
  lemma ScaleBetween(v: real, f: real)
    requires v >= 0.0 && 0.0 <= f <= 1.0
    ensures 0.0 <= Scale(v, f)
    ensures Scale(v, f) <= v
  {}

  /** The two degenerate cases: fraction 0 leaves the whole host to the
      higher block, fraction 1 gives the whole host to the lower block. */
  lemma CutEndpoints(host: Rect)
    ensures Cut(host, 0.0) == Split(Horizontal, Rect(host.x, host.y, 0.0, host.h, host.z), host)
    ensures host.w >= host.h ==>
      Cut(host, 1.0) == Split(Horizontal, host, Rect(host.x + host.w, host.y, 0.0, host.h, host.z))
    ensures host.w < host.h ==>
      Cut(host, 1.0) == Split(Vertical, host, Rect(host.x, host.y + host.h, host.w, 0.0, host.z))
  {}
}
