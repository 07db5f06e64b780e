/** Plain geometry values of src/geometry.rs, in their integer (`i32`) instantiation. The
    constructors and projections only copy fields, so the model states how they relate. */
module Geometry {
  datatype Point = Point(x: int, y: int)
  datatype Size = Size(w: int, h: int)
  datatype Rect = Rect(x: int, y: int, w: int, h: int)
  datatype Margins = Margins(l: int, r: int, t: int, b: int)

  /** `Point::new`. */
  function NewPoint(x: int, y: int): (p: Point)
    ensures p.x == x && p.y == y
  {
    Point(x, y)
  }

  /** `Size::new`. */
  function NewSize(w: int, h: int): (s: Size)
    ensures s.w == w && s.h == h
  {
    Size(w, h)
  }

  /** `Rect::new`. */
  function NewRect(x: int, y: int, w: int, h: int): (r: Rect)
    ensures RectPoint(r) == Point(x, y) && RectSize(r) == Size(w, h)
  {
    Rect(x, y, w, h)
  }

  /** `Rect::new_s`: position given apart, size as a `Size`. */
  function NewRectS(x: int, y: int, size: Size): (r: Rect)
    ensures RectPoint(r) == Point(x, y) && RectSize(r) == size
  {
    Rect(x, y, size.w, size.h)
  }

  /** `Rect::new_p`: position as a `Point`, size given apart. */
  function NewRectP(point: Point, w: int, h: int): (r: Rect)
    ensures RectPoint(r) == point && RectSize(r) == Size(w, h)
  {
    Rect(point.x, point.y, w, h)
  }

  /** `Rect::new_ps`: position as a `Point`, size as a `Size`. */
  function NewRectPs(point: Point, size: Size): (r: Rect)
    ensures RectPoint(r) == point && RectSize(r) == size
  {
    Rect(point.x, point.y, size.w, size.h)
  }

  /** `Rect::point`: the top-left corner. */
  function RectPoint(r: Rect): (p: Point)
    ensures p.x == r.x && p.y == r.y
  {
    Point(r.x, r.y)
  }

  /** `Rect::size`: the extent. */
  function RectSize(r: Rect): (s: Size)
    ensures s.w == r.w && s.h == r.h
  {
    Size(r.w, r.h)
  }

  /** `Margins::new`. */
  function NewMargins(l: int, r: int, t: int, b: int): (m: Margins)
    ensures m.l == l && m.r == r && m.t == t && m.b == b
  {
    Margins(l, r, t, b)
  }

  /** A rectangle is rebuilt from its corner and its extent. */
  lemma RectRoundTrip(r: Rect)
    ensures NewRectPs(RectPoint(r), RectSize(r)) == r
  {
  }

  /** The corner and the extent of a rectangle built from them are the ones given. */
  lemma RectProjections(p: Point, s: Size)
    ensures RectPoint(NewRectPs(p, s)) == p && RectSize(NewRectPs(p, s)) == s
  {
  }

  /** The four rectangle constructors agree. */
  lemma RectConstructorsAgree(x: int, y: int, w: int, h: int)
    ensures NewRectS(x, y, NewSize(w, h)) == NewRect(x, y, w, h)
    ensures NewRectP(NewPoint(x, y), w, h) == NewRect(x, y, w, h)
    ensures NewRectPs(NewPoint(x, y), NewSize(w, h)) == NewRect(x, y, w, h)
    ensures RectPoint(NewRect(x, y, w, h)) == NewPoint(x, y)
    ensures RectSize(NewRect(x, y, w, h)) == NewSize(w, h)
  {
  }

  /** `Margins::new(l, r, t, b)` stores left, right, top and bottom in that order. */
  lemma MarginsFields(l: int, r: int, t: int, b: int)
    ensures NewMargins(l, r, t, b).l == l && NewMargins(l, r, t, b).r == r
    ensures NewMargins(l, r, t, b).t == t && NewMargins(l, r, t, b).b == b
  {
  }
}
