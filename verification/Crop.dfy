// The square crop of a profile picture, over the reals, rounding made explicit. The picture lies under a
// square window; the part that shows, counted in whole pixels of the picture, is what is uploaded.
module Crop {

  function Min(a: real, b: real): real {
    if a <= b then a else b
  }

  function Max(a: real, b: real): real {
    if a >= b then a else b
  }

  // Math.round: to the nearest integer, halves up.
  function Round(x: real): int {
    (x + 0.5).Floor
  }

  datatype Picture = Picture(w: int, h: int, view: real)

  ghost predicate Shown(p: Picture) {
    p.w >= 1 && p.h >= 1 && p.view > 0.0
  }

  function Short(p: Picture): int {
    if p.w <= p.h then p.w else p.h
  }

  function BaseScale(p: Picture): real
    requires Shown(p)
  {
    p.view / Short(p) as real
  }

  function Scale(p: Picture, zoom: real): real
    requires Shown(p)
  {
    BaseScale(p) * zoom
  }

  // How long `n` pixels are at a scale.
  function Scaled(n: int, s: real): real {
    n as real * s
  }

  datatype Offset = Offset(x: real, y: real)

  // One axis of the clamp: `size` is how long the picture is on screen.
  function Clamp(view: real, size: real, x: real): real {
    Min(0.0, Max(view - size, x))
  }

  function ClampOffset(p: Picture, zoom: real, at: Offset): Offset
    requires Shown(p)
  {
    var s := Scale(p, zoom);
    Offset(Clamp(p.view, Scaled(p.w, s), at.x), Clamp(p.view, Scaled(p.h, s), at.y))
  }

  function Centred(p: Picture, zoom: real): Offset
    requires Shown(p)
  {
    var s := Scale(p, zoom);
    ClampOffset(p, zoom, Offset((p.view - Scaled(p.w, s)) / 2.0, (p.view - Scaled(p.h, s)) / 2.0))
  }

  // The picture's point under the middle of the view, on one axis.
  function Middle(view: real, s: real, x: real): real
    requires s != 0.0
  {
    (view / 2.0 - x) / s
  }

  // Where the picture sits when its point `c` is under the middle.
  function PlacedAt(view: real, s: real, c: real): real {
    view / 2.0 - c * s
  }

  function Rezoom(p: Picture, from: real, to: real, at: Offset): Offset
    requires Shown(p) && from > 0.0
  {
    ScaleFacts(p, from);
    var s0, s1 := Scale(p, from), Scale(p, to);
    var cx, cy := Middle(p.view, s0, at.x), Middle(p.view, s0, at.y);
    ClampOffset(p, to, Offset(PlacedAt(p.view, s1, cx), PlacedAt(p.view, s1, cy)))
  }

  // ---- scale ---------------------------------------------------------------------------------------------

  lemma MulMono(a: real, b: real, c: real)
    requires a <= b && 0.0 <= c
    ensures a * c <= b * c
  {
  }

  lemma DivMul(a: real, b: real)
    requires b != 0.0
    ensures a / b * b == a
  {
  }

  lemma ScaleFacts(p: Picture, zoom: real)
    requires Shown(p) && zoom > 0.0
    ensures Scale(p, zoom) > 0.0 && Short(p) as real * Scale(p, zoom) == p.view * zoom
  {
    var n := Short(p) as real;
    var b := BaseScale(p);
    DivMul(p.view, n);
    assert b > 0.0;
    assert n * (b * zoom) == (b * n) * zoom;
    assert b * zoom > 0.0;
  }

  // At zoom one and more the picture is at least as long as the view.
  lemma LongEnough(p: Picture, zoom: real)
    requires Shown(p) && zoom >= 1.0
    ensures Scaled(p.w, Scale(p, zoom)) >= p.view && Scaled(p.h, Scale(p, zoom)) >= p.view
  {
    ScaleFacts(p, zoom);
    var s, n := Scale(p, zoom), Short(p) as real;
    MulMono(1.0, zoom, p.view);
    assert n * s >= p.view;
    MulMono(n, p.w as real, s);
    MulMono(n, p.h as real, s);
  }

  // ---- the view is covered ---------------------------------------------------------------------------------

  predicate CoversAxis(view: real, size: real, x: real) {
    x <= 0.0 && x + size >= view
  }

  ghost predicate Covers(p: Picture, zoom: real, at: Offset)
    requires Shown(p)
  {
    CoversAxis(p.view, Scaled(p.w, Scale(p, zoom)), at.x) && CoversAxis(p.view, Scaled(p.h, Scale(p, zoom)), at.y)
  }

  function Distance(a: real, b: real): real {
    if a <= b then b - a else a - b
  }

  // Clamping covers the view, moves the picture no further than any other covering place would, and
  // so leaves it alone exactly when it covered the view already.
  lemma ClampCovers(p: Picture, zoom: real, at: Offset)
    requires Shown(p) && zoom >= 1.0
    ensures Covers(p, zoom, ClampOffset(p, zoom, at))
    ensures forall o :: Covers(p, zoom, o) ==>
              && Distance(ClampOffset(p, zoom, at).x, at.x) <= Distance(o.x, at.x)
              && Distance(ClampOffset(p, zoom, at).y, at.y) <= Distance(o.y, at.y)
    ensures ClampOffset(p, zoom, at) == at <==> Covers(p, zoom, at)
  {
    LongEnough(p, zoom);
    hide Scale, Scaled;
  }

  // Centring needs no clamping, and puts the picture's middle under the view's.
  lemma CentredIsCentred(p: Picture, zoom: real)
    requires Shown(p) && zoom >= 1.0
    ensures Scale(p, zoom) > 0.0 && Covers(p, zoom, Centred(p, zoom))
    ensures Middle(p.view, Scale(p, zoom), Centred(p, zoom).x) == p.w as real / 2.0
    ensures Middle(p.view, Scale(p, zoom), Centred(p, zoom).y) == p.h as real / 2.0
  {
    LongEnough(p, zoom);
    ScaleFacts(p, zoom);
    hide Scale, Scaled, Middle;
    var s := Scale(p, zoom);
    CentredAxis(p.view, p.w, s);
    CentredAxis(p.view, p.h, s);
  }

  lemma CentredAxis(view: real, n: int, s: real)
    requires s > 0.0
    ensures Middle(view, s, (view - Scaled(n, s)) / 2.0) == n as real / 2.0
  {
    MiddleIs(view, s, (view - Scaled(n, s)) / 2.0, n as real / 2.0);
  }

  lemma Quotient(q: real, s: real)
    requires s != 0.0
    ensures q * s / s == q
  {
  }

  // ---- zooming ------------------------------------------------------------------------------------------------

  // Where the middle may be for the view to be covered, on one axis of `n` pixels.
  predicate MiddleFits(view: real, n: int, s: real, c: real) {
    c * s >= view / 2.0 && (n as real - c) * s >= view / 2.0
  }

  lemma FitsExactlyWhen(view: real, n: int, s: real, c: real)
    ensures CoversAxis(view, Scaled(n, s), PlacedAt(view, s, c)) <==> MiddleFits(view, n, s, c)
  {
    assert (n as real - c) * s == n as real * s - c * s;
  }

  lemma MiddleIs(view: real, s: real, x: real, c: real)
    requires s > 0.0
    ensures Middle(view, s, x) == c <==> x == PlacedAt(view, s, c)
  {
    DivMul(view / 2.0 - x, s);
    Quotient(c, s);
  }

  // Zooming keeps the point in the middle exactly when the view stays covered around it.
  lemma RezoomKeepsMiddleExactlyWhen(p: Picture, from: real, to: real, at: Offset)
    requires Shown(p) && from >= 1.0 && to >= 1.0
    ensures Scale(p, from) > 0.0 && Scale(p, to) > 0.0 && Covers(p, to, Rezoom(p, from, to, at))
    ensures var cx, r := Middle(p.view, Scale(p, from), at.x), Rezoom(p, from, to, at);
            Middle(p.view, Scale(p, to), r.x) == cx <==> MiddleFits(p.view, p.w, Scale(p, to), cx)
    ensures var cy, r := Middle(p.view, Scale(p, from), at.y), Rezoom(p, from, to, at);
            Middle(p.view, Scale(p, to), r.y) == cy <==> MiddleFits(p.view, p.h, Scale(p, to), cy)
  {
    ScaleFacts(p, from);
    ScaleFacts(p, to);
    LongEnough(p, to);
    hide Scale, MiddleFits, Middle, Scaled, PlacedAt;
    var s0, s1 := Scale(p, from), Scale(p, to);
    var cx, cy := Middle(p.view, s0, at.x), Middle(p.view, s0, at.y);
    FitsExactlyWhen(p.view, p.w, s1, cx);
    FitsExactlyWhen(p.view, p.h, s1, cy);
    MiddleIs(p.view, s1, Rezoom(p, from, to, at).x, cx);
    MiddleIs(p.view, s1, Rezoom(p, from, to, at).y, cy);
  }

  lemma ScaleGrows(p: Picture, from: real, to: real)
    requires Shown(p) && 1.0 <= from <= to
    ensures 0.0 < Scale(p, from) <= Scale(p, to)
  {
    ScaleFacts(p, from);
    ScaleFacts(p, 1.0);
    MulMono(from, to, BaseScale(p));
  }

  lemma CoveredMiddleFits(view: real, n: int, s0: real, s1: real, x: real)
    requires 0.0 < s0 <= s1 && view > 0.0 && CoversAxis(view, Scaled(n, s0), x)
    ensures MiddleFits(view, n, s1, Middle(view, s0, x))
  {
    var c := Middle(view, s0, x);
    DivMul(view / 2.0 - x, s0);
    assert c * s0 == view / 2.0 - x >= view / 2.0;
    assert (n as real - c) * s0 == n as real * s0 - c * s0 >= view / 2.0;
    Positive(c, s0);
    Positive(n as real - c, s0);
    MulMono(s0, s1, c);
    MulMono(s0, s1, n as real - c);
  }

  lemma Positive(a: real, s: real)
    requires s > 0.0 && a * s > 0.0
    ensures a > 0.0
  {
    if a <= 0.0 {
      MulMono(a, 0.0, s);
    }
  }

  // Zooming in from a covered view never needs the clamp, so it keeps the middle where it is.
  lemma ZoomingInKeepsMiddle(p: Picture, from: real, to: real, at: Offset)
    requires Shown(p) && 1.0 <= from <= to && Covers(p, from, at)
    ensures Scale(p, from) > 0.0 && Scale(p, to) > 0.0
    ensures Middle(p.view, Scale(p, to), Rezoom(p, from, to, at).x) == Middle(p.view, Scale(p, from), at.x)
    ensures Middle(p.view, Scale(p, to), Rezoom(p, from, to, at).y) == Middle(p.view, Scale(p, from), at.y)
  {
    ScaleGrows(p, from, to);
    hide Scale, MiddleFits, Middle, Rezoom, CoversAxis;
    CoveredMiddleFits(p.view, p.w, Scale(p, from), Scale(p, to), at.x);
    CoveredMiddleFits(p.view, p.h, Scale(p, from), Scale(p, to), at.y);
    RezoomKeepsMiddleExactlyWhen(p, from, to, at);
  }

  // ---- the dialog ------------------------------------------------------------------------------------------------

  const MAX_ZOOM := 4.0

  datatype Move = Drag(dx: real, dy: real) | Zoom(to: real)

  datatype Dialog = Dialog(zoom: real, at: Offset)

  function Moved(p: Picture, d: Dialog, m: Move): Dialog
    requires Shown(p) && d.zoom > 0.0
  {
    match m
    case Drag(dx, dy) => d.(at := ClampOffset(p, d.zoom, Offset(d.at.x + dx, d.at.y + dy)))
    case Zoom(to) =>
      var next := Min(MAX_ZOOM, Max(1.0, to));
      Dialog(next, Rezoom(p, d.zoom, next, d.at))
  }

  ghost predicate InView(p: Picture, d: Dialog) {
    Shown(p) && 1.0 <= d.zoom <= MAX_ZOOM && Covers(p, d.zoom, d.at)
  }

  lemma MoveKeepsInView(p: Picture, d: Dialog, m: Move)
    requires InView(p, d)
    ensures InView(p, Moved(p, d, m))
  {
    match m
    case Drag(dx, dy) => ClampCovers(p, d.zoom, Offset(d.at.x + dx, d.at.y + dy));
    case Zoom(to) => RezoomKeepsMiddleExactlyWhen(p, d.zoom, Min(MAX_ZOOM, Max(1.0, to)), d.at);
  }

  ghost function Played(p: Picture, moves: seq<Move>): (d: Dialog)
    requires Shown(p)
    ensures InView(p, d)
  {
    if moves == [] then CentredIsCentred(p, 1.0); Dialog(1.0, Centred(p, 1.0))
    else
      MoveKeepsInView(p, Played(p, moves[..|moves| - 1]), moves[|moves| - 1]);
      Moved(p, Played(p, moves[..|moves| - 1]), moves[|moves| - 1])
  }

  // ---- whole pixels ------------------------------------------------------------------------------------------------

  datatype Rect = Rect(x: int, y: int, size: int)

  function AtMost(a: int, b: int): int {
    if a <= b then a else b
  }

  function AtLeast(a: int, b: int): int {
    if a >= b then a else b
  }

  // A square's side, and its place along an axis of `n` pixels.
  function Side(w: int, h: int, exact: real): int {
    AtLeast(1, AtMost(AtMost(w, h), Round(exact)))
  }

  function Place(n: int, size: int, exact: real): int {
    AtLeast(0, AtMost(n - size, Round(exact)))
  }

  function CropRect(p: Picture, zoom: real, at: Offset): Rect
    requires Shown(p) && zoom > 0.0
  {
    ScaleFacts(p, zoom);
    var o, s := ClampOffset(p, zoom, at), Scale(p, zoom);
    var size := Side(p.w, p.h, p.view / s);
    Rect(Place(p.w, size, -o.x / s), Place(p.h, size, -o.y / s), size)
  }

  function ScaleRect(r: Rect, factor: real, w: int, h: int): Rect {
    var size := Side(w, h, Scaled(r.size, factor));
    Rect(Place(w, size, Scaled(r.x, factor)), Place(h, size, Scaled(r.y, factor)), size)
  }

  predicate Inside(r: Rect, w: int, h: int) {
    r.size >= 1 && 0 <= r.x && r.x + r.size <= w && 0 <= r.y && r.y + r.size <= h
  }

  // Rounding to whole pixels stays inside, whatever the exact square was.
  lemma RoundedInside(w: int, h: int, exact: real, x: real, y: real)
    requires w >= 1 && h >= 1
    ensures var size := Side(w, h, exact);
            Inside(Rect(Place(w, size, x), Place(h, size, y), size), w, h)
  {
  }

  lemma RoundIsNear(x: real)
    ensures Distance(Round(x) as real, x) <= 0.5
  {
  }

  // A side that fits into `n` pixels, perhaps rounded, is off by half a pixel; only a side that would
  // round to nothing is off by more, and then it is one pixel.
  lemma SideIsNear(w: int, h: int, exact: real)
    requires w >= 1 && h >= 1 && exact <= w as real + 0.5 && exact <= h as real + 0.5
    ensures exact >= 0.5 ==> Distance(Side(w, h, exact) as real, exact) <= 0.5
    ensures exact < 0.5 ==> Side(w, h, exact) == 1
  {
  }

  lemma PlaceIsNear(n: int, size: int, length: real, exact: real, slack: real)
    requires 1 <= size <= n && 0.0 <= exact && exact + length <= n as real + slack && slack >= 0.0
    ensures var off := size as real - length + slack;
            Distance(Place(n, size, exact) as real, exact) <= Max(0.5, off)
  {
    RoundIsNear(exact);
  }

  lemma VisibleSide(p: Picture, zoom: real)
    requires Shown(p) && zoom >= 1.0
    ensures Scale(p, zoom) > 0.0 && 0.0 < p.view / Scale(p, zoom) <= Short(p) as real
  {
    ScaleFacts(p, zoom);
    var s, n := Scale(p, zoom), Short(p) as real;
    MulMono(1.0, zoom, p.view);
    DivMul(p.view, s);
    Cancel(p.view / s, n, s);
    Positive(p.view / s, s);
  }

  lemma Cancel(a: real, b: real, c: real)
    requires a * c <= b * c && c > 0.0
    ensures a <= b
  {
  }

  lemma VisiblePlace(view: real, n: int, s: real, x: real)
    requires s > 0.0 && CoversAxis(view, Scaled(n, s), x)
    ensures 0.0 <= -x / s && -x / s + view / s <= n as real
  {
    DivMul(-x, s);
    DivMul(view, s);
    var e, l := -x / s, view / s;
    assert (e + l) * s == view - x;
    Cancel(0.0, e, s);
    Cancel(e + l, n as real, s);
  }

  // What the server gets is a square of whole pixels inside the picture. Its side and its place are
  // within half a pixel of what is visible, unless less than half a pixel is visible; then it is one
  // pixel, and still less than one pixel off.
  lemma CropIsNear(p: Picture, zoom: real, at: Offset)
    requires Shown(p) && zoom >= 1.0
    ensures Scale(p, zoom) > 0.0 && Inside(CropRect(p, zoom, at), p.w, p.h)
    ensures var s, r, o := Scale(p, zoom), CropRect(p, zoom, at), ClampOffset(p, zoom, at);
            var off := if p.view / s >= 0.5 then 0.5 else 1.0 - p.view / s;
            && off < 1.0
            && Distance(r.size as real, p.view / s) <= off
            && Distance(r.x as real, -o.x / s) <= off && Distance(r.y as real, -o.y / s) <= off
  {
    hide Scale, Scaled, Side, Place, ClampOffset, CoversAxis, Distance;
    VisibleSide(p, zoom);
    ClampCovers(p, zoom, at);
    var s, o := Scale(p, zoom), ClampOffset(p, zoom, at);
    VisiblePlace(p.view, p.w, s, o.x);
    VisiblePlace(p.view, p.h, s, o.y);
    RoundedNear(p.w, p.h, p.view / s, -o.x / s, -o.y / s);
  }

  // A square that lies inside the picture, rounded.
  lemma RoundedNear(w: int, h: int, exact: real, x: real, y: real)
    requires w >= 1 && h >= 1 && 0.0 < exact && 0.0 <= x && 0.0 <= y && x + exact <= w as real && y + exact <= h as real
    ensures var size := Side(w, h, exact);
            var off := if exact >= 0.5 then 0.5 else 1.0 - exact;
            && Inside(Rect(Place(w, size, x), Place(h, size, y), size), w, h) && Distance(size as real, exact) <= off
            && Distance(Place(w, size, x) as real, x) <= off && Distance(Place(h, size, y) as real, y) <= off
  {
    RoundedInside(w, h, exact, x, y);
    SideIsNear(w, h, exact);
    var size := Side(w, h, exact);
    PlaceIsNear(w, size, exact, x, 0.0);
    PlaceIsNear(h, size, exact, y, 0.0);
    hide Side, Place;
  }

  // A picture scaled down by a factor, in whole pixels.
  predicate ScaledTo(n: int, factor: real, m: int) {
    m == AtLeast(1, Round(Scaled(n, factor)))
  }

  // The square moved onto the smaller picture stays inside it, and is off by at most one pixel where
  // at least half a pixel of it is left.
  lemma ScaledIsNear(r: Rect, factor: real, w0: int, h0: int, w: int, h: int)
    requires Inside(r, w0, h0) && 0.0 < factor <= 1.0 && ScaledTo(w0, factor, w) && ScaledTo(h0, factor, h)
    ensures Inside(ScaleRect(r, factor, w, h), w, h)
    ensures Scaled(r.size, factor) >= 0.5 ==>
              var t := ScaleRect(r, factor, w, h);
              && Distance(t.size as real, Scaled(r.size, factor)) <= 0.5
              && Distance(t.x as real, Scaled(r.x, factor)) <= 1.0 && Distance(t.y as real, Scaled(r.y, factor)) <= 1.0
  {
    var exact, x, y := Scaled(r.size, factor), Scaled(r.x, factor), Scaled(r.y, factor);
    RoundedInside(w, h, exact, x, y);
    ScaledAxis(r.x, r.size, w0, factor, w);
    ScaledAxis(r.y, r.size, h0, factor, h);
    hide Side, Place, Round, ScaledTo, Scaled;
    if exact >= 0.5 {
      SideIsNear(w, h, exact);
      var size := Side(w, h, exact);
      PlaceIsNear(w, size, exact, x, 0.5);
      PlaceIsNear(h, size, exact, y, 0.5);
    }
  }

  lemma ScaledAxis(x: int, size: int, n: int, factor: real, m: int)
    requires 0 <= x && 1 <= size && x + size <= n && 0.0 < factor <= 1.0 && ScaledTo(n, factor, m)
    ensures m >= 1 && 0.0 <= Scaled(x, factor) && Scaled(size, factor) <= m as real + 0.5
    ensures Scaled(x, factor) + Scaled(size, factor) <= m as real + 0.5
  {
    RoundIsNear(Scaled(n, factor));
    MulMono(0.0, x as real, factor);
    MulMono((x + size) as real, n as real, factor);
    assert (x + size) as real * factor == x as real * factor + size as real * factor;
  }
}
