/** plot_line (Bresenham's algorithm with a single error term) and
    plot_line_thick, which draws the line again at every offset of a disc. */
module RasterLine {
  import opened Raster

  function IAbs(v: int): nat {
    if v < 0 then -v else v
  }

  /** A segment from (x0, y0) to (x1, y1). */
  datatype Seg = Seg(x0: int, y0: int, x1: int, y1: int) {
    /** dx = abs(x1 - x0); plot_line's dy is -B(). */
    function A(): nat { IAbs(x1 - x0) }
    function B(): nat { IAbs(y1 - y0) }
    function Sx(): int { if x0 < x1 then 1 else -1 }
    function Sy(): int { if y0 < y1 then 1 else -1 }
    /** The longer of the two extents. */
    function Major(): nat { if A() >= B() then A() else B() }
    function Shift(o: Point): Seg { Seg(x0 + o.0, y0 + o.1, x1 + o.0, y1 + o.1) }
  }

  /** plot_line's loop state, counted from (x0, y0): nx steps taken along
      x, ny along y, and the error term. */
  datatype Pen = Pen(nx: nat, ny: nat, err: int)

  function Start(l: Seg): Pen {
    Pen(0, 0, l.A() - l.B())
  }

  /** The pixel after n steps along each axis. */
  function PosX(l: Seg, n: int): int { if l.Sx() == 1 then l.x0 + n else l.x0 - n }
  function PosY(l: Seg, n: int): int { if l.Sy() == 1 then l.y0 + n else l.y0 - n }
  function Pos(l: Seg, p: Pen): Point { (PosX(l, p.nx), PosY(l, p.ny)) }

  /** The pixel (x0 + sx nx, y0 + sy ny) lies within half a pixel of the
      true line, measured along the shorter axis: |2 (A ny - B nx)| <= max(A, B). */
  predicate NearLine(l: Seg, nx: int, ny: int) {
    var d := l.A() * ny - l.B() * nx;
    -(l.Major() as int) <= 2 * d <= l.Major()
  }

  /** a * n as n additions of a; the loop adds A or B to its error term
      one step at a time. */
  function Times(a: nat, n: nat): int {
    if n == 0 then 0 else Times(a, n - 1) + a
  }

  lemma {:induction false} TimesIsProduct(a: nat, n: nat)
    ensures Times(a, n) == a * n
  {
    if n > 0 {
      TimesIsProduct(a, n - 1);
    }
  }

  /** The signed deviation A ny - B nx, kept by the error term. */
  function Dev(l: Seg, p: Pen): int {
    Times(l.A(), p.ny) - Times(l.B(), p.nx)
  }

  /** What holds of every state plot_line's loop reaches. */
  predicate Inv(l: Seg, p: Pen) {
    p.nx <= l.A() && p.ny <= l.B() &&
    p.err == l.A() - l.B() + Dev(l, p) &&
    -(l.Major() as int) <= 2 * Dev(l, p) <= l.Major()
  }

  predicate Done(l: Seg, p: Pen) {
    p.nx == l.A() && p.ny == l.B()
  }

  /** One pass of plot_line's loop body after the pixel is set. */
  function Step(l: Seg, p: Pen): Pen {
    var e2 := 2 * p.err;
    var dy := -(l.B() as int);
    var xs := e2 >= dy;
    var ys := e2 <= l.A();
    Pen(if xs then p.nx + 1 else p.nx,
        if ys then p.ny + 1 else p.ny,
        p.err + (if xs then dy else 0) + (if ys then l.A() else 0))
  }

  /** Steps still to take: the loop's termination measure. */
  function Left(l: Seg, p: Pen): int {
    (l.A() - p.nx) + (l.B() - p.ny)
  }

  /** Steps still to take along the longer axis. */
  function MajorLeft(l: Seg, p: Pen): int {
    if l.A() >= l.B() then l.A() - p.nx else l.B() - p.ny
  }

  lemma MulLe(a: int, b: int, c: int)
    requires a <= b && 0 <= c
    ensures a * c <= b * c
  {
    assert b * c - a * c == (b - a) * c;
  }

  /** At the end of x with y short of its end, A ny - B nx <= -A; at the
      end of y with x short of its end, A ny - B nx >= B. */
  lemma DevAtEnd(a: int, b: int, nx: int, ny: int)
    requires 0 <= nx <= a && 0 <= ny <= b
    ensures nx == a && ny < b ==> a * ny - b * nx <= -a
    ensures ny == b && nx < a ==> a * ny - b * nx >= b
  {
    if nx == a && ny < b {
      MulLe(ny - b, -1, a);
      assert a * ny - b * nx == (ny - b) * a;
    }
    if ny == b && nx < a {
      MulLe(1, a - nx, b);
      assert a * ny - b * nx == (a - nx) * b;
    }
  }

  /** Arrival at the end of one axis stops motion along it. */
  lemma NoOvershoot(l: Seg, p: Pen)
    requires Inv(l, p) && !Done(l, p)
    ensures p.nx == l.A() ==> 2 * p.err < -(l.B() as int)
    ensures p.ny == l.B() ==> 2 * p.err > l.A()
  {
    TimesIsProduct(l.A(), p.ny);
    TimesIsProduct(l.B(), p.nx);
    DevAtEnd(l.A(), l.B(), p.nx, p.ny);
  }

  /** A step never overshoots an end, always moves, moves one pixel at most
      along each axis, moves along the longer axis every time, and keeps the
      pixel within half a pixel of the line. */
  lemma StepKeeps(l: Seg, p: Pen)
    requires Inv(l, p) && !Done(l, p)
    ensures var q := Step(l, p);
      Inv(l, q) && 0 <= Left(l, q) < Left(l, p) && MajorLeft(l, q) == MajorLeft(l, p) - 1 &&
      p.nx <= q.nx <= p.nx + 1 && p.ny <= q.ny <= p.ny + 1
  {
    NoOvershoot(l, p);
  }

  /** The pixels plot_line sets from state p on, in order. */
  function Points(l: Seg, p: Pen): seq<Point>
    requires Inv(l, p)
    decreases Left(l, p)
  {
    if Done(l, p) then [Pos(l, p)]
    else
      StepKeeps(l, p);
      [Pos(l, p)] + Points(l, Step(l, p))
  }

  /** The pixels plot_line sets for the segment l. */
  function Line(l: Seg): seq<Point> {
    StartInv(l);
    Points(l, Start(l))
  }

  lemma StartInv(l: Seg)
    ensures Inv(l, Start(l))
  {
  }

  /** The far end is reached after A steps along x and B along y. */
  lemma EndPos(l: Seg)
    ensures PosX(l, l.A()) == l.x1 && PosY(l, l.B()) == l.y1
  {
  }

  /** b is one of the eight neighbours of a, or a itself. */
  predicate Adjacent(a: Point, b: Point) {
    IAbs(b.0 - a.0) <= 1 && IAbs(b.1 - a.1) <= 1
  }

  /** A step moves to a neighbouring pixel. */
  lemma StepAdjacent(l: Seg, p: Pen)
    requires Inv(l, p) && !Done(l, p)
    ensures Adjacent(Pos(l, p), Pos(l, Step(l, p)))
  {
    StepKeeps(l, p);
  }

  /** The pixel (x, y) lies inside the segment's bounding box and within
      half a pixel of the true line. */
  predicate OnLine(l: Seg, q: Point) {
    var nx, ny := IAbs(q.0 - l.x0), IAbs(q.1 - l.y0);
    nx <= l.A() && ny <= l.B() && NearLine(l, nx, ny)
  }

  lemma PosOnLine(l: Seg, p: Pen)
    requires Inv(l, p)
    ensures OnLine(l, Pos(l, p))
  {
    TimesIsProduct(l.A(), p.ny);
    TimesIsProduct(l.B(), p.nx);
    assert IAbs(PosX(l, p.nx) - l.x0) == p.nx && IAbs(PosY(l, p.ny) - l.y0) == p.ny;
  }

  /** The points from p start at p, end at (x1, y1), and number one more
      than the steps left along the longer axis. */
  lemma {:induction false} PointsEnds(l: Seg, p: Pen)
    requires Inv(l, p)
    ensures var ps := Points(l, p);
      |ps| == MajorLeft(l, p) + 1 && ps[0] == Pos(l, p) && ps[|ps| - 1] == (l.x1, l.y1)
    decreases Left(l, p)
  {
    EndPos(l);
    if !Done(l, p) {
      StepKeeps(l, p);
      PointsEnds(l, Step(l, p));
    }
  }

  /** Every point from p on lies on the line. */
  lemma {:induction false} PointsOnLine(l: Seg, p: Pen)
    requires Inv(l, p)
    ensures forall i :: 0 <= i < |Points(l, p)| ==> OnLine(l, Points(l, p)[i])
    decreases Left(l, p)
  {
    PosOnLine(l, p);
    if !Done(l, p) {
      StepKeeps(l, p);
      var q := Step(l, p);
      PointsOnLine(l, q);
      assert Points(l, p) == [Pos(l, p)] + Points(l, q);
    }
  }

  /** Each point from p on is a neighbour (8-connected) of the one before. */
  lemma {:induction false} PointsConnected(l: Seg, p: Pen)
    requires Inv(l, p)
    ensures var ps := Points(l, p);
      forall i :: 0 < i < |ps| ==> Adjacent(ps[i - 1], ps[i])
    decreases Left(l, p)
  {
    if !Done(l, p) {
      StepKeeps(l, p);
      var q := Step(l, p);
      PointsConnected(l, q);
      PointsEnds(l, q);
      StepAdjacent(l, p);
      var ps, rest := Points(l, p), Points(l, q);
      assert ps == [Pos(l, p)] + rest;
      assert ps[1] == Pos(l, q);
      forall i | 1 < i < |ps|
        ensures Adjacent(ps[i - 1], ps[i])
      {
        assert ps[i] == rest[i - 1] && ps[i - 1] == rest[i - 2];
      }
    }
  }

  /** plot_line from (x0, y0) to (x1, y1): max(|dx|, |dy|) + 1 pixels from
      one end to the other, each next to the one before, each within half a
      pixel of the true line. */
  lemma LineShape(l: Seg)
    ensures var ps := Line(l);
      |ps| == l.Major() + 1 && ps[0] == (l.x0, l.y0) && ps[|ps| - 1] == (l.x1, l.y1) &&
      (forall i :: 0 <= i < |ps| ==> OnLine(l, ps[i])) &&
      (forall i :: 0 < i < |ps| ==> Adjacent(ps[i - 1], ps[i]))
  {
    StartInv(l);
    PointsEnds(l, Start(l));
    PointsOnLine(l, Start(l));
    PointsConnected(l, Start(l));
  }

  /** plot_line's updates of x, y and err, with xs and ys its two tests,
      are those of a step. */
  lemma StepPos(l: Seg, p: Pen, xs: bool, ys: bool)
    requires xs == (2 * p.err >= -(l.B() as int)) && ys == (2 * p.err <= l.A())
    ensures Step(l, p).err == p.err + (if xs then -(l.B() as int) else 0) + (if ys then l.A() else 0)
    ensures PosX(l, Step(l, p).nx) == PosX(l, p.nx) + (if xs then l.Sx() else 0)
    ensures PosY(l, Step(l, p).ny) == PosY(l, p.ny) + (if ys then l.Sy() else 0)
  {
  }

  /** The points still to draw after one more pixel. */
  lemma DrawnAdvance(l: Seg, p: Pen, drawn: seq<Point>)
    requires Inv(l, p) && Pos(l, p) != (l.x1, l.y1)
    requires Line(l) == drawn + Points(l, p)
    ensures Inv(l, Step(l, p)) && Left(l, Step(l, p)) < Left(l, p)
    ensures Line(l) == (drawn + [Pos(l, p)]) + Points(l, Step(l, p))
  {
    EndPos(l);
    StepKeeps(l, p);
    assert Points(l, p) == [Pos(l, p)] + Points(l, Step(l, p));
  }

  /** Reaching (x1, y1) is reaching the end of both axes. */
  lemma DrawnDone(l: Seg, p: Pen, drawn: seq<Point>)
    requires Inv(l, p) && Pos(l, p) == (l.x1, l.y1)
    requires Line(l) == drawn + Points(l, p)
    ensures Line(l) == drawn + [Pos(l, p)]
  {
    assert Done(l, p);
  }

  /** plot_line(img, w, h, x0, y0, x1, y1, r, g, b). */
  method PlotLine(img: array<Byte>, w: int, h: int, x0: int, y0: int, x1: int, y1: int, c: Rgb)
    requires Canvas(img.Length, w, h)
    modifies img
    ensures img[..] == PaintAll(old(img[..]), w, h, Line(Seg(x0, y0, x1, y1)), c)
  {
    ghost var l := Seg(x0, y0, x1, y1);
    ghost var s := img[..];
    var dx := if x1 - x0 < 0 then x0 - x1 else x1 - x0;
    var sx := if x0 < x1 then 1 else -1;
    var dy := -(if y1 - y0 < 0 then y0 - y1 else y1 - y0);
    var sy := if y0 < y1 then 1 else -1;
    var err := dx + dy;
    var x, y := x0, y0;
    ghost var p := Start(l);
    ghost var drawn: seq<Point> := [];
    assert dx == l.A() && dy == -(l.B() as int) && sx == l.Sx() && sy == l.Sy();
    StartInv(l);
    while true
      invariant Inv(l, p) && p.err == err
      invariant x == PosX(l, p.nx) && y == PosY(l, p.ny)
      invariant Line(l) == drawn + Points(l, p)
      invariant img[..] == PaintAll(s, w, h, drawn, c)
      decreases Left(l, p)
    {
      PlotSetPx(img, w, h, x, y, c);
      PaintAllSnoc(s, w, h, drawn, (x, y), c);
      if x == x1 && y == y1 {
        DrawnDone(l, p, drawn);
        break;
      }
      DrawnAdvance(l, p, drawn);
      drawn := drawn + [(x, y)];
      var e2 := 2 * err;
      StepPos(l, p, e2 >= dy, e2 <= dx);
      if e2 >= dy {
        err := err + dy;
        x := x + sx;
      }
      if e2 <= dx {
        err := err + dx;
        y := y + sy;
      }
      p := Step(l, p);
    }
  }

  /** Every point moved by o. */
  function Translate(ps: seq<Point>, o: Point): (r: seq<Point>)
    ensures |r| == |ps|
    ensures forall i :: 0 <= i < |ps| ==> r[i] == (ps[i].0 + o.0, ps[i].1 + o.1)
  {
    seq(|ps|, i requires 0 <= i < |ps| => (ps[i].0 + o.0, ps[i].1 + o.1))
  }

  /** Moving a segment moves every state's pixel and nothing else. */
  lemma ShiftSame(l: Seg, o: Point, p: Pen)
    ensures var m := l.Shift(o);
      m.A() == l.A() && m.B() == l.B() && m.Sx() == l.Sx() && m.Sy() == l.Sy() &&
      Inv(m, p) == Inv(l, p) && Done(m, p) == Done(l, p) && Step(m, p) == Step(l, p) &&
      Pos(m, p) == (Pos(l, p).0 + o.0, Pos(l, p).1 + o.1)
  {
  }

  /** plot_line of a moved segment sets the moved pixels, in the same order. */
  lemma {:induction false} PointsShift(l: Seg, o: Point, p: Pen)
    requires Inv(l, p)
    ensures Inv(l.Shift(o), p)
    ensures Points(l.Shift(o), p) == Translate(Points(l, p), o)
    decreases Left(l, p)
  {
    var m := l.Shift(o);
    ShiftSame(l, o, p);
    if !Done(l, p) {
      StepKeeps(l, p);
      var q := Step(l, p);
      PointsShift(l, o, q);
      assert Points(m, p) == [Pos(m, p)] + Points(m, q);
      assert Points(l, p) == [Pos(l, p)] + Points(l, q);
    }
  }

  lemma LineShift(l: Seg, o: Point)
    ensures Line(l.Shift(o)) == Translate(Line(l), o)
  {
    StartInv(l);
    ShiftSame(l, o, Start(l));
    PointsShift(l, o, Start(l));
  }

  /** The point q seen from offset o. */
  function Back(q: Point, o: Point): Point {
    (q.0 - o.0, q.1 - o.1)
  }

  lemma TranslateMember(ps: seq<Point>, o: Point, q: Point)
    ensures q in Translate(ps, o) <==> Back(q, o) in ps
  {
    var t := Translate(ps, o);
    if q in t {
      var i :| 0 <= i < |t| && t[i] == q;
      assert ps[i] == Back(q, o);
    }
    if Back(q, o) in ps {
      var i :| 0 <= i < |ps| && ps[i] == Back(q, o);
      assert t[i] == q;
    }
  }

  /** The offsets (ox, oy) of row oy from ox to rad with
      ox * ox + oy * oy <= rad * rad, in plot_line_thick's inner-loop order. */
  function DiscRow(rad: int, oy: int, ox: int): seq<Point>
    decreases rad + 1 - ox
  {
    if ox > rad then []
    else (if InCircle(rad, ox, oy) then [(ox, oy)] else []) + DiscRow(rad, oy, ox + 1)
  }

  /** The offsets of rows oy to rad, in plot_line_thick's loop order. */
  function DiscFrom(rad: int, oy: int): seq<Point>
    decreases rad + 1 - oy
  {
    if oy > rad then [] else DiscRow(rad, oy, -rad) + DiscFrom(rad, oy + 1)
  }

  function Disc(rad: int): seq<Point> {
    DiscFrom(rad, -rad)
  }

  /** plot_line_thick's test ox * ox + oy * oy <= rad * rad. */
  predicate InCircle(rad: int, ox: int, oy: int) {
    ox * ox + oy * oy <= rad * rad
  }

  /** o lies in the square [-rad, rad]^2 and within distance rad of the centre. */
  predicate InDisc(rad: int, o: Point) {
    -rad <= o.0 <= rad && -rad <= o.1 <= rad && InCircle(rad, o.0, o.1)
  }

  lemma {:induction false} DiscRowMember(rad: int, oy: int, ox: int, o: Point)
    ensures o in DiscRow(rad, oy, ox) <==> o.1 == oy && ox <= o.0 <= rad && InCircle(rad, o.0, o.1)
    decreases rad + 1 - ox
  {
    if ox <= rad {
      DiscRowMember(rad, oy, ox + 1, o);
    }
  }

  lemma {:induction false} DiscFromMember(rad: int, oy: int, o: Point)
    requires -rad <= oy
    ensures o in DiscFrom(rad, oy) <==> InDisc(rad, o) && oy <= o.1
    decreases rad + 1 - oy
  {
    if oy <= rad {
      var row, rest := DiscRow(rad, oy, -rad), DiscFrom(rad, oy + 1);
      assert DiscFrom(rad, oy) == row + rest;
      DiscRowMember(rad, oy, -rad, o);
      DiscFromMember(rad, oy + 1, o);
      assert o in row + rest <==> o in row || o in rest;
    }
  }

  /** The disc holds exactly the offsets within distance rad. */
  lemma DiscMember(rad: int, o: Point)
    ensures o in Disc(rad) <==> InDisc(rad, o)
  {
    DiscFromMember(rad, -rad, o);
  }

  /** The pixels of the segment drawn once at each offset, in order. */
  function ThickPoints(l: Seg, offs: seq<Point>): seq<Point>
    decreases |offs|
  {
    if offs == [] then []
    else ThickPoints(l, offs[..|offs| - 1]) + Line(l.Shift(offs[|offs| - 1]))
  }

  /** The pixels plot_line_thick sets, in order. */
  function ThickLine(l: Seg, thick: int): seq<Point> {
    if thick <= 1 then Line(l) else ThickPoints(l, Disc(thick / 2))
  }

  lemma {:induction false} ThickPointsMember(l: Seg, offs: seq<Point>, q: Point)
    ensures q in ThickPoints(l, offs) <==> exists i :: 0 <= i < |offs| && Back(q, offs[i]) in Line(l)
    decreases |offs|
  {
    if offs != [] {
      var n := |offs| - 1;
      var front := offs[..n];
      ThickPointsMember(l, front, q);
      LineShift(l, offs[n]);
      TranslateMember(Line(l), offs[n], q);
      if exists i :: 0 <= i < |offs| && Back(q, offs[i]) in Line(l) {
        var i :| 0 <= i < |offs| && Back(q, offs[i]) in Line(l);
        if i < n {
          assert front[i] == offs[i];
        }
      }
      if exists i :: 0 <= i < |front| && Back(q, front[i]) in Line(l) {
        var i :| 0 <= i < |front| && Back(q, front[i]) in Line(l);
        assert offs[i] == front[i];
      }
    }
  }

  /** A thick line is the thin line moved by every offset within distance
      thick / 2 of the centre, and nothing else. */
  lemma ThickLineMember(l: Seg, thick: int, q: Point)
    requires thick > 1
    ensures q in ThickLine(l, thick) <==> exists o :: InDisc(thick / 2, o) && Back(q, o) in Line(l)
  {
    var rad := thick / 2;
    var d := Disc(rad);
    ThickPointsMember(l, d, q);
    if exists i :: 0 <= i < |d| && Back(q, d[i]) in Line(l) {
      var i :| 0 <= i < |d| && Back(q, d[i]) in Line(l);
      DiscMember(rad, d[i]);
    }
    if exists o :: InDisc(rad, o) && Back(q, o) in Line(l) {
      var o :| InDisc(rad, o) && Back(q, o) in Line(l);
      DiscMember(rad, o);
      var i :| 0 <= i < |d| && d[i] == o;
    }
  }

  /** The thick line covers the thin one. */
  lemma ThickCoversThin(l: Seg, thick: int, q: Point)
    requires q in Line(l)
    ensures q in ThickLine(l, thick)
  {
    if thick > 1 {
      ThickLineMember(l, thick, q);
      assert InDisc(thick / 2, (0, 0)) && Back(q, (0, 0)) == q;
    }
  }

  /** thick 2 or 3 (rad 1) draws the line at the centre and its four
      side-neighbours, top row first. */
  lemma DiscOfOne()
    ensures Disc(1) == [(0, -1), (-1, 0), (0, 0), (1, 0), (0, 1)]
  {
    assert DiscRow(1, -1, -1) == [(0, -1)];
    assert DiscRow(1, 0, -1) == [(-1, 0), (0, 0), (1, 0)];
    assert DiscRow(1, 1, -1) == [(0, 1)];
  }

  lemma {:induction false} ThickPointsConcat(l: Seg, a: seq<Point>, b: seq<Point>)
    ensures ThickPoints(l, a + b) == ThickPoints(l, a) + ThickPoints(l, b)
    decreases |b|
  {
    if b == [] {
      assert a + b == a;
    } else {
      var n := |b| - 1;
      assert (a + b)[..|a + b| - 1] == a + b[..n];
      ThickPointsConcat(l, a, b[..n]);
    }
  }

  lemma ThickPointsSnoc(l: Seg, done: seq<Point>, o: Point)
    ensures ThickPoints(l, done + [o]) == ThickPoints(l, done) + Line(l.Shift(o))
  {
    assert (done + [o])[..|done|] == done;
  }

  /** The disc row from ox on: the offset (ox, oy) if it passes the test,
      then the rest of the row. */
  lemma DiscRowStep(rad: int, oy: int, ox: int, done: seq<Point>)
    requires ox <= rad
    ensures var o := if InCircle(rad, ox, oy) then [(ox, oy)] else [];
      done + DiscRow(rad, oy, ox) == (done + o) + DiscRow(rad, oy, ox + 1)
  {
  }

  /** The disc from row oy on: row oy, then the rows after it. */
  lemma DiscFromStep(rad: int, oy: int, done: seq<Point>)
    requires oy <= rad
    ensures done + DiscFrom(rad, oy) == (done + DiscRow(rad, oy, -rad)) + DiscFrom(rad, oy + 1)
  {
  }

  /** One pass of plot_line_thick's inner loop: row oy of the disc. */
  method PaintDiscRow(img: array<Byte>, w: int, h: int, x0: int, y0: int, x1: int, y1: int, rad: int, oy: int, c: Rgb)
    requires Canvas(img.Length, w, h) && rad >= 0
    modifies img
    ensures img[..] == PaintAll(old(img[..]), w, h, ThickPoints(Seg(x0, y0, x1, y1), DiscRow(rad, oy, -rad)), c)
  {
    ghost var l := Seg(x0, y0, x1, y1);
    ghost var s := img[..];
    ghost var done: seq<Point> := [];
    var ox := -rad;
    while ox <= rad
      invariant -rad <= ox <= rad + 1
      invariant DiscRow(rad, oy, -rad) == done + DiscRow(rad, oy, ox)
      invariant img[..] == PaintAll(s, w, h, ThickPoints(l, done), c)
      decreases rad + 1 - ox
    {
      DiscRowStep(rad, oy, ox, done);
      if ox * ox + oy * oy <= rad * rad {
        ghost var m := l.Shift((ox, oy));
        assert m == Seg(x0 + ox, y0 + oy, x1 + ox, y1 + oy);
        PlotLine(img, w, h, x0 + ox, y0 + oy, x1 + ox, y1 + oy, c);
        PaintAllConcat(s, w, h, ThickPoints(l, done), Line(m), c);
        ThickPointsSnoc(l, done, (ox, oy));
        done := done + [(ox, oy)];
      } else {
        assert done + [] == done;
      }
      ox := ox + 1;
    }
    assert done + DiscRow(rad, oy, ox) == done;
  }

  /** plot_line_thick's two loops: the line at every offset of the disc. */
  method PaintDisc(img: array<Byte>, w: int, h: int, x0: int, y0: int, x1: int, y1: int, rad: int, c: Rgb)
    requires Canvas(img.Length, w, h) && rad >= 0
    modifies img
    ensures img[..] == PaintAll(old(img[..]), w, h, ThickPoints(Seg(x0, y0, x1, y1), Disc(rad)), c)
  {
    ghost var l := Seg(x0, y0, x1, y1);
    ghost var s := img[..];
    ghost var done: seq<Point> := [];
    var oy := -rad;
    while oy <= rad
      invariant -rad <= oy <= rad + 1
      invariant Disc(rad) == done + DiscFrom(rad, oy)
      invariant img[..] == PaintAll(s, w, h, ThickPoints(l, done), c)
      decreases rad + 1 - oy
    {
      ghost var row := DiscRow(rad, oy, -rad);
      DiscFromStep(rad, oy, done);
      PaintDiscRow(img, w, h, x0, y0, x1, y1, rad, oy, c);
      PaintAllConcat(s, w, h, ThickPoints(l, done), ThickPoints(l, row), c);
      ThickPointsConcat(l, done, row);
      done := done + row;
      oy := oy + 1;
    }
    assert done + DiscFrom(rad, oy) == done;
  }

  /** plot_line_thick(img, w, h, x0, y0, x1, y1, thick, r, g, b). */
  method PlotLineThick(img: array<Byte>, w: int, h: int, x0: int, y0: int, x1: int, y1: int, thick: int, c: Rgb)
    requires Canvas(img.Length, w, h)
    modifies img
    ensures img[..] == PaintAll(old(img[..]), w, h, ThickLine(Seg(x0, y0, x1, y1), thick), c)
  {
    if thick <= 1 {
      PlotLine(img, w, h, x0, y0, x1, y1, c);
      return;
    }
    var rad := thick / 2;
    PaintDisc(img, w, h, x0, y0, x1, y1, rad, c);
  }
}
