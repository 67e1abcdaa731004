/** `drawLine`: Bresenham's line between any two integer points. */
module Line {

  datatype Point = Point(x: int, y: int)

  function Abs(n: int): int {
    if n < 0 then -n else n
  }

  function Max(a: int, b: int): int {
    if a > b then a else b
  }

  /** One pixel away along the longer axis, at most one along the other. */
  predicate Adjacent(p: Point, q: Point) {
    Max(Abs(q.x - p.x), Abs(q.y - p.y)) == 1
  }

  /** `q` lies within half a pixel of the ideal line from `a` to `b`, measured along the minor
      axis; both sides are multiplied by the length of the major axis to stay in the integers. */
  predicate NearIdeal(a: Point, b: Point, q: Point) {
    var dx, dy := Abs(b.x - a.x), Abs(b.y - a.y);
    if dx >= dy then 2 * Abs((q.y - a.y) * (b.x - a.x) - (q.x - a.x) * (b.y - a.y)) <= dx
    else 2 * Abs((q.x - a.x) * (b.y - a.y) - (q.y - a.y) * (b.x - a.x)) <= dy
  }

  /** The points a line visits: one per step of the major axis, from `a` to `b`, all near ideal. */
  ghost predicate IsLine(a: Point, b: Point, points: seq<Point>) {
    && |points| == Max(Abs(b.x - a.x), Abs(b.y - a.y)) + 1
    && points[|points| - 1] == b
    && PathFrom(a, b, points)
  }

  /** Connected pixels that start at `a` and follow the ideal line to `b`. */
  ghost predicate PathFrom(a: Point, b: Point, points: seq<Point>) {
    && (points != [] ==> points[0] == a)
    && (forall i :: 0 <= i < |points| - 1 ==> Adjacent(points[i], points[i + 1]))
    && (forall i :: 0 <= i < |points| ==> NearIdeal(a, b, points[i]))
  }

  lemma PathExtends(a: Point, b: Point, points: seq<Point>, p: Point)
    requires PathFrom(a, b, points) && NearIdeal(a, b, p)
    requires if points == [] then p == a else Adjacent(points[|points| - 1], p)
    ensures PathFrom(a, b, points + [p])
  {
  }

  /** An image keeps the pixels inside its bounds. */
  class Canvas<Color(0)> {
    const width: nat
    const height: nat
    var pixels: map<Point, Color>

    constructor (width: nat, height: nat)
      ensures this.width == width && this.height == height && pixels == map[]
    {
      this.width, this.height, pixels := width, height, map[];
    }

    predicate In(p: Point) {
      0 <= p.x < width && 0 <= p.y < height
    }

    /** `pixels` is `before` with `value` painted on every visible point of `visited`. */
    ghost predicate Painted(before: map<Point, Color>, visited: seq<Point>, value: Color)
      reads this
    {
      && (forall p :: p in pixels <==> p in before || (In(p) && p in visited))
      && (forall p :: p in pixels ==> pixels[p] == if In(p) && p in visited then value else before[p])
    }

    method SetPixel(p: Point, value: Color, ghost before: map<Point, Color>, ghost visited: seq<Point>)
      requires Painted(before, visited, value)
      modifies this
      ensures Painted(before, visited + [p], value)
    {
      if In(p) {
        pixels := pixels[p := value];
      }
      assert forall q :: q in visited + [p] <==> q in visited || q == p;
    }

    /** Paints the visible part of the line and nothing else. */
    method DrawLine(a: Point, b: Point, value: Color) returns (visited: seq<Point>)
      modifies this
      ensures IsLine(a, b, visited)
      ensures Painted(old(pixels), visited, value)
    {
      hide Painted, Adjacent, NearIdeal, Steps, PathFrom, After;
      var dx: int, dy: int := Abs(b.x - a.x), -Abs(b.y - a.y);
      var sx := if a.x < b.x then 1 else -1;
      var sy := if a.y < b.y then 1 else -1;
      var err := dx + dy;
      var x, y := a.x, a.y;
      visited := [];
      NothingVisited(a, b, value);
      StepsStart(dx, -dy);
      ghost var m, n := 0, 0;   // steps taken along x and y
      while true
        invariant 0 <= m <= dx && 0 <= n <= -dy && Steps(dx, -dy, m, n, err)
        invariant Point(x, y) == After(a, b, m, n)
        invariant |visited| == if dx >= -dy then m else n
        invariant if visited == [] then Point(x, y) == a else Adjacent(visited[|visited| - 1], Point(x, y))
        invariant PathFrom(a, b, visited) && Painted(old(pixels), visited, value)
        decreases dx - dy - m - n
      {
        SetPixel(Point(x, y), value, old(pixels), visited);
        StepsNearIdeal(a, b, m, n, err);
        PathExtends(a, b, visited, Point(x, y));
        visited := visited + [Point(x, y)];
        Arrived(a, b, m, n);
        if x == b.x && y == b.y {
          return;
        }
        NotYetThere(dx, -dy, m, n, err);
        StepsNext(dx, -dy, m, n, err);
        var twice := 2 * err;
        Moves(a, b, m, n, twice >= dy, twice <= dx);
        if twice >= dy {
          err := err + dy;
          x := x + sx;
          m := m + 1;
        }
        if twice <= dx {
          err := err + dx;
          y := y + sy;
          n := n + 1;
        }
        StepsInside(dx, -dy, m, n, err);
      }
    }

    lemma NothingVisited(a: Point, b: Point, value: Color)
      ensures Painted(pixels, [], value) && PathFrom(a, b, []) && After(a, b, 0, 0) == a
    {
    }
  }

  lemma Moves(a: Point, b: Point, m: int, n: int, alongX: bool, alongY: bool)
    ensures var p := After(a, b, m, n);
            var q := After(a, b, if alongX then m + 1 else m, if alongY then n + 1 else n);
            && q.x == p.x + (if !alongX then 0 else if a.x < b.x then 1 else -1)
            && q.y == p.y + (if !alongY then 0 else if a.y < b.y then 1 else -1)
            && (alongX || alongY ==> Adjacent(p, q))
  {
  }

  /** The end is reached exactly when both axes have made all their steps. */
  lemma Arrived(a: Point, b: Point, m: int, n: int)
    requires 0 <= m <= Abs(b.x - a.x) && 0 <= n <= Abs(b.y - a.y)
    ensures After(a, b, m, n) == b <==> m == Abs(b.x - a.x) && n == Abs(b.y - a.y)
  {
  }

  /** Where `m` steps along x and `n` along y lead. */
  function After(a: Point, b: Point, m: int, n: int): Point {
    Point(if a.x < b.x then a.x + m else a.x - m, if a.y < b.y then a.y + n else a.y - n)
  }

  /** The error term after `m` steps along x and `n` along y, and the bound it keeps. */
  predicate Steps(dx: int, dy: int, m: int, n: int, err: int) {
    var e := n * dx - m * dy;
    && err == e + dx - dy
    && (if dx >= dy then (-dx < 2 * e || dx == 0) && 2 * e <= dx else -dy <= 2 * e && 2 * e < dy)
  }

  lemma StepsStart(dx: int, dy: int)
    requires dx >= 0 && dy >= 0
    ensures Steps(dx, dy, 0, 0, dx - dy)
  {
  }

  /** The loop body: the major axis moves in every step, the minor axis as the error term says. */
  lemma StepsNext(dx: int, dy: int, m: int, n: int, err: int)
    requires dx >= 0 && dy >= 0 && Steps(dx, dy, m, n, err) && (dx > 0 || dy > 0)
    ensures var alongX, alongY := 2 * err >= -dy, 2 * err <= dx;
            && (dx >= dy ==> alongX) && (dx < dy ==> alongY)
            && Steps(dx, dy, if alongX then m + 1 else m, if alongY then n + 1 else n,
                     err + (if alongX then -dy else 0) + (if alongY then dx else 0))
  {
    assert (n + 1) * dx == n * dx + dx;
    assert (m + 1) * dy == m * dy + dy;
  }

  lemma Cancel(d: int, k: int, l: int)
    requires d > 0 && -d <= 2 * (d * k - d * l) <= d
    ensures k == l
  {
    assert d * k - d * l == d * (k - l);
    Multiple(d, k - l);
  }

  lemma Multiple(d: int, x: int)
    requires d > 0
    ensures (x >= 1 ==> d * x >= d) && (x <= -1 ==> d * x <= -d)
  {
  }

  /** Before the end the major axis has steps left. */
  lemma NotYetThere(dx: int, dy: int, m: int, n: int, err: int)
    requires 0 <= m <= dx && 0 <= n <= dy && Steps(dx, dy, m, n, err) && !(m == dx && n == dy)
    ensures if dx >= dy then m < dx else n < dy
  {
    if dx >= dy && m == dx && dx > 0 {
      Cancel(dx, n, dy);
    } else if dx < dy && n == dy {
      Cancel(dy, dx, m);
    }
  }

  /** The minor axis never overshoots. */
  lemma StepsInside(dx: int, dy: int, m: int, n: int, err: int)
    requires dx >= 0 && dy >= 0 && (dx > 0 || dy > 0) && m >= 0 && n >= 0 && Steps(dx, dy, m, n, err)
    requires if dx >= dy then m <= dx else n <= dy
    ensures m <= dx && n <= dy
  {
    if dx >= dy && n > dy {
      Scale(dy + 1, n, dx);
      Scale(m, dx, dy);
    } else if dx < dy && m > dx {
      Scale(dx + 1, m, dy);
      Scale(n, dy, dx);
    }
  }

  lemma Scale(p: int, q: int, k: int)
    requires p <= q && k >= 0
    ensures p * k <= q * k && p * k == k * p && (p - 1) * k == p * k - k
  {
  }

  lemma StepsNearIdeal(a: Point, b: Point, m: int, n: int, err: int)
    requires m >= 0 && n >= 0 && Steps(Abs(b.x - a.x), Abs(b.y - a.y), m, n, err)
    ensures NearIdeal(a, b, After(a, b, m, n))
  {
    var dx: int, dy: int := Abs(b.x - a.x), Abs(b.y - a.y);
    var q := After(a, b, m, n);
    var e := n * dx - m * dy;
    var cross := (q.y - a.y) * (b.x - a.x) - (q.x - a.x) * (b.y - a.y);
    Signs(a.x < b.x, a.y < b.y, dx, dy, m, n);
    assert Abs(cross) == Abs(e);
    assert (q.x - a.x) * (b.y - a.y) - (q.y - a.y) * (b.x - a.x) == -cross;
  }

  lemma Signs(right: bool, up: bool, dx: int, dy: int, m: int, n: int)
    ensures var px, py, vx, vy := if right then m else -m, if up then n else -n, if right then dx else -dx, if up then dy else -dy;
            py * vx - px * vy == if right == up then n * dx - m * dy else -(n * dx - m * dy)
  {
  }
}
