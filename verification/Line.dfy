/** Drawing a straight line by error accumulation.
    Source: source/userspace_library/screen.c:77-82, 102-137 */
module Line {
  import opened Arithmetic

  datatype Point = Point(x: int, y: int)

  datatype Box = Box(width: nat, height: nat)

  datatype Segment = Segment(from: Point, to: Point)

  function Abs(a: int): nat {
    if a < 0 then -a else a
  }

  function DX(s: Segment): nat {
    Abs(s.to.x - s.from.x)
  }

  function DY(s: Segment): nat {
    Abs(s.to.y - s.from.y)
  }

  /** The larger of the two distances: one step for each unit of it. */
  function Steps(s: Segment): nat {
    if DX(s) >= DY(s) then DX(s) else DY(s)
  }

  /** `minor * k / major`, rounded half up. */
  function Rounded(minor: nat, major: nat, k: nat): nat
    requires major > 0
  {
    (2 * (minor * k) + major) / (2 * major)
  }

  /** `from`, moved `n` towards `to`. */
  function Moved(from: int, to: int, n: nat): int {
    if from < to then from + n else from - n
  }

  function AlongX(s: Segment, k: nat): nat
    requires Steps(s) > 0
  {
    if DX(s) >= DY(s) then k else Rounded(DX(s), DY(s), k)
  }

  function AlongY(s: Segment, k: nat): nat
    requires Steps(s) > 0
  {
    if DX(s) >= DY(s) then Rounded(DY(s), DX(s), k) else k
  }

  /** The point reached after `k` steps. */
  function PointAt(s: Segment, k: nat): Point
    requires Steps(s) > 0
  {
    Point(Moved(s.from.x, s.to.x, AlongX(s, k)), Moved(s.from.y, s.to.y, AlongY(s, k)))
  }

  // ----- the ideal line

  /** The nearest whole number to `minor * k / major`, the upper one of two; `mk` is the product. */
  predicate Nearest(mk: nat, major: nat, mj: nat) {
    2 * mj <= 2 * mk + major < 2 * mj + 2 * major
  }

  lemma RoundedIsNearest(minor: nat, major: nat, k: nat, j: nat)
    requires major > 0 && Nearest(minor * k, major, major * j)
    ensures Rounded(minor, major, k) == j
  {
    Quotient(2 * (minor * k) + major, 2 * major, j, 2 * (minor * k) + major - 2 * (major * j));
  }

  lemma NearestIsRounded(minor: nat, major: nat, k: nat)
    requires major > 0
    ensures Nearest(minor * k, major, major * Rounded(minor, major, k))
  {
    var a, b := 2 * (minor * k) + major, 2 * major;
    assert a == a / b * b + a % b;
    assert a / b * b == 2 * (major * (a / b));
  }

  /** The line ends at its end point and nowhere before. */
  lemma EndsExactly(s: Segment, k: nat)
    requires 0 < Steps(s) && k <= Steps(s)
    ensures PointAt(s, k) == s.to <==> k == Steps(s)
  {
    var major, minor := Steps(s), if DX(s) >= DY(s) then DY(s) else DX(s);
    if k == major {
      RoundedIsNearest(minor, major, k, minor) by { assert minor * k == major * minor; }
    }
  }

  lemma RoundedBelow(minor: nat, major: nat, j: nat)
    requires major > 0 && 2 * (major * j) <= 2 * (major * minor) + major
    ensures j <= minor
  {
    MulMonotone(minor + 1, j, major);
    assert (minor + 1) * major == major * minor + major;
    assert j * major == major * j;
  }

  /** On neither axis does the line go past its end. */
  lemma NeverOvershoots(s: Segment, k: nat)
    requires 0 < Steps(s) && k <= Steps(s)
    ensures AlongX(s, k) <= DX(s) && AlongY(s, k) <= DY(s)
  {
    var major, minor := Steps(s), if DX(s) >= DY(s) then DY(s) else DX(s);
    NearestIsRounded(minor, major, k);
    MulMonotone(k, major, minor);
    assert minor * k <= major * minor by { assert minor * k == k * minor; }
    RoundedBelow(minor, major, Rounded(minor, major, k));
  }

  /** Every point is within half a pixel of the ideal line, measured across its main direction. */
  lemma WithinHalfAPixel(s: Segment, k: nat)
    requires 0 < Steps(s) && k <= Steps(s)
    ensures -(Steps(s) as int) <= 2 * (AlongX(s, k) * DY(s)) - 2 * (AlongY(s, k) * DX(s)) <= Steps(s)
  {
    var major, minor := Steps(s), if DX(s) >= DY(s) then DY(s) else DX(s);
    NearestIsRounded(minor, major, k);
    var j := Rounded(minor, major, k);
    assert k * minor == minor * k && j * major == major * j;
  }

  /** The error term that belongs to the k-th point, seen along the main direction. */
  function Error(minor: nat, major: nat, k: nat): int
    requires major > 0
  {
    (major + major * Rounded(minor, major, k)) - (minor + minor * k)
  }

  /** Whether the next point moves across the main direction too is what the error term tells. */
  lemma ErrorDecides(minor: nat, major: nat, k: nat)
    requires major > 0 && minor <= major
    ensures var e, up := Error(minor, major, k), 2 * Error(minor, major, k) <= major;
            && 2 * e >= -(minor as int)
            && Rounded(minor, major, k + 1) == Rounded(minor, major, k) + (if up then 1 else 0)
            && Error(minor, major, k + 1) == e - minor + (if up then major else 0)
  {
    var j := Rounded(minor, major, k);
    NearestIsRounded(minor, major, k);
    NextNearest(minor, major, k, j);
  }

  lemma NextNearest(minor: nat, major: nat, k: nat, j: nat)
    requires major > 0 && minor <= major && Nearest(minor * k, major, major * j)
    ensures var up := 2 * (major * j) + major <= 2 * (minor * k) + 2 * minor;
            && Rounded(minor, major, k + 1) == (if up then j + 1 else j)
            && minor * (k + 1) == minor * k + minor
            && major * (j + 1) == major * j + major
  {
    assert minor * (k + 1) == minor * k + minor;
    assert major * (j + 1) == major * j + major;
    if 2 * (major * j) + major <= 2 * (minor * k) + 2 * minor {
      RoundedIsNearest(minor, major, k + 1, j + 1);
    } else {
      RoundedIsNearest(minor, major, k + 1, j);
    }
  }

  /** Each step moves one pixel in the main direction and at most one in the other. */
  lemma StepsAreSmall(s: Segment, k: nat)
    requires 0 < Steps(s)
    ensures 0 <= AlongX(s, k + 1) - AlongX(s, k) <= 1 && 0 <= AlongY(s, k + 1) - AlongY(s, k) <= 1
    ensures AlongX(s, k + 1) - AlongX(s, k) == 1 || AlongY(s, k + 1) - AlongY(s, k) == 1
  {
    if DX(s) >= DY(s) { ErrorDecides(DY(s), DX(s), k); } else { ErrorDecides(DX(s), DY(s), k); }
  }

  // ----- drawing

  predicate Visible(b: Box, p: Point) {
    0 <= p.x < b.width && 0 <= p.y < b.height
  }

  /** Where drawing stops early. A negative coordinate stops it too: it is compared with an unsigned one. */
  predicate Off(b: Box, p: Point) {
    p.x < 0 || p.x > b.width || p.y < 0 || p.y > b.height
  }

  /** The pixels set by the first `k` points of a path. */
  function Plotted(b: Box, path: seq<Point>, k: nat): seq<Point>
    requires k <= |path|
  {
    if k == 0 then [] else Plotted(b, path, k - 1) + (if Visible(b, path[k - 1]) then [path[k - 1]] else [])
  }

  function ErrorAt(s: Segment, k: nat): int
    requires Steps(s) > 0
  {
    if DX(s) >= DY(s) then Error(DY(s), DX(s), k) else -Error(DX(s), DY(s), k)
  }

  /** One round of the loop leads from point `p` with error `e` to point `q` with error `f`. */
  predicate Round(s: Segment, p: Point, e: int, q: Point, f: int) {
    var right, down := 2 * e >= -(DY(s) as int), 2 * e <= DX(s);
    && q.x == (if !right then p.x else if s.from.x < s.to.x then p.x + 1 else p.x - 1)
    && q.y == (if !down then p.y else if s.from.y < s.to.y then p.y + 1 else p.y - 1)
    && f == e - (if right then DY(s) else 0) + (if down then DX(s) else 0)
  }

  lemma RoundsFollowTheLine(s: Segment, k: nat)
    requires 0 < Steps(s)
    ensures Round(s, PointAt(s, k), ErrorAt(s, k), PointAt(s, k + 1), ErrorAt(s, k + 1))
  {
    if DX(s) >= DY(s) { ErrorDecides(DY(s), DX(s), k); } else { ErrorDecides(DX(s), DY(s), k); }
  }

  /** A path the loop can take: from the start, round by round, to the end and not there before. */
  predicate IsPath(s: Segment, path: seq<Point>, errors: seq<int>) {
    && |path| == |errors| == Steps(s) + 1
    && path[0] == s.from && errors[0] == DX(s) - DY(s)
    && (forall k :: 0 <= k < Steps(s) ==> Round(s, path[k], errors[k], path[k + 1], errors[k + 1]))
    && (forall k :: 0 <= k <= Steps(s) ==> (path[k] == s.to <==> k == Steps(s)))
  }

  function Path(s: Segment): seq<Point>
    requires Steps(s) > 0
  {
    seq(Steps(s) + 1, (k: nat) => PointAt(s, k))
  }

  function Errors(s: Segment): seq<int>
    requires Steps(s) > 0
  {
    seq(Steps(s) + 1, (k: nat) => ErrorAt(s, k))
  }

  /** The rounded ideal line is a path of the loop. */
  lemma IdealLineIsPath(s: Segment)
    requires 0 < Steps(s)
    ensures IsPath(s, Path(s), Errors(s))
  {
    var path, errors := Path(s), Errors(s);
    forall k | 0 <= k <= Steps(s)
      ensures path[k] == PointAt(s, k) && errors[k] == ErrorAt(s, k)
      ensures path[k] == s.to <==> k == Steps(s)
    {
      EndsExactly(s, k);
    }
    forall k | 0 <= k < Steps(s)
      ensures Round(s, path[k], errors[k], path[k + 1], errors[k + 1])
    {
      RoundsFollowTheLine(s, k);
    }
    FirstPoint(s);
  }

  lemma FirstPoint(s: Segment)
    requires 0 < Steps(s)
    ensures PointAt(s, 0) == s.from && ErrorAt(s, 0) == DX(s) - DY(s)
  {
    var major, minor := Steps(s), if DX(s) >= DY(s) then DY(s) else DX(s);
    RoundedIsNearest(minor, major, 0, 0);
  }

  /** Draws along a path of the loop; `n` is the number of rounds. */
  method DrawAlong(b: Box, s: Segment, ghost path: seq<Point>, ghost errors: seq<int>)
    returns (pixels: seq<Point>, ghost n: nat)
    requires s.from != s.to && IsPath(s, path, errors)
    ensures n <= Steps(s) && pixels == Plotted(b, path, n)
    ensures n < Steps(s) ==> Off(b, path[n])
    ensures forall k :: 0 <= k < n ==> !Off(b, path[k])
  {
    var x, y := s.from.x, s.from.y;
    var dx := Abs(s.to.x - x);
    var sx := if x < s.to.x then 1 else -1;
    var dy: int := -(Abs(s.to.y - y) as int);
    var sy := if y < s.to.y then 1 else -1;
    var err: int := dx + dy;
    pixels, n := [], 0;
    while true
      invariant n <= Steps(s) && Point(x, y) == path[n] && err == errors[n]
      invariant pixels == Plotted(b, path, n)
      invariant forall k :: 0 <= k < n ==> !Off(b, path[k])
      decreases Steps(s) - n
    {
      if x == s.to.x && y == s.to.y {
        return;
      }
      if Off(b, Point(x, y)) {
        return;
      }
      if x >= 0 && y >= 0 {
        if Visible(b, Point(x, y)) {
          pixels := pixels + [Point(x, y)];
        }
      }
      assert Round(s, path[n], errors[n], path[n + 1], errors[n + 1]);
      var e2 := 2 * err;
      if e2 >= dy {
        err := err + dy;
        x := x + sx;
      }
      if e2 <= dx {
        err := err + dx;
        y := y + sy;
      }
      n := n + 1;
    }
  }

  /** Where drawing stops: at the end, or at the first point that is off. */
  predicate StopsAt(b: Box, s: Segment, n: nat)
    requires 0 < Steps(s)
  {
    && n <= Steps(s)
    && (n < Steps(s) ==> Off(b, Path(s)[n]))
    && (forall k :: 0 <= k < n ==> !Off(b, Path(s)[k]))
  }

  /** Draws a line: the visible ones among the points of the rounded ideal line, in order, up to the first that is
      off the box, if any. The end point itself is not drawn unless it is the start. */
  method DrawLine(b: Box, s: Segment) returns (pixels: seq<Point>, ghost n: nat)
    ensures s.from == s.to ==> pixels == if Visible(b, s.from) then [s.from] else []
    ensures s.from != s.to ==> 0 < Steps(s) && StopsAt(b, s, n) && pixels == Plotted(b, Path(s), n)
  {
    if s.from.x == s.to.x && s.from.y == s.to.y {
      pixels, n := if Visible(b, s.from) then [s.from] else [], 0;
    } else {
      IdealLineIsPath(s);
      pixels, n := DrawAlong(b, s, Path(s), Errors(s));
    }
  }

  /** A line between points of the box is drawn whole. */
  lemma {:induction false} InsideIsDrawnWhole(b: Box, s: Segment, k: nat)
    requires s.from != s.to && Visible(b, s.from) && Visible(b, s.to) && k <= Steps(s)
    ensures 0 < Steps(s) && Visible(b, PointAt(s, k)) && !Off(b, PointAt(s, k))
    ensures Plotted(b, Path(s), k) == Path(s)[..k]
  {
    NeverOvershoots(s, k);
    if k > 0 {
      InsideIsDrawnWhole(b, s, k - 1);
      assert Path(s)[k - 1] == PointAt(s, k - 1);
      assert Path(s)[..k] == Path(s)[..k - 1] + [Path(s)[k - 1]];
    }
  }

  // ----- what is missing from a line that is not drawn whole

  lemma {:induction false} AlongGrows(s: Segment, j: nat, k: nat)
    requires 0 < Steps(s) && j <= k
    ensures AlongX(s, j) <= AlongX(s, k) && AlongY(s, j) <= AlongY(s, k)
    decreases k
  {
    if j < k {
      AlongGrows(s, j, k - 1);
      StepsAreSmall(s, k - 1);
    }
  }

  /** The points of a line that do not stop the drawing are contiguous. */
  lemma {:induction false} BetweenIsOn(b: Box, s: Segment, i: nat, j: nat, k: nat)
    requires 0 < Steps(s) && i <= j <= k && !Off(b, PointAt(s, i)) && !Off(b, PointAt(s, k))
    ensures !Off(b, PointAt(s, j))
  {
    AlongGrows(s, i, j);
    AlongGrows(s, j, k);
  }

  lemma {:induction false} PlottedSame(b: Box, path: seq<Point>, i: nat, k: nat)
    requires i <= k <= |path| && forall m :: i <= m < k ==> !Visible(b, path[m])
    ensures Plotted(b, path, k) == Plotted(b, path, i)
    decreases k
  {
    if i < k {
      PlottedSame(b, path, i, k - 1);
      assert Plotted(b, path, k) == Plotted(b, path, k - 1) + [];
    }
  }

  lemma {:induction false} PlottedSome(b: Box, path: seq<Point>, m: nat, k: nat)
    requires m < k <= |path| && Visible(b, path[m])
    ensures Plotted(b, path, k) != []
    decreases k
  {
    if m < k - 1 { PlottedSome(b, path, m, k - 1); }
  }

  /** All visible points of a line but its end are drawn if and only if it does not start off the box, or none of
      them is visible. */
  lemma {:induction false} DrawnWholeIff(b: Box, s: Segment, n: nat)
    requires s.from != s.to && 0 < Steps(s) && StopsAt(b, s, n)
    ensures Plotted(b, Path(s), n) == Plotted(b, Path(s), Steps(s)) <==>
              !Off(b, s.from) || forall k :: 0 <= k < Steps(s) ==> !Visible(b, Path(s)[k])
  {
    var path := Path(s);
    FirstPoint(s);
    assert path[0] == s.from;
    if !Off(b, s.from) {
      forall m | n <= m < Steps(s)
        ensures !Visible(b, path[m])
      {
        if Visible(b, path[m]) { BetweenIsOn(b, s, 0, n, m); }
      }
      PlottedSame(b, path, n, Steps(s));
    } else {
      assert n == 0;
      if m :| 0 <= m < Steps(s) && Visible(b, path[m]) {
        PlottedSome(b, path, m, Steps(s));
      } else {
        PlottedSame(b, path, 0, Steps(s));
      }
    }
  }

  lemma {:induction false} LevelPoint(s: Segment, k: nat)
    requires 0 < Steps(s) && DY(s) == 0
    ensures PointAt(s, k) == Point(Moved(s.from.x, s.to.x, k), s.from.y)
  {
    assert 0 * k == 0;
    RoundedIsNearest(0, DX(s), k, 0);
  }

  lemma {:induction false} UprightPoint(s: Segment, k: nat)
    requires 0 < Steps(s) && DX(s) == 0
    ensures PointAt(s, k) == Point(s.from.x, Moved(s.from.y, s.to.y, k))
  {
    assert 0 * k == 0;
    RoundedIsNearest(0, DY(s), k, 0);
  }

  lemma {:induction false} VisiblePrefix(b: Box, path: seq<Point>, k: nat)
    requires k <= |path| && forall i :: 0 <= i < k ==> Visible(b, path[i])
    ensures Plotted(b, path, k) == path[..k]
  {
    if k > 0 {
      VisiblePrefix(b, path, k - 1);
      assert path[..k] == path[..k - 1] + [path[k - 1]];
    }
  }

  /** A path that leaves the box through its edge behind point `m - 1` and comes to the point behind the edge. */
  lemma {:induction false} StopsBehind(b: Box, s: Segment, n: nat, m: nat)
    requires 0 < Steps(s) && StopsAt(b, s, n) && m < Steps(s)
    requires forall k :: 0 <= k < m ==> Visible(b, Path(s)[k])
    requires !Visible(b, Path(s)[m]) && !Off(b, Path(s)[m]) && Off(b, Path(s)[m + 1])
    ensures n == m + 1 && Plotted(b, Path(s), n) == Path(s)[..m]
  {
    VisiblePrefix(b, Path(s), m);
    PlottedSame(b, Path(s), m, n);
  }

  /** A level line over the right edge is drawn up to it, and stops one column behind the one that is not drawn. */
  lemma {:induction false} RightEdge(b: Box, s: Segment, n: nat)
    requires Visible(b, s.from) && s.from.y == s.to.y && s.to.x > b.width && 0 < Steps(s) && StopsAt(b, s, n)
    ensures n == b.width + 1 - s.from.x && Plotted(b, Path(s), n) == Path(s)[..b.width - s.from.x]
  {
    var m: nat := b.width - s.from.x;
    forall k | 0 <= k <= Steps(s) ensures Path(s)[k] == Point(s.from.x + k, s.from.y) { LevelPoint(s, k); }
    StopsBehind(b, s, n, m);
  }

  /** And an upright line over the lower edge. */
  lemma {:induction false} LowerEdge(b: Box, s: Segment, n: nat)
    requires Visible(b, s.from) && s.from.x == s.to.x && s.to.y > b.height && 0 < Steps(s) && StopsAt(b, s, n)
    ensures n == b.height + 1 - s.from.y && Plotted(b, Path(s), n) == Path(s)[..b.height - s.from.y]
  {
    var m: nat := b.height - s.from.y;
    forall k | 0 <= k <= Steps(s) ensures Path(s)[k] == Point(s.from.x, s.from.y + k) { UprightPoint(s, k); }
    StopsBehind(b, s, n, m);
  }

  /** A level line that starts at -1 has visible points before its end and is not drawn at all, as the line from
      (-1, 0) to (3, 0) over a box of 10 by 10. */
  lemma {:induction false} NegativeStart(b: Box, s: Segment, n: nat)
    requires s.from.x == -1 && s.from.y == s.to.y && 1 <= s.to.x < b.width && 0 <= s.to.y < b.height
    requires 0 < Steps(s) && StopsAt(b, s, n)
    ensures Plotted(b, Path(s), n) == [] && Plotted(b, Path(s), Steps(s)) != []
  {
    var path := Path(s);
    LevelPoint(s, 0);
    LevelPoint(s, 1);
    assert path[0] == Point(-1, s.to.y) && path[1] == Point(0, s.to.y);
    PlottedSome(b, path, 1, Steps(s));
  }
}
