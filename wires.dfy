/** The day-3 wire path builder: move tokens become the list of grid
    turning points a wire passes through, starting at the central port. */
module Wires {
  import opened Wrappers

  datatype Point = Point(x: int, y: int)

  /** A parsed move token such as `R8`: a direction letter and a distance. */
  datatype Move = Move(dir: char, dist: int)

  /** The outcome of building a wire: its turning points, or the first
      direction letter that is not R, L, U or D. */
  datatype LineResult = Line(points: seq<Point>) | UnexpectedDirection(dir: char)

  const Origin := Point(0, 0)

  predicate KnownDirection(c: char) {
    c == 'R' || c == 'L' || c == 'U' || c == 'D'
  }

  /** The point one move away from `p`. R and U move in the positive
      direction of x and y, L and D in the negative one; the other
      coordinate stays. */
  function Translate(p: Point, m: Move): (r: Option<Point>)
    ensures r.Some? <==> KnownDirection(m.dir)
    ensures r.Some? && (m.dir == 'R' || m.dir == 'L') ==> r.value.y == p.y && r.value.x - p.x == (if m.dir == 'R' then m.dist else -m.dist)
    ensures r.Some? && (m.dir == 'U' || m.dir == 'D') ==> r.value.x == p.x && r.value.y - p.y == (if m.dir == 'U' then m.dist else -m.dist)
  {
    match m.dir
    case 'R' => Some(Point(p.x + m.dist, p.y))
    case 'L' => Some(Point(p.x - m.dist, p.y))
    case 'U' => Some(Point(p.x, p.y + m.dist))
    case 'D' => Some(Point(p.x, p.y - m.dist))
    case _ => None
  }

  /** The turning points of a wire. Each point is the previous one moved by
      the next token, so the definition peels the last token off. */
  function TurningPoints(moves: seq<Move>): (r: LineResult)
    ensures r.Line? ==> |r.points| == |moves| + 1 && r.points[0] == Origin
  {
    if moves == [] then Line([Origin])
    else
      match TurningPoints(moves[..|moves| - 1])
      case UnexpectedDirection(c) => UnexpectedDirection(c)
      case Line(points) =>
        match Translate(points[|points| - 1], moves[|moves| - 1])
        case None => UnexpectedDirection(moves[|moves| - 1].dir)
        case Some(p) => Line(points + [p])
  }

  /** The total distance of the moves whose direction letter is `c`. */
  function SumDist(moves: seq<Move>, c: char): int {
    if moves == [] then 0
    else SumDist(moves[..|moves| - 1], c) + (if moves[|moves| - 1].dir == c then moves[|moves| - 1].dist else 0)
  }

  /** Which coordinate differs between two points: 1 when only y differs,
      0 when only x differs. Equal points and points that differ in both
      coordinates are an error. */
  function ChangingIndex(a: Point, b: Point): (r: Option<nat>)
    ensures r == Some(1) <==> a.x == b.x && a.y != b.y
    ensures r == Some(0) <==> a.y == b.y && a.x != b.x
    ensures r.None? <==> a == b || (a.x != b.x && a.y != b.y)
  {
    if a.x == b.x then
      if a.y != b.y then Some(1) else None
    else if a.y == b.y then Some(0)
    else None
  }

  /** The loop of the source: append the moved point, token by token. */
  method MakeLine(directions: seq<Move>) returns (r: LineResult)
    ensures r == TurningPoints(directions)
  {
    var line := [Origin];
    var previous := Origin;
    for i := 0 to |directions|
      invariant TurningPoints(directions[..i]) == Line(line)
      invariant previous == line[|line| - 1]
    {
      var d := directions[i];
      if d.dir == 'R' {
        previous := Point(previous.x + d.dist, previous.y);
      } else if d.dir == 'L' {
        previous := Point(previous.x - d.dist, previous.y);
      } else if d.dir == 'U' {
        previous := Point(previous.x, previous.y + d.dist);
      } else if d.dir == 'D' {
        previous := Point(previous.x, previous.y - d.dist);
      } else {
        assert directions[..i + 1][..i] == directions[..i];
        assert TurningPoints(directions[..i + 1]) == UnexpectedDirection(d.dir);
        TurningPointsErrorSticks(directions, i + 1);
        return UnexpectedDirection(d.dir);
      }
      assert directions[..i + 1][..i] == directions[..i];
      line := line + [previous];
    }
    assert directions[..|directions|] == directions;
    r := Line(line);
  }

  /** Once a prefix of the tokens fails, the whole list fails with the same letter. */
  lemma {:induction false} TurningPointsErrorSticks(moves: seq<Move>, k: nat)
    requires k <= |moves| && TurningPoints(moves[..k]).UnexpectedDirection?
    ensures TurningPoints(moves) == TurningPoints(moves[..k])
    decreases |moves| - k
  {
    if k < |moves| {
      assert moves[..k + 1][..k] == moves[..k];
      TurningPointsErrorSticks(moves, k + 1);
    } else {
      assert moves[..k] == moves;
    }
  }

  /** The points for a prefix of the tokens are a prefix of the points. */
  lemma {:induction false} TurningPointsPrefix(moves: seq<Move>, k: nat)
    requires k <= |moves| && TurningPoints(moves).Line?
    ensures TurningPoints(moves[..k]) == Line(TurningPoints(moves).points[..k + 1])
    decreases |moves|
  {
    if k == |moves| {
      assert moves[..k] == moves;
    } else {
      var init := moves[..|moves| - 1];
      assert moves[..k] == init[..k];
      TurningPointsPrefix(init, k);
    }
  }

  /** Every point after the first is its predecessor moved by the token at
      the same position. */
  lemma TurningPointsStep(moves: seq<Move>, i: nat)
    requires i < |moves| && TurningPoints(moves).Line?
    ensures Translate(TurningPoints(moves).points[i], moves[i]) == Some(TurningPoints(moves).points[i + 1])
  {
    TurningPointsPrefix(moves, i + 1);
    var pre := moves[..i + 1];
    assert pre[..|pre| - 1] == moves[..i];
    TurningPointsPrefix(moves, i);
  }

  /** The line builds exactly when every direction letter is known; when it
      does not, the error names the first unknown letter. */
  lemma {:induction false} TurningPointsSucceeds(moves: seq<Move>)
    ensures TurningPoints(moves).Line? <==> forall i :: 0 <= i < |moves| ==> KnownDirection(moves[i].dir)
    ensures TurningPoints(moves).UnexpectedDirection? ==>
      exists i :: 0 <= i < |moves| && !KnownDirection(moves[i].dir) && TurningPoints(moves).dir == moves[i].dir
        && forall j :: 0 <= j < i ==> KnownDirection(moves[j].dir)
  {
    if moves != [] {
      var init := moves[..|moves| - 1];
      TurningPointsSucceeds(init);
      assert forall i :: 0 <= i < |init| ==> init[i] == moves[i];
    }
  }

  /** The wire ends at (sum of R - sum of L, sum of U - sum of D) of the distances. */
  lemma {:induction false} TurningPointsEnd(moves: seq<Move>)
    requires TurningPoints(moves).Line?
    ensures TurningPoints(moves).points[|moves|] ==
      Point(SumDist(moves, 'R') - SumDist(moves, 'L'), SumDist(moves, 'U') - SumDist(moves, 'D'))
  {
    if moves != [] {
      TurningPointsEnd(moves[..|moves| - 1]);
    }
  }

  /** Between consecutive points of a wire, a horizontal token of nonzero
      distance changes coordinate 0 and a vertical one coordinate 1; a
      token of distance zero leaves a segment with no changing coordinate. */
  lemma TurningPointsChangingIndex(moves: seq<Move>, i: nat)
    requires i < |moves| && TurningPoints(moves).Line?
    ensures var pts := TurningPoints(moves).points;
      ChangingIndex(pts[i], pts[i + 1]) ==
        if moves[i].dist == 0 then None
        else if moves[i].dir == 'R' || moves[i].dir == 'L' then Some(0)
        else Some(1)
  {
    TurningPointsStep(moves, i);
  }

  /** The example the source checks itself against. */
  lemma TurningPointsExample()
    ensures TurningPoints([Move('R', 5), Move('U', 17), Move('L', 3)])
      == Line([Point(0, 0), Point(5, 0), Point(5, 17), Point(2, 17)])
  {
    var ms := [Move('R', 5), Move('U', 17), Move('L', 3)];
    assert ms[..2][..1] == ms[..1] && ms[..1][..0] == [];
    assert TurningPoints(ms[..1]) == Line([Point(0, 0), Point(5, 0)]);
    assert TurningPoints(ms[..2]) == Line([Point(0, 0), Point(5, 0), Point(5, 17)]);
  }
}
