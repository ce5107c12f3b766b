/**
 * The hand-landmark overlay: it keeps the latest landmarks with the source
 * image size and rotation, and on every redraw maps each normalised
 * landmark through the image rotation before scaling it to the view.
 */
module HandOverlay {
  import opened Wrappers
  import KotlinMath

  /** A normalised landmark: both coordinates are in [0,1] for points inside the image. */
  datatype Landmark = Landmark(x: real, y: real)

  /** A hand-skeleton edge between two landmark indices (MediaPipe's `Connection`). */
  datatype Connection = Connection(start: int, end: int)

  /** What a redraw paints, in view pixels. */
  datatype Shape =
    | Line(x0: real, y0: real, x1: real, y1: real)
    | Dot(cx: real, cy: real)

  ghost predicate InUnitSquare(x: real, y: real) {
    0.0 <= x <= 1.0 && 0.0 <= y <= 1.0
  }

  /** `(rotation % 360 + 360) % 360` with Kotlin's truncating `%`. */
  function NormalizeRotation(rotation: int): (n: int)
    ensures 0 <= n < 360
    ensures n == rotation % 360
  {
    var once := KotlinMath.Rem(rotation, 360) + 360;
    KotlinMath.Rem(once, 360)
  }

  /** The coordinate remap selected by the normalised rotation. */
  function Rotated(x: real, y: real, rotation: int): (r: (real, real))
    ensures (r.0 - 0.5) * (r.0 - 0.5) + (r.1 - 0.5) * (r.1 - 0.5) == (x - 0.5) * (x - 0.5) + (y - 0.5) * (y - 0.5)
  {
    match NormalizeRotation(rotation)
    case 90 => (1.0 - y, x)
    case 180 => (1.0 - x, 1.0 - y)
    case 270 => (y, 1.0 - x)
    case _ => (x, y)
  }

  /** One quarter turn of the unit square about its centre. */
  function QuarterTurn(p: (real, real)): (real, real) {
    (1.0 - p.1, p.0)
  }

  /** `k` quarter turns in succession: an independent reference for `Rotated`. */
  function QuarterTurns(p: (real, real), k: nat): (real, real) {
    if k == 0 then p else QuarterTurn(QuarterTurns(p, k - 1))
  }

  /**
   * `Rotated` turns the point by the rotation's number of quarter turns when
   * the rotation is a multiple of 90 degrees, and leaves it alone otherwise.
   */
  lemma {:induction false} RotatedIsQuarterTurns(x: real, y: real, rotation: int)
    ensures NormalizeRotation(rotation) % 90 == 0 ==>
      Rotated(x, y, rotation) == QuarterTurns((x, y), NormalizeRotation(rotation) / 90)
    ensures NormalizeRotation(rotation) % 90 != 0 ==> Rotated(x, y, rotation) == (x, y)
  {
    var n := NormalizeRotation(rotation);
    var p := (x, y);
    assert QuarterTurns(p, 0) == p;
    assert QuarterTurns(p, 1) == (1.0 - y, x);
    assert QuarterTurns(p, 2) == (1.0 - x, 1.0 - y);
    assert QuarterTurns(p, 3) == (y, 1.0 - x);
    if n % 90 == 0 {
      assert n == 0 || n == 90 || n == 180 || n == 270;
    }
  }

  /** Four quarter turns bring a point back to where it was. */
  lemma {:induction false} FourQuarterTurns(p: (real, real), k: nat)
    ensures QuarterTurns(p, k + 4) == QuarterTurns(p, k)
  {
    if k == 0 {
      assert QuarterTurns(p, 1) == (1.0 - p.1, p.0);
      assert QuarterTurns(p, 2) == (1.0 - p.0, 1.0 - p.1);
      assert QuarterTurns(p, 3) == (p.1, 1.0 - p.0);
      assert QuarterTurns(p, 4) == p;
    } else {
      FourQuarterTurns(p, k - 1);
    }
  }

  lemma {:induction false} QuarterTurnsAdd(p: (real, real), i: nat, j: nat)
    ensures QuarterTurns(QuarterTurns(p, i), j) == QuarterTurns(p, i + j)
  {
    if j > 0 {
      QuarterTurnsAdd(p, i, j - 1);
    }
  }

  lemma {:induction false} QuarterTurnsMod(p: (real, real), k: nat)
    ensures QuarterTurns(p, k) == QuarterTurns(p, k % 4)
    decreases k
  {
    if k >= 4 {
      QuarterTurnsMod(p, k - 4);
      FourQuarterTurns(p, k - 4);
      assert (k - 4) % 4 == k % 4;
    }
  }

  /**
   * Rotating by `a` and then by `b`, both multiples of 90 degrees, is the
   * same as rotating by `a + b`; so two half turns, or a quarter turn
   * followed by three more, give the point back.
   */
  lemma RotatedCompose(x: real, y: real, a: int, b: int)
    requires a % 90 == 0 && b % 90 == 0
    ensures var p := Rotated(x, y, a); Rotated(p.0, p.1, b) == Rotated(x, y, a + b)
  {
    var p := Rotated(x, y, a);
    QuarterCountAdd(a, b);
    var ka, kb := QuarterCount(a), QuarterCount(b);
    RotatedIsQuarterTurns(x, y, a);
    RotatedIsQuarterTurns(p.0, p.1, b);
    RotatedIsQuarterTurns(x, y, a + b);
    QuarterTurnsAdd((x, y), ka, kb);
    QuarterTurnsMod((x, y), ka + kb);
  }

  /**
   * For a multiple of 90 degrees, the number of quarter turns its
   * normalised value stands for; these counts add modulo 4.
   */
  lemma QuarterCountAdd(a: int, b: int)
    requires a % 90 == 0 && b % 90 == 0
    ensures NormalizeRotation(a) % 90 == 0 && NormalizeRotation(b) % 90 == 0
    ensures NormalizeRotation(a + b) % 90 == 0
    ensures (QuarterCount(a) + QuarterCount(b)) % 4 == QuarterCount(a + b)
  {
    var qa, qb := a / 90, b / 90;
    QuarterCountOf(a, qa);
    QuarterCountOf(b, qb);
    QuarterCountOf(a + b, qa + qb);
    var ra, rb, d := qa % 4, qb % 4, qa / 4 + qb / 4;
    assert qa + qb == 4 * d + (ra + rb);
    if ra + rb < 4 {
      KotlinMath.ModUnique(qa + qb, 4, d, ra + rb);
      KotlinMath.ModUnique(ra + rb, 4, 0, ra + rb);
    } else {
      KotlinMath.ModUnique(qa + qb, 4, d + 1, ra + rb - 4);
      KotlinMath.ModUnique(ra + rb, 4, 1, ra + rb - 4);
    }
  }

  lemma QuarterCountOf(a: int, q: int)
    requires a == 90 * q
    ensures NormalizeRotation(a) == 90 * (q % 4)
    ensures QuarterCount(a) == q % 4
  {
    assert a == 360 * (q / 4) + 90 * (q % 4);
    KotlinMath.ModUnique(a, 360, q / 4, 90 * (q % 4));
  }

  function QuarterCount(rotation: int): nat {
    NormalizeRotation(rotation) / 90
  }

  lemma HalfTurnTwiceIsIdentity(x: real, y: real)
    ensures var p := Rotated(x, y, 180); Rotated(p.0, p.1, 180) == (x, y)
  {
    RotatedCompose(x, y, 180, 180);
  }

  lemma QuarterThenThreeQuartersIsIdentity(x: real, y: real)
    ensures var p := Rotated(x, y, 90); Rotated(p.0, p.1, 270) == (x, y)
  {
    RotatedCompose(x, y, 90, 270);
  }

  /** Rotations that agree modulo 360 (such as -90 and 270) remap identically. */
  lemma RotatedCongruent(x: real, y: real, r1: int, r2: int)
    requires r1 % 360 == r2 % 360
    ensures Rotated(x, y, r1) == Rotated(x, y, r2)
  {
  }

  /** Every remap keeps a point of the unit square inside it. */
  lemma RotatedStaysInUnitSquare(x: real, y: real, rotation: int)
    requires InUnitSquare(x, y)
    ensures InUnitSquare(Rotated(x, y, rotation).0, Rotated(x, y, rotation).1)
  {
  }

  /** `hand.getOrNull(i)`. */
  function GetOrNull(hand: seq<Landmark>, i: int): (r: Option<Landmark>)
    ensures r.Some? <==> 0 <= i < |hand|
    ensures r.Some? ==> r.value == hand[i]
  {
    if 0 <= i < |hand| then Some(hand[i]) else None
  }

  ghost predicate EndpointsInRange(hand: seq<Landmark>, c: Connection) {
    0 <= c.start < |hand| && 0 <= c.end < |hand|
  }

  /** `drawConnection`: the line it paints, or nothing when an endpoint is missing. */
  function ConnectionLine(hand: seq<Landmark>, c: Connection, rotation: int, scaleX: real, scaleY: real)
    : (r: Option<Shape>)
    ensures r.Some? <==> EndpointsInRange(hand, c)
    ensures r.Some? ==> r.value.Line?
  {
    match (GetOrNull(hand, c.start), GetOrNull(hand, c.end))
    case (Some(s), Some(e)) =>
      var (sx, sy) := Rotated(s.x, s.y, rotation);
      var (ex, ey) := Rotated(e.x, e.y, rotation);
      Some(Line(sx * scaleX, sy * scaleY, ex * scaleX, ey * scaleY))
    case _ => None
  }

  /** How many of `conns` have both endpoints among the hand's landmarks. */
  ghost function InRangeCount(hand: seq<Landmark>, conns: seq<Connection>): nat {
    if conns == [] then 0
    else (if EndpointsInRange(hand, conns[0]) then 1 else 0) + InRangeCount(hand, conns[1..])
  }

  /** The lines of one hand, one per connection whose endpoints exist, in connection order. */
  function ConnectionLines(hand: seq<Landmark>, conns: seq<Connection>, rotation: int, scaleX: real, scaleY: real)
    : (r: seq<Shape>)
    ensures |r| == InRangeCount(hand, conns) <= |conns|
    ensures (forall c :: c in conns ==> EndpointsInRange(hand, c)) ==> |r| == |conns|
    ensures (forall c :: c in conns ==> !EndpointsInRange(hand, c)) ==> r == []
    ensures forall s :: s in r ==> s.Line?
  {
    if conns == [] then []
    else
      var rest := ConnectionLines(hand, conns[1..], rotation, scaleX, scaleY);
      assert forall c :: c in conns[1..] ==> c in conns;
      match ConnectionLine(hand, conns[0], rotation, scaleX, scaleY)
      case Some(l) => [l] + rest
      case None => rest
  }

  /** What one connection contributes to the drawing: its line, or nothing. */
  function LineOf(hand: seq<Landmark>, c: Connection, rotation: int, scaleX: real, scaleY: real): seq<Shape> {
    match ConnectionLine(hand, c, rotation, scaleX, scaleY)
    case Some(l) => [l]
    case None => []
  }

  /**
   * Drawing the connections `a + b` draws the lines of `a`, then those of
   * `b`: each connection contributes its own line independently of the
   * others, in order.
   */
  lemma {:induction false} ConnectionLinesAppend(hand: seq<Landmark>, a: seq<Connection>, b: seq<Connection>,
                                                 rotation: int, scaleX: real, scaleY: real)
    ensures ConnectionLines(hand, a + b, rotation, scaleX, scaleY)
         == ConnectionLines(hand, a, rotation, scaleX, scaleY) + ConnectionLines(hand, b, rotation, scaleX, scaleY)
  {
    if a == [] {
      assert a + b == b;
    } else {
      assert (a + b)[0] == a[0];
      assert (a + b)[1..] == a[1..] + b;
      ConnectionLinesAppend(hand, a[1..], b, rotation, scaleX, scaleY);
    }
  }

  /**
   * The drawing of a hand's connections is, connection by connection in
   * order, the line `drawConnection` paints for it, if any.
   */
  lemma ConnectionLinesSnoc(hand: seq<Landmark>, conns: seq<Connection>, c: Connection,
                            rotation: int, scaleX: real, scaleY: real)
    ensures ConnectionLines(hand, conns + [c], rotation, scaleX, scaleY)
         == ConnectionLines(hand, conns, rotation, scaleX, scaleY) + LineOf(hand, c, rotation, scaleX, scaleY)
  {
    ConnectionLinesAppend(hand, conns, [c], rotation, scaleX, scaleY);
    assert [c][1..] == [];
  }

  /** The landmark dots of one hand, one per landmark. */
  function Dots(hand: seq<Landmark>, rotation: int, scaleX: real, scaleY: real): (r: seq<Shape>)
    ensures |r| == |hand|
    ensures forall i :: 0 <= i < |hand| ==> r[i] == LandmarkDot(hand[i], rotation, scaleX, scaleY)
  {
    seq(|hand|, i requires 0 <= i < |hand| => LandmarkDot(hand[i], rotation, scaleX, scaleY))
  }

  /** The dot painted for one landmark: its rotated position scaled to the view. */
  function LandmarkDot(lm: Landmark, rotation: int, scaleX: real, scaleY: real): (r: Shape)
    ensures r.Dot?
  {
    var (nx, ny) := Rotated(lm.x, lm.y, rotation);
    Dot(nx * scaleX, ny * scaleY)
  }

  /** Every hand's connections, then its landmarks, hand after hand. */
  function HandShapes(hands: seq<seq<Landmark>>, conns: seq<Connection>, rotation: int, scaleX: real, scaleY: real)
    : seq<Shape>
  {
    if hands == [] then []
    else
      ConnectionLines(hands[0], conns, rotation, scaleX, scaleY)
        + Dots(hands[0], rotation, scaleX, scaleY)
        + HandShapes(hands[1..], conns, rotation, scaleX, scaleY)
  }

  /** `onDraw`: nothing when there is no hand or a source dimension is 0. */
  function DrawPlan(hands: seq<seq<Landmark>>, sourceWidth: int, sourceHeight: int, rotation: int,
                    conns: seq<Connection>, viewWidth: real, viewHeight: real): (r: seq<Shape>)
    ensures hands == [] || sourceWidth == 0 || sourceHeight == 0 ==> r == []
  {
    if hands == [] || sourceWidth == 0 || sourceHeight == 0 then []
    else HandShapes(hands, conns, rotation, viewWidth, viewHeight)
  }

  /** Number of dots in a plan. */
  function DotCount(shapes: seq<Shape>): nat {
    if shapes == [] then 0 else (if shapes[0].Dot? then 1 else 0) + DotCount(shapes[1..])
  }

  function TotalLandmarks(hands: seq<seq<Landmark>>): nat {
    if hands == [] then 0 else |hands[0]| + TotalLandmarks(hands[1..])
  }

  lemma {:induction false} DotCountAppend(a: seq<Shape>, b: seq<Shape>)
    ensures DotCount(a + b) == DotCount(a) + DotCount(b)
  {
    if a == [] {
      assert a + b == b;
    } else {
      assert (a + b)[0] == a[0];
      assert (a + b)[1..] == a[1..] + b;
      DotCountAppend(a[1..], b);
    }
  }

  lemma {:induction false} DotCountOfLines(s: seq<Shape>)
    requires forall x :: x in s ==> x.Line?
    ensures DotCount(s) == 0
  {
    if s != [] {
      assert s[0] in s;
      assert forall x :: x in s[1..] ==> x in s;
      DotCountOfLines(s[1..]);
    }
  }

  lemma {:induction false} DotCountOfDots(s: seq<Shape>)
    requires forall i :: 0 <= i < |s| ==> s[i].Dot?
    ensures DotCount(s) == |s|
  {
    if s != [] {
      DotCountOfDots(s[1..]);
    }
  }

  /**
   * When a redraw paints anything, it paints exactly one dot per landmark of
   * every hand, whatever the connections are.
   */
  lemma {:induction false} DrawPlanDotsPerLandmark(hands: seq<seq<Landmark>>, conns: seq<Connection>,
                                                 rotation: int, scaleX: real, scaleY: real)
    ensures DotCount(HandShapes(hands, conns, rotation, scaleX, scaleY)) == TotalLandmarks(hands)
  {
    if hands != [] {
      var lines := ConnectionLines(hands[0], conns, rotation, scaleX, scaleY);
      var dots := Dots(hands[0], rotation, scaleX, scaleY);
      var rest := HandShapes(hands[1..], conns, rotation, scaleX, scaleY);
      DotCountAppend(lines + dots, rest);
      DotCountAppend(lines, dots);
      DotCountOfLines(lines);
      DotCountOfDots(dots);
      DrawPlanDotsPerLandmark(hands[1..], conns, rotation, scaleX, scaleY);
    }
  }

  /** The view's state: the fields `update` writes and `onDraw` reads. */
  class HandOverlayView {
    var latestHands: seq<seq<Landmark>>
    var sourceWidth: int
    var sourceHeight: int
    var rotationDegrees: int

    constructor ()
      ensures latestHands == [] && sourceWidth == 1 && sourceHeight == 1 && rotationDegrees == 0
    {
      latestHands := [];
      sourceWidth := 1;
      sourceHeight := 1;
      rotationDegrees := 0;
    }

    /** `update`: stores the result's landmarks, the source size and the rotation. */
    method Update(hands: seq<seq<Landmark>>, width: int, height: int, rotation: int)
      modifies this
      ensures latestHands == hands && sourceWidth == width && sourceHeight == height
      ensures rotationDegrees == rotation
    {
      latestHands := hands;
      sourceWidth := width;
      sourceHeight := height;
      rotationDegrees := rotation;
    }

    /** What the next redraw paints from the stored state. */
    function Plan(conns: seq<Connection>, viewWidth: real, viewHeight: real): (r: seq<Shape>)
      reads this
      ensures latestHands != [] && sourceWidth != 0 && sourceHeight != 0 ==>
        DotCount(r) == TotalLandmarks(latestHands)
      ensures latestHands == [] ==> r == []
    {
      DrawPlanDotsPerLandmark(latestHands, conns, rotationDegrees, viewWidth, viewHeight);
      DrawPlan(latestHands, sourceWidth, sourceHeight, rotationDegrees, conns, viewWidth, viewHeight)
    }
  }
}
