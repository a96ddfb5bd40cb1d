/** Movement and contact resolution of one game entity. Each tick recomputes
    the entity's integer bounding edges, zeroes the velocity on an axis where
    the entity is blocked (by a world bound or an adjacent solid tile), and then
    integrates the position with the velocity that is left. Two entities collide
    when their bounding rectangles overlap. */
module Kinematics {

  /** The horizontal world bounds the clamp compares the position against. */
  const WorldMinX: real := 0.0
  const WorldMaxX: real := 950.0

  /** An (int) cast of a coordinate: truncation toward zero. */
  function Trunc(r: real): (t: int)
    ensures 0.0 <= r ==> t as real <= r < t as real + 1.0
    ensures r < 0.0 ==> t as real - 1.0 < r <= t as real
  {
    if r >= 0.0 then r.Floor else -((-r).Floor)
  }

  /** Truncation agrees with flooring except on negative non-integers. */
  lemma TruncVersusFloor(r: real)
    ensures Trunc(r) == r.Floor <==> 0.0 <= r || r == r.Floor as real
  {
  }

  /** Integer bounding edges of an entity. */
  datatype Box = Box(left: int, right: int, top: int, bottom: int)

  /** The tile-adjacency probes of an entity variant: each asks whether a solid
      tile is next to one side of the given bounding edges. */
  datatype TileContact = TileContact(above: Box -> bool, below: Box -> bool, toLeft: Box -> bool, toRight: Box -> bool)

  /** The entity moves horizontally toward a world bound it has already passed,
      or toward a solid tile next to it. */
  predicate HorizontallyBlocked(x: real, dx: real, tileLeft: bool, tileRight: bool)
  {
    || (dx < 0.0 && (x < WorldMinX || tileLeft))
    || (dx > 0.0 && (x > WorldMaxX || tileRight))
  }

  /** The horizontal velocity after the ordered clamp cascade. */
  function ClampHorizontal(x: real, dx: real, tileLeft: bool, tileRight: bool): (r: real)
    ensures r == 0.0 || r == dx
    ensures r == 0.0 <==> dx == 0.0 || HorizontallyBlocked(x, dx, tileLeft, tileRight)
  {
    if dx < 0.0 && x < WorldMinX then 0.0
    else if dx > 0.0 && x > WorldMaxX then 0.0
    else if dx < 0.0 && tileLeft then 0.0
    else if dx > 0.0 && tileRight then 0.0
    else dx
  }

  /** The vertical velocity after the clamp, and whether the controller was told
      that the jump has ended. */
  datatype VerticalOutcome = VerticalOutcome(dy: real, stopJumping: bool)

  function ClampVertical(dy: real, tileAbove: bool, tileBelow: bool, jumping: bool): (r: VerticalOutcome)
    ensures r.stopJumping <==> dy < 0.0 && tileAbove
    ensures r.dy == 0.0 || r.dy == dy
    ensures r.dy == 0.0 <==> dy == 0.0 || (dy < 0.0 && tileAbove) || (tileBelow && !jumping)
  {
    if dy < 0.0 && tileAbove then VerticalOutcome(0.0, true)
    else if tileBelow && !jumping then VerticalOutcome(0.0, false)
    else VerticalOutcome(dy, false)
  }

  /** Advances a coordinate by `delta` milliseconds at `v` units per second. */
  function Integrate(p: real, delta: int, v: real): (q: real)
    ensures v == 0.0 || delta == 0 ==> q == p
    ensures 0 <= delta && 0.0 <= v ==> p <= q
    ensures 0 <= delta && v <= 0.0 ==> q <= p
  {
    p + (delta as real * v) / 1000.0
  }

  /** At a constant velocity, two ticks of t1 and t2 milliseconds move as far as
      one tick of t1 + t2 milliseconds. */
  lemma IntegrateSplit(p: real, t1: int, t2: int, v: real)
    ensures Integrate(Integrate(p, t1, v), t2, v) == Integrate(p, t1 + t2, v)
  {
  }

  /** An axis-aligned rectangle with integer corner and size. */
  datatype Rect = Rect(x: int, y: int, width: int, height: int)

  /** The unit cell at (px, py) lies inside `r`. */
  predicate Contains(r: Rect, px: int, py: int)
  {
    r.x <= px < r.x + r.width && r.y <= py < r.y + r.height
  }

  /** Rectangle intersection: both rectangles are non-empty and they overlap
      strictly on both axes (rectangles that only touch do not intersect). */
  predicate Intersects(a: Rect, b: Rect)
  {
    && a.width > 0 && a.height > 0 && b.width > 0 && b.height > 0
    && a.x < b.x + b.width && b.x < a.x + a.width
    && a.y < b.y + b.height && b.y < a.y + a.height
  }

  /** Two rectangles intersect exactly when some unit cell lies in both. */
  lemma IntersectsIffCommonCell(a: Rect, b: Rect)
    ensures Intersects(a, b) <==> exists px, py :: Contains(a, px, py) && Contains(b, px, py)
  {
    if Intersects(a, b) {
      var px := if a.x < b.x then b.x else a.x;
      var py := if a.y < b.y then b.y else a.y;
      assert Contains(a, px, py) && Contains(b, px, py);
    }
  }

  class Entity {
    var x: real   // position; + is right, + is down
    var y: real
    var dx: real  // velocity in units per second
    var dy: real
    var left: int
    var right: int
    var top: int
    var bottom: int
    const spriteWidth: nat
    const spriteHeight: nat

    /** An entity at an integer position, at rest, with the given sprite size. */
    constructor (newX: int, newY: int, spriteWidth: nat, spriteHeight: nat)
      ensures x == newX as real && y == newY as real
      ensures dx == 0.0 && dy == 0.0
      ensures left == 0 && right == 0 && top == 0 && bottom == 0
      ensures this.spriteWidth == spriteWidth && this.spriteHeight == spriteHeight
    {
      x, y := newX as real, newY as real;
      dx, dy := 0.0, 0.0;
      left, right, top, bottom := 0, 0, 0, 0;
      this.spriteWidth, this.spriteHeight := spriteWidth, spriteHeight;
    }

    function Edges(): Box
      reads this
    {
      Box(left, right, top, bottom)
    }

    /** One tick of `delta` milliseconds. The probes are asked about the edges
        recomputed at the start of the tick; `jumping` is the controller's jump
        state and `stoppedJumping` reports whether the controller was told that
        the jump has ended. */
    method Move(delta: int, contact: TileContact, jumping: bool) returns (stoppedJumping: bool)
      modifies this
      ensures left == Trunc(old(x)) && right == left + spriteWidth
      ensures top == Trunc(old(y)) && bottom == top + spriteHeight
      ensures dx == ClampHorizontal(old(x), old(dx), contact.toLeft(Edges()), contact.toRight(Edges()))
      ensures VerticalOutcome(dy, stoppedJumping)
              == ClampVertical(old(dy), contact.above(Edges()), contact.below(Edges()), jumping)
      ensures x == Integrate(old(x), delta, dx) && y == Integrate(old(y), delta, dy)
    {
      left := Trunc(x);
      right := left + spriteWidth;
      top := Trunc(y);
      bottom := top + spriteHeight;
      var box := Edges();
      if dx < 0.0 && x < WorldMinX {
        dx := 0.0;
      } else if dx > 0.0 && x > WorldMaxX {
        dx := 0.0;
      } else if dx < 0.0 && contact.toLeft(box) {
        dx := 0.0;
      } else if dx > 0.0 && contact.toRight(box) {
        dx := 0.0;
      }
      stoppedJumping := false;
      if dy < 0.0 && contact.above(box) {
        dy := 0.0;
        stoppedJumping := true;
      } else if contact.below(box) && !jumping {
        dy := 0.0;
      }
      x := x + (delta as real * dx) / 1000.0;
      y := y + (delta as real * dy) / 1000.0;
    }

    method SetHorizontalMovement(newDX: real)
      modifies this`dx
      ensures GetHorizontalMovement() == newDX
    {
      dx := newDX;
    }

    method SetVerticalMovement(newDY: real)
      modifies this`dy
      ensures GetVerticalMovement() == newDY
    {
      dy := newDY;
    }

    /** The horizontal velocity. */
    function GetHorizontalMovement(): (v: real)
      reads this
      ensures v == dx
    {
      dx
    }

    /** The vertical velocity. */
    function GetVerticalMovement(): (v: real)
      reads this
      ensures v == dy
    {
      dy
    }

    /** The x position cast to an integer. */
    function GetX(): (px: int)
      reads this
      ensures px == Trunc(x)
    {
      Trunc(x)
    }

    /** The y position cast to an integer. */
    function GetY(): (py: int)
      reads this
      ensures py == Trunc(y)
    {
      Trunc(y)
    }

    /** The rectangle used for collisions: integer position, sprite size. */
    function Bounds(): Rect
      reads this
    {
      Rect(GetX(), GetY(), spriteWidth, spriteHeight)
    }

    /** This entity's rectangle and the other's share a unit cell. */
    function CollidesWith(other: Entity): (r: bool)
      reads this, other
      ensures r <==> exists px, py :: Contains(Bounds(), px, py) && Contains(other.Bounds(), px, py)
    {
      IntersectsIffCommonCell(Bounds(), other.Bounds());
      Intersects(Bounds(), other.Bounds())
    }
  }

  /** Collision is symmetric. */
  lemma CollidesWithSymmetric(a: Entity, b: Entity)
    ensures a.CollidesWith(b) == b.CollidesWith(a)
  {
  }

  /** An entity past the right world bound and moving right stops, whatever
      the tiles around it and however long the tick. */
  lemma RightBoundStops(x: real, dx: real, tileLeft: bool, tileRight: bool)
    requires x > WorldMaxX && dx > 0.0
    ensures ClampHorizontal(x, dx, tileLeft, tileRight) == 0.0
  {
  }
}
