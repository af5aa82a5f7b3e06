/**
 * Axis-aligned box physics: explicit-Euler kinematics with contact-driven
 * velocity clamping, followed by one sequential collision-resolution pass
 * over a caller-owned array of entities.
 *
 * The pass is specified on values: each array entry is seen as a `Body`,
 * and `ResolveAll` folds `ResolvePair` over the entries in array order, so
 * that a push made against one entry is visible to the tests against the
 * entries after it.
 */
module Physics {
  import opened Common
  import opened Vectors

  const PIXELS_PER_METER: real := 64.0
  const NANOS_PER_SECOND: real := 1000000000.0

  datatype Vec = Vec(x: real, y: real)

  /** The default (and only) acceleration of an entity, in metres per second squared. */
  const Gravity: Vec := Vec(0.0, 9.81)

  /** The four contact flags. */
  datatype Contacts = Contacts(top: bool, right: bool, bottom: bool, left: bool)

  const NoContacts: Contacts := Contacts(false, false, false, false)

  datatype Side = Top | Right | Bottom | Left

  function Raise(c: Contacts, side: Side): Contacts
  {
    match side
    case Top => c.(top := true)
    case Right => c.(right := true)
    case Bottom => c.(bottom := true)
    case Left => c.(left := true)
  }

  /** What the pass reads of another entity. */
  datatype Body = Body(collidable: bool, id: int32, position: Vec, size: Vec)

  /** The part of an entity's state that the resolution pass changes. */
  datatype Resolved = Resolved(position: Vec, contacts: Contacts)

  /** The part of an entity's state that `update` changes. */
  datatype Motion = Motion(position: Vec, velocity: Vec, contacts: Contacts, lastEpoch: int, deltaTime: real)

  function Abs(r: real): real
  {
    if r < 0.0 then -r else r
  }

  function Min(a: real, b: real): real
  {
    if a <= b then a else b
  }

  // ---------------------------------------------------------------------
  // Overlap and penetration depth
  // ---------------------------------------------------------------------

  /** The overlap test of `checkOverlapping`: closed boxes, so shared edges count. */
  predicate Overlapping(p: Vec, s: Vec, q: Vec, t: Vec)
  {
    && p.x <= q.x + t.x
    && p.x + s.x >= q.x
    && p.y <= q.y + t.y
    && p.y + s.y >= q.y
  }

  function Center(p: Vec, s: Vec): Vec
  {
    Vec(p.x + s.x / 2.0, p.y + s.y / 2.0)
  }

  /** Penetration depth per axis: half extents minus the distance between centres. */
  function Depth(p: Vec, s: Vec, q: Vec, t: Vec): Vec
  {
    var c := Center(p, s);
    var oc := Center(q, t);
    Vec(s.x / 2.0 + t.x / 2.0 - Abs(c.x - oc.x), s.y / 2.0 + t.y / 2.0 - Abs(c.y - oc.y))
  }

  /** The point (x, y) lies in the closed box at corner p with extent s. */
  ghost predicate InBox(p: Vec, s: Vec, x: real, y: real)
  {
    p.x <= x <= p.x + s.x && p.y <= y <= p.y + s.y
  }

  /** For boxes of non-negative size, the overlap test holds exactly when the two closed boxes share a point. */
  lemma OverlappingIffSharedPoint(p: Vec, s: Vec, q: Vec, t: Vec)
    requires s.x >= 0.0 && s.y >= 0.0 && t.x >= 0.0 && t.y >= 0.0
    ensures Overlapping(p, s, q, t) <==> exists x, y :: InBox(p, s, x, y) && InBox(q, t, x, y)
  {
    if Overlapping(p, s, q, t) {
      var x := if p.x < q.x then q.x else p.x;
      var y := if p.y < q.y then q.y else p.y;
      assert InBox(p, s, x, y) && InBox(q, t, x, y);
    }
  }

  /** Two boxes side by side, sharing only an edge, count as overlapping. */
  lemma EdgeContactOverlaps(p: Vec, s: Vec, t: Vec)
    requires s.x >= 0.0 && s.y >= 0.0 && t.x >= 0.0 && t.y >= 0.0
    ensures Overlapping(p, s, Vec(p.x + s.x, p.y), t)
    ensures Overlapping(p, s, Vec(p.x, p.y + s.y), t)
  {
  }

  /** Overlapping means both penetration depths are non-negative, and conversely, whatever the sizes. */
  lemma OverlappingIffDepthNonNegative(p: Vec, s: Vec, q: Vec, t: Vec)
    ensures Overlapping(p, s, q, t) <==> Depth(p, s, q, t).x >= 0.0 && Depth(p, s, q, t).y >= 0.0
  {
  }

  // ---------------------------------------------------------------------
  // The resolution pass
  // ---------------------------------------------------------------------

  /** Entries the pass ignores: non-collidable ones, and those with the entity's own id. */
  predicate Skipped(other: Body, selfId: int32)
  {
    !other.collidable || other.id == selfId
  }

  /** Every flag raised in `small` is raised in `big`. */
  ghost predicate ContactsInclude(big: Contacts, small: Contacts)
  {
    (small.top ==> big.top) && (small.right ==> big.right)
    && (small.bottom ==> big.bottom) && (small.left ==> big.left)
  }

  /** One loop iteration of `resolveCollisions`, against one array entry. */
  function ResolvePair(r: Resolved, size: Vec, selfId: int32, other: Body): Resolved
  {
    if Skipped(other, selfId) || !Overlapping(r.position, size, other.position, other.size) then r
    else
      var p := r.position;
      var d := Depth(p, size, other.position, other.size);
      if d.x < d.y then
        if p.x < other.position.x then Resolved(Vec(p.x - d.x, p.y), Raise(r.contacts, Right))
        else Resolved(Vec(p.x + d.x, p.y), Raise(r.contacts, Left))
      else if d.x > d.y then
        if p.y < other.position.y then Resolved(Vec(p.x, p.y - d.y), Raise(r.contacts, Bottom))
        else Resolved(Vec(p.x, p.y + d.y), Raise(r.contacts, Top))
      else r
  }

  /** The loop of `resolveCollisions` over the entries, in array order, starting from `start`. */
  function ResolveAll(start: Resolved, size: Vec, selfId: int32, others: seq<Body>): Resolved
    decreases |others|
  {
    if others == [] then start
    else ResolvePair(ResolveAll(start, size, selfId, others[..|others| - 1]), size, selfId, others[|others| - 1])
  }

  /** `resolveCollisions`: clear the four flags, then run the loop. */
  function ResolvePass(position: Vec, size: Vec, selfId: int32, others: seq<Body>): Resolved
  {
    ResolveAll(Resolved(position, NoContacts), size, selfId, others)
  }

  /** An entry that the pair step acts on when the entity is at `p`. */
  predicate Engages(p: Vec, size: Vec, selfId: int32, other: Body)
  {
    !Skipped(other, selfId) && Overlapping(p, size, other.position, other.size)
  }

  /**
   * Against an engaging entry, the pair step corrects the axis of strictly
   * smaller depth, by exactly that depth, in the direction given by comparing
   * top-left corners, and raises exactly the flag of that direction; the other
   * coordinate is kept. On equal depths, and against any entry it does not
   * engage, nothing changes.
   */
  lemma ResolvePairEffect(r: Resolved, size: Vec, selfId: int32, other: Body)
    ensures var d := Depth(r.position, size, other.position, other.size);
            var n := ResolvePair(r, size, selfId, other);
            && (!Engages(r.position, size, selfId, other) || d.x == d.y ==> n == r)
            && (Engages(r.position, size, selfId, other) && d.x < d.y ==>
                  && n.position.y == r.position.y
                  && n.position.x == (if r.position.x < other.position.x then r.position.x - d.x else r.position.x + d.x)
                  && n.contacts == Raise(r.contacts, if r.position.x < other.position.x then Right else Left))
            && (Engages(r.position, size, selfId, other) && d.y < d.x ==>
                  && n.position.x == r.position.x
                  && n.position.y == (if r.position.y < other.position.y then r.position.y - d.y else r.position.y + d.y)
                  && n.contacts == Raise(r.contacts, if r.position.y < other.position.y then Bottom else Top))
  {
  }

  /** Against an engaging entry with unequal depths, the push moves the entity by exactly the smaller depth. */
  lemma PushDistanceIsSmallerDepth(r: Resolved, size: Vec, selfId: int32, other: Body)
    requires Engages(r.position, size, selfId, other)
    ensures var d := Depth(r.position, size, other.position, other.size);
            var n := ResolvePair(r, size, selfId, other);
            d.x != d.y ==> Abs(n.position.x - r.position.x) + Abs(n.position.y - r.position.y) == Min(d.x, d.y)
  {
    OverlappingIffDepthNonNegative(r.position, size, other.position, other.size);
  }

  /**
   * When the two boxes are equally wide, a push along x leaves them in exact
   * edge contact: the x depth becomes zero and the overlap test still holds
   * (resting contacts are resolved again on every pass).
   */
  lemma EqualWidthPushLeavesEdgeContact(r: Resolved, size: Vec, selfId: int32, other: Body)
    requires Engages(r.position, size, selfId, other)
    requires size.x == other.size.x
    requires Depth(r.position, size, other.position, other.size).x < Depth(r.position, size, other.position, other.size).y
    ensures var n := ResolvePair(r, size, selfId, other);
            && Depth(n.position, size, other.position, other.size).x == 0.0
            && Overlapping(n.position, size, other.position, other.size)
  {
  }

  /** The same for a push along y between boxes of equal height. */
  lemma EqualHeightPushLeavesEdgeContact(r: Resolved, size: Vec, selfId: int32, other: Body)
    requires Engages(r.position, size, selfId, other)
    requires size.y == other.size.y
    requires Depth(r.position, size, other.position, other.size).x > Depth(r.position, size, other.position, other.size).y
    ensures var n := ResolvePair(r, size, selfId, other);
            && Depth(n.position, size, other.position, other.size).y == 0.0
            && Overlapping(n.position, size, other.position, other.size)
  {
  }

  /**
   * A box resting exactly on top of another (zero y depth, positive x depth)
   * is not moved, and the pass raises its bottom flag: this is how the
   * "grounded" flag stays set while an entity stands on a surface.
   */
  lemma RestingContactRaisesFlagOnly(r: Resolved, size: Vec, selfId: int32, other: Body)
    requires other.collidable && other.id != selfId
    requires size.y > 0.0 && other.size.y >= 0.0
    requires r.position.y + size.y == other.position.y
    requires Depth(r.position, size, other.position, other.size).x > 0.0
    ensures ResolvePair(r, size, selfId, other) == Resolved(r.position, Raise(r.contacts, Bottom))
  {
  }

  /**
   * The push direction compares top-left corners, not centres. For boxes of
   * different widths this can push an entity deeper into the other box: here a
   * wide box whose centre is right of a narrow box's is pushed further left.
   */
  lemma TopLeftComparisonCanDeepenOverlap()
    ensures var size := Vec(100.0, 100.0);
            var other := Body(true, 1, Vec(10.0, 40.0), Vec(10.0, 10.0));
            var n := ResolvePair(Resolved(Vec(0.0, 0.0), NoContacts), size, 0, other);
            && Depth(Vec(0.0, 0.0), size, other.position, other.size).x == 20.0
            && n == Resolved(Vec(-20.0, 0.0), Raise(NoContacts, Right))
            && Depth(n.position, size, other.position, other.size).x == 40.0
  {
  }

  /** One more entry of the array extends the fold by one pair step. */
  lemma ResolveAllStep(start: Resolved, size: Vec, selfId: int32, others: seq<Body>, i: nat)
    requires i < |others|
    ensures ResolveAll(start, size, selfId, others[..i + 1])
            == ResolvePair(ResolveAll(start, size, selfId, others[..i]), size, selfId, others[i])
  {
    assert others[..i + 1][..i] == others[..i];
  }

  /**
   * If no entry engages the entity at its starting position, the pass leaves
   * the position and the flags as they were. In particular an array holding
   * only the entity itself, or only non-collidable entities, changes nothing.
   */
  lemma {:induction false} ResolveAllWithoutContact(start: Resolved, size: Vec, selfId: int32, others: seq<Body>)
    requires forall j :: 0 <= j < |others| ==> !Engages(start.position, size, selfId, others[j])
    ensures ResolveAll(start, size, selfId, others) == start
    decreases |others|
  {
    if others != [] {
      var init := others[..|others| - 1];
      assert forall j :: 0 <= j < |init| ==> init[j] == others[j];
      ResolveAllWithoutContact(start, size, selfId, init);
    }
  }

  /** A pass against entries that are all skipped or all apart from the entity keeps its position and clears every flag. */
  lemma ResolvePassWithoutContact(position: Vec, size: Vec, selfId: int32, others: seq<Body>)
    requires forall j :: 0 <= j < |others| ==> !Engages(position, size, selfId, others[j])
    ensures ResolvePass(position, size, selfId, others) == Resolved(position, NoContacts)
  {
    ResolveAllWithoutContact(Resolved(position, NoContacts), size, selfId, others);
  }

  /** Within one pass, a flag once raised stays raised. */
  lemma {:induction false} ResolveAllKeepsRaisedFlags(start: Resolved, size: Vec, selfId: int32, others: seq<Body>)
    ensures ContactsInclude(ResolveAll(start, size, selfId, others).contacts, start.contacts)
    decreases |others|
  {
    if others != [] {
      ResolveAllKeepsRaisedFlags(start, size, selfId, others[..|others| - 1]);
    }
  }

  /**
   * Entries carrying the entity's own id never influence the pass: two
   * snapshots that agree on every other entry give the same outcome.
   */
  lemma {:induction false} ResolveAllIgnoresOwnId(start: Resolved, size: Vec, selfId: int32, a: seq<Body>, b: seq<Body>)
    requires |a| == |b|
    requires forall j :: 0 <= j < |a| ==> a[j].id == b[j].id && (a[j].id != selfId ==> a[j] == b[j])
    ensures ResolveAll(start, size, selfId, a) == ResolveAll(start, size, selfId, b)
    decreases |a|
  {
    if a != [] {
      var n := |a| - 1;
      ResolveAllIgnoresOwnId(start, size, selfId, a[..n], b[..n]);
    }
  }

  /** Pushes are applied immediately, so the outcome of a pass depends on the order of the array. */
  lemma ResolutionDependsOnOrder()
    ensures var size := Vec(10.0, 10.0);
            var a := Body(true, 1, Vec(8.0, 0.0), Vec(10.0, 10.0));
            var b := Body(true, 2, Vec(-11.0, 0.0), Vec(10.0, 10.0));
            && ResolvePass(Vec(0.0, 0.0), size, 0, [a, b]) == Resolved(Vec(-1.0, 0.0), Contacts(false, true, false, true))
            && ResolvePass(Vec(0.0, 0.0), size, 0, [b, a]) == Resolved(Vec(-2.0, 0.0), Contacts(false, true, false, false))
  {
    var size := Vec(10.0, 10.0);
    var a := Body(true, 1, Vec(8.0, 0.0), Vec(10.0, 10.0));
    var b := Body(true, 2, Vec(-11.0, 0.0), Vec(10.0, 10.0));
    var start := Resolved(Vec(0.0, 0.0), NoContacts);
    assert [a, b][..1] == [a] && [b, a][..1] == [b];
    assert [a][..0] == [] && [b][..0] == [];
    assert ResolveAll(start, size, 0, [a]) == Resolved(Vec(-2.0, 0.0), Contacts(false, true, false, false));
    assert ResolveAll(start, size, 0, [b]) == start;
  }

  /** Box A (10 by 10) at (0, 0) against box B (10 by 10) at (5, 0): A is pushed left by 5 and touches B on its right. */
  lemma SideBySideExample()
    ensures ResolvePass(Vec(0.0, 0.0), Vec(10.0, 10.0), 0, [Body(true, 1, Vec(5.0, 0.0), Vec(10.0, 10.0))])
            == Resolved(Vec(-5.0, 0.0), Contacts(false, true, false, false))
  {
    var others := [Body(true, 1, Vec(5.0, 0.0), Vec(10.0, 10.0))];
    assert others[..0] == [];
  }

  // ---------------------------------------------------------------------
  // Kinematics
  // ---------------------------------------------------------------------

  /**
   * The four clamps of `update`, in source order, driven by the contact flags
   * of the previous pass. A component is zeroed exactly when a flag is set on
   * the side the component points to.
   */
  function Clamp(v: Vec, c: Contacts): (r: Vec)
    ensures r.x == (if (c.right && v.x > 0.0) || (c.left && v.x < 0.0) then 0.0 else v.x)
    ensures r.y == (if (c.top && v.y < 0.0) || (c.bottom && v.y > 0.0) then 0.0 else v.y)
  {
    var y1 := if c.top && v.y < 0.0 then 0.0 else v.y;
    var x1 := if c.right && v.x > 0.0 then 0.0 else v.x;
    var y2 := if c.bottom && y1 > 0.0 then 0.0 else y1;
    var x2 := if c.left && x1 < 0.0 then 0.0 else x1;
    Vec(x2, y2)
  }

  /** After clamping, the velocity never points into a side that is in contact. */
  lemma ClampNeverPointsIntoContact(v: Vec, c: Contacts)
    ensures c.top ==> Clamp(v, c).y >= 0.0
    ensures c.bottom ==> Clamp(v, c).y <= 0.0
    ensures c.right ==> Clamp(v, c).x <= 0.0
    ensures c.left ==> Clamp(v, c).x >= 0.0
    ensures !c.top && !c.bottom ==> Clamp(v, c).y == v.y
    ensures !c.right && !c.left ==> Clamp(v, c).x == v.x
  {
  }

  /** The seconds elapsed between two nanosecond clock readings. */
  function Seconds(lastEpoch: int, currentEpoch: int): real
  {
    (currentEpoch - lastEpoch) as real / NANOS_PER_SECOND
  }

  /** The velocity after accelerating by `a` for `dt` seconds. */
  function Accelerated(v: Vec, a: Vec, dt: real): Vec
  {
    Vec(v.x + a.x * dt, v.y + a.y * dt)
  }

  /** The position after moving with velocity `v` (in metres per second) for `dt` seconds, in pixels. */
  function Displaced(p: Vec, v: Vec, dt: real): Vec
  {
    Vec(p.x + v.x * dt * PIXELS_PER_METER, p.y + v.y * dt * PIXELS_PER_METER)
  }

  /** The kinematic half of `update`: v' = clamp(v + a dt), p' = p + v' dt 64. */
  function Integrate(m: Motion, acceleration: Vec, currentEpoch: int): (r: Motion)
    ensures r.lastEpoch == currentEpoch && r.contacts == m.contacts
    ensures r.deltaTime == Seconds(m.lastEpoch, currentEpoch)
    ensures m.contacts.top ==> r.velocity.y >= 0.0
    ensures m.contacts.bottom ==> r.velocity.y <= 0.0
    ensures m.contacts.right ==> r.velocity.x <= 0.0
    ensures m.contacts.left ==> r.velocity.x >= 0.0
    ensures !m.contacts.top && !m.contacts.bottom ==> r.velocity.y == m.velocity.y + acceleration.y * r.deltaTime
    ensures !m.contacts.right && !m.contacts.left ==> r.velocity.x == m.velocity.x + acceleration.x * r.deltaTime
  {
    var dt := Seconds(m.lastEpoch, currentEpoch);
    var v := Clamp(Accelerated(m.velocity, acceleration, dt), m.contacts);
    Motion(Displaced(m.position, v, dt), v, m.contacts, currentEpoch, dt)
  }

  /** `update`: integrate when kinematic, then resolve when collidable. */
  function UpdateMotion(m: Motion, acceleration: Vec, size: Vec, doKinematics: bool, collidable: bool,
                        selfId: int32, currentEpoch: int, others: seq<Body>): (r: Motion)
    ensures !doKinematics ==> r.velocity == m.velocity && r.lastEpoch == m.lastEpoch && r.deltaTime == m.deltaTime
    ensures !collidable ==> r.contacts == m.contacts
    ensures !doKinematics && !collidable ==> r == m
  {
    var moved := if doKinematics then Integrate(m, acceleration, currentEpoch) else m;
    if collidable then
      var r := ResolvePass(moved.position, size, selfId, others);
      moved.(position := r.position, contacts := r.contacts)
    else moved
  }

  /**
   * Without kinematics, `update` never changes the velocity or the clock
   * fields, and the position changes only through resolution.
   */
  lemma StaticEntityKeepsVelocity(m: Motion, acceleration: Vec, size: Vec, collidable: bool,
                                  selfId: int32, currentEpoch: int, others: seq<Body>)
    ensures var n := UpdateMotion(m, acceleration, size, false, collidable, selfId, currentEpoch, others);
            && n.velocity == m.velocity && n.lastEpoch == m.lastEpoch && n.deltaTime == m.deltaTime
            && (!collidable ==> n == m)
            && (collidable ==> var pass := ResolvePass(m.position, size, selfId, others);
                                 n.position == pass.position && n.contacts == pass.contacts)
  {
  }

  /**
   * An entity without kinematics is still pushed by the resolution pass: a
   * static 10 by 10 box at (0, 0) overlapped by a box at (5, 0) moves to (-5, 0).
   */
  lemma StaticEntityCanBePushed(m: Motion, acceleration: Vec, currentEpoch: int)
    requires m.position == Vec(0.0, 0.0)
    ensures UpdateMotion(m, acceleration, Vec(10.0, 10.0), false, true, 0, currentEpoch,
                         [Body(true, 1, Vec(5.0, 0.0), Vec(10.0, 10.0))]).position == Vec(-5.0, 0.0)
  {
    SideBySideExample();
  }

  /** A non-collidable entity skips resolution: its flags keep their old values and only kinematics moves it. */
  lemma NonCollidableKeepsContacts(m: Motion, acceleration: Vec, size: Vec, doKinematics: bool,
                                   selfId: int32, currentEpoch: int, others: seq<Body>)
    ensures var n := UpdateMotion(m, acceleration, size, doKinematics, false, selfId, currentEpoch, others);
            && n.contacts == m.contacts
            && n.position == (if doKinematics then Integrate(m, acceleration, currentEpoch).position else m.position)
  {
  }

  /** Falling freely for half a second from rest: v.y = 9.81 * 0.5 and the position drops 4.905 * 0.5 * 64 pixels. */
  lemma FreeFallExample(p: Vec, lastEpoch: int)
    ensures var n := Integrate(Motion(p, Vec(0.0, 0.0), NoContacts, lastEpoch, 0.0), Gravity, lastEpoch + 500_000_000);
            && n.velocity == Vec(0.0, 4.905)
            && n.position == Vec(p.x, p.y + 156.96)
            && n.deltaTime == 0.5
  {
  }

  /**
   * An entity standing still on a surface, with its bottom flag set by the
   * previous pass, stays exactly where it is: gravity's velocity is clamped
   * away and the resolution pass raises the bottom flag again.
   */
  lemma RestingEntityStaysPut(m: Motion, size: Vec, selfId: int32, currentEpoch: int, ground: Body)
    requires m.velocity == Vec(0.0, 0.0) && m.contacts == Contacts(false, false, true, false)
    requires currentEpoch >= m.lastEpoch
    requires ground.collidable && ground.id != selfId && size.y > 0.0 && ground.size.y >= 0.0
    requires m.position.y + size.y == ground.position.y
    requires Depth(m.position, size, ground.position, ground.size).x > 0.0
    ensures var n := UpdateMotion(m, Gravity, size, true, true, selfId, currentEpoch, [ground]);
            && n.position == m.position && n.velocity == Vec(0.0, 0.0) && n.contacts == m.contacts
  {
    var moved := Integrate(m, Gravity, currentEpoch);
    var dt := Seconds(m.lastEpoch, currentEpoch);
    assert dt >= 0.0;
    assert Gravity.x * dt == 0.0;
    assert moved.velocity == Vec(0.0, 0.0);
    assert moved.position == m.position;
    assert [ground][..0] == [];
    RestingContactRaisesFlagOnly(Resolved(m.position, NoContacts), size, selfId, ground);
    assert ResolveAll(Resolved(m.position, NoContacts), size, selfId, []) == Resolved(m.position, NoContacts);
    assert ResolvePass(moved.position, size, selfId, [ground]) == Resolved(m.position, m.contacts);
  }

  // ---------------------------------------------------------------------
  // Entity identities
  // ---------------------------------------------------------------------

  /** The process-wide `nextID` counter, passed explicitly to the constructor. */
  class IdCounter {
    var nextId: int32

    constructor ()
      ensures nextId == 0
    {
      nextId := 0;
    }
  }

  /** The id handed to the k-th entity built from a fresh counter. */
  function IdAfter(k: nat): int32
  {
    if k == 0 then 0 else Increment(IdAfter(k - 1))
  }

  /** Before the counter wraps, the k-th entity gets id k, so ids are strictly increasing and distinct. */
  lemma {:induction false} IdsCountUp(k: nat)
    requires k <= INT_MAX
    ensures IdAfter(k) as int == k
  {
    if k > 0 {
      IdsCountUp(k - 1);
    }
  }

  lemma IdsAreDistinct(i: nat, j: nat)
    requires i < j <= INT_MAX
    ensures IdAfter(i) < IdAfter(j)
  {
    IdsCountUp(i);
    IdsCountUp(j);
  }

  // ---------------------------------------------------------------------
  // The entity
  // ---------------------------------------------------------------------

  class PhysicsEntity {
    const position: Vector2f
    const velocity: Vector2f
    const acceleration: Vector2f
    const size: Vector2f
    var lastEpoch: int
    var deltaTime: real
    var doKinematics: bool
    var collidable: bool
    const id: int32
    var collidingTop: bool
    var collidingRight: bool
    var collidingBottom: bool
    var collidingLeft: bool

    /** The four vectors are distinct objects, and the acceleration is gravity (nothing can change it). */
    ghost predicate Valid()
      reads acceleration
    {
      && position != velocity && position != acceleration && position != size
      && velocity != acceleration && velocity != size && acceleration != size
      && acceleration.x == Gravity.x && acceleration.y == Gravity.y
    }

    ghost function Flags(): Contacts
      reads this
    {
      Contacts(collidingTop, collidingRight, collidingBottom, collidingLeft)
    }

    ghost function State(): Motion
      reads this, position, velocity
    {
      Motion(Vec(position.x, position.y), Vec(velocity.x, velocity.y), Flags(), lastEpoch, deltaTime)
    }

    ghost function Size(): Vec
      reads size
    {
      Vec(size.x, size.y)
    }

    ghost function AsBody(): Body
      reads this, position, size
    {
      Body(collidable, id, Vec(position.x, position.y), Size())
    }

    /**
     * No other entity in the array shares a vector object with this one.
     * The source never shares them: every entity allocates its own.
     */
    ghost predicate Separated(entities: array<PhysicsEntity>)
      reads entities
    {
      forall j :: 0 <= j < entities.Length && entities[j].id != id ==>
        && entities[j].position != position && entities[j].position != velocity
        && entities[j].size != position && entities[j].size != velocity
    }

    /** `nanoTime` stands for the clock reading taken when the entity is built. */
    constructor (xPosition: real, yPosition: real, width: real, height: real,
                 doKinematics: bool, collidable: bool, ids: IdCounter, nanoTime: int)
      modifies ids
      ensures Valid() && fresh(position) && fresh(velocity) && fresh(acceleration) && fresh(size)
      ensures State() == Motion(Vec(xPosition, yPosition), Vec(0.0, 0.0), NoContacts, nanoTime, 0.0)
      ensures Size() == Vec(width, height)
      ensures this.doKinematics == doKinematics && this.collidable == collidable
      ensures id == old(ids.nextId) && ids.nextId == Increment(old(ids.nextId))
    {
      velocity := new Vector2f(0.0, 0.0);
      acceleration := new Vector2f(Gravity.x, Gravity.y);
      lastEpoch := nanoTime;
      deltaTime := 0.0;
      collidingTop, collidingRight, collidingBottom, collidingLeft := false, false, false, false;
      position := new Vector2f(xPosition, yPosition);
      size := new Vector2f(width, height);
      this.doKinematics := doKinematics;
      this.collidable := collidable;
      id := ids.nextId;
      ids.nextId := Increment(ids.nextId);
    }

    /** `checkOverlapping`: this entity's box against the box at `p` with extent `s`. */
    predicate CheckOverlapping(p: Vector2f, s: Vector2f)
      reads position, size, p, s
      ensures CheckOverlapping(p, s) <==>
        var d := Depth(Vec(position.x, position.y), Vec(size.x, size.y), Vec(p.x, p.y), Vec(s.x, s.y));
        d.x >= 0.0 && d.y >= 0.0
    {
      Overlapping(Vec(position.x, position.y), Vec(size.x, size.y), Vec(p.x, p.y), Vec(s.x, s.y))
    }

    /**
     * The body of the loop of `resolveCollisions` for entry `i`: skip it when
     * it is not collidable or is this entity, otherwise push away from it if
     * the boxes overlap. The other entities of the array are left as they were.
     */
    method ResolveAgainst(entities: array<PhysicsEntity>, i: int)
      requires Valid() && Separated(entities) && 0 <= i < entities.Length
      modifies position, this`collidingTop, this`collidingRight, this`collidingBottom, this`collidingLeft
      ensures Valid()
      ensures Resolved(Vec(position.x, position.y), Flags())
              == ResolvePair(old(Resolved(Vec(position.x, position.y), Flags())), Size(), id, old(entities[i].AsBody()))
      ensures forall j :: 0 <= j < entities.Length && entities[j].id != id ==> entities[j].AsBody() == old(entities[j].AsBody())
    {
      var other := entities[i];
      ghost var r := Resolved(Vec(position.x, position.y), Flags());
      ghost var body := other.AsBody();
      if !other.collidable || id == other.id {
      } else if CheckOverlapping(other.position, other.size) {
        var depth := Depth(Vec(position.x, position.y), Vec(size.x, size.y),
                           Vec(other.position.x, other.position.y), Vec(other.size.x, other.size.y));
        if depth.x < depth.y {
          if position.x < other.position.x {
            var _ := position.SubtractXY(depth.x, 0.0);
            collidingRight := true;
            assert Resolved(Vec(position.x, position.y), Flags())
                   == Resolved(Vec(r.position.x - depth.x, r.position.y), Raise(r.contacts, Right));
          } else {
            var _ := position.AddXY(depth.x, 0.0);
            collidingLeft := true;
            assert Resolved(Vec(position.x, position.y), Flags())
                   == Resolved(Vec(r.position.x + depth.x, r.position.y), Raise(r.contacts, Left));
          }
        } else if depth.x > depth.y {
          if position.y < other.position.y {
            var _ := position.SubtractXY(0.0, depth.y);
            collidingBottom := true;
            assert Resolved(Vec(position.x, position.y), Flags())
                   == Resolved(Vec(r.position.x, r.position.y - depth.y), Raise(r.contacts, Bottom));
          } else {
            var _ := position.AddXY(0.0, depth.y);
            collidingTop := true;
            assert Resolved(Vec(position.x, position.y), Flags())
                   == Resolved(Vec(r.position.x, r.position.y + depth.y), Raise(r.contacts, Top));
          }
        }
      }
      assert other.AsBody() == body;
    }

    /** `resolveCollisions`: clear the flags, then push away from every engaging entry in array order. */
    method ResolveCollisions(entities: array<PhysicsEntity>)
      requires Valid() && Separated(entities)
      modifies position, this`collidingTop, this`collidingRight, this`collidingBottom, this`collidingLeft
      ensures Valid()
      ensures Resolved(Vec(position.x, position.y), Flags())
              == ResolvePass(old(Vec(position.x, position.y)), Size(), id, old(Bodies(entities)))
    {
      ghost var others := Bodies(entities);
      ghost var start := Resolved(Vec(position.x, position.y), NoContacts);
      collidingTop := false;
      collidingRight := false;
      collidingBottom := false;
      collidingLeft := false;
      var i := 0;
      ghost var done := start;
      while i < entities.Length
        invariant 0 <= i <= entities.Length
        invariant Valid()
        invariant forall j :: 0 <= j < entities.Length && entities[j].id != id ==> entities[j].AsBody() == others[j]
        invariant Resolved(Vec(position.x, position.y), Flags()) == done
        invariant done == ResolveAll(start, Size(), id, others[..i])
      {
        ResolveAgainst(entities, i);
        ResolveAllStep(start, Size(), id, others, i);
        done := ResolvePair(done, Size(), id, others[i]);
        i := i + 1;
      }
      assert others[..entities.Length] == others;
    }

    /** The four velocity clamps of `update`, driven by the flags of the previous pass. */
    method ClampVelocity()
      requires Valid()
      modifies velocity
      ensures Valid()
      ensures Vec(velocity.x, velocity.y) == Clamp(old(Vec(velocity.x, velocity.y)), Flags())
    {
      if collidingTop && velocity.y < 0.0 {
        velocity.SetY(0.0);
      }
      if collidingRight && velocity.x > 0.0 {
        velocity.SetX(0.0);
      }
      if collidingBottom && velocity.y > 0.0 {
        velocity.SetY(0.0);
      }
      if collidingLeft && velocity.x < 0.0 {
        velocity.SetX(0.0);
      }
    }

    /** The kinematic half of `update`, run when `doKinematics` holds. */
    method Move(nanoTime: int)
      requires Valid()
      modifies position, velocity, this`lastEpoch, this`deltaTime
      ensures Valid()
      ensures State() == Integrate(old(State()), Gravity, nanoTime)
    {
      ghost var before := State();
      var currentEpoch := nanoTime;
      deltaTime := (currentEpoch - lastEpoch) as real / NANOS_PER_SECOND;
      lastEpoch := currentEpoch;

      var _ := velocity.AddXY(acceleration.x * deltaTime, acceleration.y * deltaTime);
      assert Vec(velocity.x, velocity.y) == Accelerated(before.velocity, Gravity, deltaTime);
      ClampVelocity();
      ghost var v := Vec(velocity.x, velocity.y);
      var _ := position.AddXY(velocity.x * deltaTime * PIXELS_PER_METER,
                              velocity.y * deltaTime * PIXELS_PER_METER);
      assert Vec(position.x, position.y) == Displaced(before.position, v, deltaTime);
    }

    /**
     * `update`, with the clock reading of `System.nanoTime` passed in as
     * `nanoTime`: kinematics first (when enabled), then the resolution pass
     * against the array (when collidable).
     */
    method Update(entities: array<PhysicsEntity>, nanoTime: int)
      requires Valid() && Separated(entities)
      modifies position, velocity, this`lastEpoch, this`deltaTime
      modifies this`collidingTop, this`collidingRight, this`collidingBottom, this`collidingLeft
      ensures Valid()
      ensures State() == UpdateMotion(old(State()), Gravity, Size(), doKinematics, collidable, id, nanoTime,
                                       old(Bodies(entities)))
    {
      ghost var snapshot := Bodies(entities);
      if doKinematics {
        Move(nanoTime);
      }
      if collidable {
        ghost var moved := State();
        ghost var current := Bodies(entities);
        assert forall j :: 0 <= j < entities.Length ==>
          current[j].id == snapshot[j].id && (current[j].id != id ==> current[j] == snapshot[j]);
        ResolveAllIgnoresOwnId(Resolved(moved.position, NoContacts), Size(), id, current, snapshot);
        ResolveCollisions(entities);
      }
    }

    method GetPosition() returns (p: Vector2f)
      ensures p == position
    {
      p := position;
    }

    method GetVelocity() returns (v: Vector2f)
      ensures v == velocity
    {
      v := velocity;
    }

    /** Whether the last resolution pass pushed this entity up off something below it. */
    method GetCollidingBottom() returns (b: bool)
      ensures b == collidingBottom
    {
      b := collidingBottom;
    }

    method SetCollidable(collidable: bool)
      modifies this`collidable
      ensures this.collidable == collidable
    {
      this.collidable := collidable;
    }
  }

  /** The array as the resolution pass reads it. */
  ghost function Bodies(entities: array<PhysicsEntity>): (r: seq<Body>)
    reads entities
    reads set j | 0 <= j < entities.Length :: entities[j]
    reads set j | 0 <= j < entities.Length :: entities[j].position
    reads set j | 0 <= j < entities.Length :: entities[j].size
    ensures |r| == entities.Length
    ensures forall j :: 0 <= j < entities.Length ==> r[j] == entities[j].AsBody()
  {
    seq(entities.Length, j reads entities, set j | 0 <= j < entities.Length :: entities[j],
                                              set j | 0 <= j < entities.Length :: entities[j].position,
                                              set j | 0 <= j < entities.Length :: entities[j].size
          => if 0 <= j < entities.Length then entities[j].AsBody() else Body(false, 0, Vec(0.0, 0.0), Vec(0.0, 0.0)))
  }

  /** Two entities built one after the other from the same counter get distinct ids unless the counter wraps. */
  method TwoEntitiesGetDistinctIds(ids: IdCounter, nanoTime: int) returns (a: PhysicsEntity, b: PhysicsEntity)
    requires ids.nextId as int < INT_MAX
    modifies ids
    ensures a.id < b.id
  {
    a := new PhysicsEntity(0.0, 0.0, 1.0, 1.0, true, true, ids, nanoTime);
    b := new PhysicsEntity(0.0, 0.0, 1.0, 1.0, true, true, ids, nanoTime);
  }
}
