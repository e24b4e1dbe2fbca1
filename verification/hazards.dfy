/**
 * Hazards: the `GameObject` records of the dodge game, how one is spawned,
 * how the live list is advanced and pruned in one tick, and the collision
 * test against the detected head.
 */
module Hazards {
  import opened Wrappers
  import opened Difficulty

  /** The five object types; they differ only in how they are drawn. */
  datatype Kind = Ball | Bomb | Star | Fire | Rock

  /** The three lanes a hazard can be spawned in. */
  datatype Lane = Top | Middle | Bottom

  /** A detected head centre, in whole pixels. */
  type Point = (int, int)

  /** `GameObject.size` when the constructor's default is used, as every spawn does. */
  const ObjectSize: nat := 50

  /** The estimated head radius added to an object's size in the collision test. */
  const HeadRadius: nat := 30

  /** A hazard: its centre (x, y), the distance it moves left per tick, its type and radius. */
  datatype GameObject = GameObject(x: real, y: int, speed: real, kind: Kind, size: nat)

  /** The y coordinate of a lane in a frame `height` pixels high (Python `//`). */
  function LaneY(lane: Lane, height: nat): (y: int)
    ensures 0 <= y <= height
    ensures height > 0 ==> y < height
  {
    match lane
    case Top => height / 4
    case Middle => height / 2
    case Bottom => 3 * height / 4
  }

  /** The object `spawn_object` appends: at the right edge, in the chosen lane. */
  function NewObject(width: nat, height: nat, lane: Lane, kind: Kind, score: nat): (o: GameObject)
    ensures o.x == width as real
    ensures o.y == height / 4 || o.y == height / 2 || o.y == 3 * height / 4
    ensures o.speed == 3.0 * (1.0 + score as real / 50.0)
    ensures o.speed >= BaseSpeed
    ensures o.kind == kind && o.size == ObjectSize
  {
    GameObject(width as real, LaneY(lane, height), 3.0 * SpeedMultiplier(score), kind, ObjectSize)
  }

  /** Every lane height can be drawn: `random.choice` over the three heights is total. */
  lemma EveryLaneReachable(width: nat, height: nat, kind: Kind, score: nat, y: int)
    requires y == height / 4 || y == height / 2 || y == 3 * height / 4
    ensures exists lane :: NewObject(width, height, lane, kind, score).y == y
  {
    if y == height / 4 {
      assert NewObject(width, height, Top, kind, score).y == y;
    } else if y == height / 2 {
      assert NewObject(width, height, Middle, kind, score).y == y;
    } else {
      assert NewObject(width, height, Bottom, kind, score).y == y;
    }
  }

  /** The object after `obj.x -= obj.speed`. */
  function Moved(o: GameObject): (m: GameObject)
    ensures m.x == o.x - o.speed
    ensures o.speed > 0.0 ==> m.x < o.x
    ensures m.(x := o.x) == o
  {
    o.(x := o.x - o.speed)
  }

  /** `obj.x < -obj.size`: the object has left the screen on the left. */
  predicate OffScreen(o: GameObject): (gone: bool)
    ensures gone <==> o.x + o.size as real < 0.0
  {
    o.x < -(o.size as real)
  }

  /** The objects still listed after one pass of the move-and-prune loop, in list order. */
  function Survivors(objs: seq<GameObject>): (r: seq<GameObject>)
    ensures |r| + Removed(objs) == |objs|
  {
    if objs == [] then []
    else
      var moved := Moved(objs[|objs| - 1]);
      Survivors(objs[..|objs| - 1]) + (if OffScreen(moved) then [] else [moved])
  }

  /** How many objects one pass of the move-and-prune loop removes. */
  function Removed(objs: seq<GameObject>): (r: nat)
    ensures r <= |objs|
  {
    if objs == [] then 0
    else Removed(objs[..|objs| - 1]) + (if OffScreen(Moved(objs[|objs| - 1])) then 1 else 0)
  }

  /** The positions, in the old list, of the objects that survive the pass. */
  function KeptIndices(objs: seq<GameObject>): seq<nat>
  {
    if objs == [] then []
    else KeptIndices(objs[..|objs| - 1]) + (if OffScreen(Moved(objs[|objs| - 1])) then [] else [|objs| - 1])
  }

  /**
   * The pass keeps exactly the objects that are still on screen after their
   * move, each moved by its own speed, in their original order.
   */
  lemma SurvivorsAreKeptInOrder(objs: seq<GameObject>)
    ensures var idx := KeptIndices(objs);
      && |idx| == |Survivors(objs)|
      && (forall k | 0 <= k < |idx| :: idx[k] < |objs| && Survivors(objs)[k] == Moved(objs[idx[k]]))
      && (forall k, l | 0 <= k < l < |idx| :: idx[k] < idx[l])
      && (forall i | 0 <= i < |objs| :: i in idx <==> !OffScreen(Moved(objs[i])))
  {
    KeptIndicesSelect(objs);
    KeptIndicesIncreasing(objs);
    KeptIndicesExact(objs);
  }

  /** The k-th survivor is the moved object at the k-th kept position. */
  lemma {:induction false} KeptIndicesSelect(objs: seq<GameObject>)
    ensures var idx := KeptIndices(objs);
      && |idx| == |Survivors(objs)|
      && forall k | 0 <= k < |idx| :: idx[k] < |objs| && Survivors(objs)[k] == Moved(objs[idx[k]])
  {
    if objs != [] {
      var n := |objs| - 1;
      var front := objs[..n];
      KeptIndicesSelect(front);
      var idx, idx' := KeptIndices(objs), KeptIndices(front);
      var surv, surv' := Survivors(objs), Survivors(front);
      forall k | 0 <= k < |idx'|
        ensures idx[k] < |objs| && surv[k] == Moved(objs[idx[k]])
      {
        assert idx[k] == idx'[k] && surv[k] == surv'[k];
        assert objs[idx'[k]] == front[idx'[k]];
      }
    }
  }

  /** Kept positions are listed in increasing order. */
  lemma {:induction false} KeptIndicesIncreasing(objs: seq<GameObject>)
    ensures forall k | 0 <= k < |KeptIndices(objs)| :: KeptIndices(objs)[k] < |objs|
    ensures forall k, l | 0 <= k < l < |KeptIndices(objs)| :: KeptIndices(objs)[k] < KeptIndices(objs)[l]
  {
    if objs != [] {
      var n := |objs| - 1;
      var front := objs[..n];
      KeptIndicesIncreasing(front);
      var idx, idx' := KeptIndices(objs), KeptIndices(front);
      assert |front| == n;
      assert idx == idx' + (if OffScreen(Moved(objs[n])) then [] else [n]);
      assert forall k | 0 <= k < |idx'| :: idx[k] == idx'[k] && idx'[k] < n;
    }
  }

  /** A position is kept exactly when its object is still on screen after the move. */
  lemma {:induction false} KeptIndicesExact(objs: seq<GameObject>)
    ensures forall i | 0 <= i < |objs| :: i in KeptIndices(objs) <==> !OffScreen(Moved(objs[i]))
  {
    if objs != [] {
      var n := |objs| - 1;
      var front := objs[..n];
      KeptIndicesExact(front);
      KeptIndicesIncreasing(front);
      assert forall i | 0 <= i < n :: front[i] == objs[i];
      assert n !in KeptIndices(front);
    }
  }

  /** The object after `ticks` moves. */
  function Advanced(o: GameObject, ticks: nat): (a: GameObject)
    ensures a.x == o.x - ticks as real * o.speed
    ensures a.(x := o.x) == o
  {
    if ticks == 0 then o else Moved(Advanced(o, ticks - 1))
  }

  /** Once an object moving left is off screen it stays off screen: pruning is never undone. */
  lemma OffScreenStays(o: GameObject, early: nat, late: nat)
    requires o.speed >= 0.0 && early <= late
    requires OffScreen(Advanced(o, early))
    ensures OffScreen(Advanced(o, late))
  {
    assert early as real * o.speed <= late as real * o.speed;
  }

  /** An object moving left at positive speed is off screen after finitely many ticks. */
  lemma LeavesScreen(o: GameObject)
    requires o.speed > 0.0
    ensures exists ticks: nat :: OffScreen(Advanced(o, ticks))
  {
    var ticks := TicksToCover(o.x + o.size as real, o.speed);
    OffScreenIff(o, ticks);
  }

  /**
   * After `t` moves an object is off screen exactly when it has covered more
   * than its distance to the left edge, `x + size`.
   */
  lemma OffScreenIff(o: GameObject, t: nat)
    ensures OffScreen(Advanced(o, t)) <==> t as real * o.speed > o.x + o.size as real
  {
  }

  /**
   * The move after which an object with positive speed is first off screen:
   * `floor((x + size) / speed) + 1` when it starts on screen, 0 otherwise.
   * Before that move it is still listed.
   */
  lemma FirstOffScreenTick(o: GameObject) returns (t: nat)
    requires o.speed > 0.0
    ensures o.x + o.size as real >= 0.0 ==> t == ((o.x + o.size as real) / o.speed).Floor + 1
    ensures o.x + o.size as real < 0.0 ==> t == 0
    ensures OffScreen(Advanced(o, t))
    ensures forall u: nat | u < t :: !OffScreen(Advanced(o, u))
  {
    var gap := o.x + o.size as real;
    if gap < 0.0 {
      t := 0;
      assert Advanced(o, 0) == o;
      assert OffScreen(o);
    } else {
      var q := gap / o.speed;
      assert q * o.speed == gap;
      t := q.Floor + 1;
      assert q < t as real;
      ScaledBelow(q, t as real, o.speed);
      assert t as real * o.speed > gap;
      OffScreenIff(o, t);
      assert OffScreen(Advanced(o, t));
      forall u: nat | u < t
        ensures !OffScreen(Advanced(o, u))
      {
        assert u as real <= q;
        ScaledAtMost(u as real, q, o.speed);
        assert u as real * o.speed <= gap;
        OffScreenIff(o, u);
      }
    }
  }

  /** Multiplying by a positive speed keeps a strict order. */
  lemma ScaledBelow(a: real, b: real, speed: real)
    requires a < b && speed > 0.0
    ensures a * speed < b * speed
  {
    assert b * speed - a * speed == (b - a) * speed;
  }

  /** Multiplying by a positive speed keeps a weak order. */
  lemma ScaledAtMost(a: real, b: real, speed: real)
    requires a <= b && speed > 0.0
    ensures a * speed <= b * speed
  {
    assert b * speed - a * speed == (b - a) * speed;
  }

  /**
   * When the distance to the left edge is an exact multiple of the speed the
   * object is still listed after that many moves, because the test is a
   * strict `<`: width 640, size 50 and speed 3 give 690 = 230 * 3, and the
   * object leaves on move 231, not 230.
   */
  lemma ExactMultipleLeavesOneMoveLater(y: int, kind: Kind)
    ensures !OffScreen(Advanced(GameObject(640.0, y, 3.0, kind, 50), 230))
    ensures OffScreen(Advanced(GameObject(640.0, y, 3.0, kind, 50), 231))
  {
    var o := GameObject(640.0, y, 3.0, kind, 50);
    OffScreenIff(o, 230);
    OffScreenIff(o, 231);
  }

  /** Some whole number of steps of `speed` covers more than `gap`. */
  lemma TicksToCover(gap: real, speed: real) returns (ticks: nat)
    requires speed > 0.0
    ensures ticks as real * speed > gap
  {
    if gap < 0.0 {
      ticks := 0;
    } else {
      var q := gap / speed;
      ticks := q.Floor + 1;
      assert q * speed == gap;
      assert (ticks as real - q) * speed > 0.0;
      assert ticks as real * speed == q * speed + (ticks as real - q) * speed;
    }
  }

  /** `check_collision`: an absent head never hits; otherwise the squared centre distance decides. */
  function Collides(head: Option<Point>, o: GameObject): (hit: bool)
    ensures head.None? ==> !hit
  {
    match head
    case None => false
    case Some(p) =>
      var dx := p.0 as real - o.x;
      var dy := (p.1 - o.y) as real;
      var reach := (o.size + HeadRadius) as real;
      dx * dx + dy * dy < reach * reach
  }

  /**
   * The squared comparison is the source's `distance < size + 30`: for any
   * non-negative `d` whose square is the squared centre distance, a hit is
   * exactly `d < size + 30`, so a distance equal to the reach is a miss.
   */
  lemma CollisionMatchesDistance(p: Point, o: GameObject, d: real)
    requires d >= 0.0
    requires d * d == (p.0 as real - o.x) * (p.0 as real - o.x) + ((p.1 - o.y) as real) * ((p.1 - o.y) as real)
    ensures Collides(Some(p), o) <==> d < (o.size + HeadRadius) as real
  {
    var reach := (o.size + HeadRadius) as real;
    if d < reach {
      assert d * d < reach * reach by {
        assert d * d <= d * reach;
        assert d * reach < reach * reach;
      }
    } else {
      assert d * d >= reach * reach by {
        assert d * d >= d * reach;
        assert d * reach >= reach * reach;
      }
    }
  }

  /** Whether the head hits any object of the list (the per-object test, taken in list order). */
  function AnyHit(head: Option<Point>, objs: seq<GameObject>): (hit: bool)
    ensures head.None? ==> !hit
  {
    if objs == [] then false
    else AnyHit(head, objs[..|objs| - 1]) || Collides(head, objs[|objs| - 1])
  }

  /** `AnyHit` holds exactly when some object of the list collides with the head. */
  lemma {:induction false} AnyHitIff(head: Option<Point>, objs: seq<GameObject>)
    ensures AnyHit(head, objs) <==> exists i | 0 <= i < |objs| :: Collides(head, objs[i])
  {
    if objs != [] {
      var n := |objs| - 1;
      AnyHitIff(head, objs[..n]);
      assert forall i | 0 <= i < n :: objs[..n][i] == objs[i];
    }
  }
}
