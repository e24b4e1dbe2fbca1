/**
 * The frame processor of the dodge game: the live object list and spawn
 * timer it owns, together with the session state it reads and writes, and
 * the per-frame step. The wall clock, the random choices and the head
 * detector's answer arrive as parameters.
 */
module Game {
  import opened Wrappers
  import opened Difficulty
  import opened Hazards
  import opened Session

  /** Whether the spawn timer has run out at time `now`: strictly longer than the interval. */
  predicate SpawnDue(now: real, lastSpawnTime: real, score: nat): (due: bool)
    ensures due ==> now - lastSpawnTime > MinSpawnInterval
    ensures now - lastSpawnTime > MaxSpawnInterval ==> due
    ensures score >= 100 ==> (due <==> now - lastSpawnTime > MinSpawnInterval)
  {
    now - lastSpawnTime > SpawnInterval(score)
  }

  /** The object list the move-and-prune loop starts from: the old list, plus the spawn if due. */
  function Pool(objects: seq<GameObject>, due: bool, width: nat, height: nat, lane: Lane, kind: Kind, score: nat): (pool: seq<GameObject>)
    ensures |pool| == |objects| + (if due then 1 else 0)
    ensures pool[..|objects|] == objects
    ensures due ==> pool[|objects|] == NewObject(width, height, lane, kind, score)
  {
    if due then objects + [NewObject(width, height, lane, kind, score)] else objects
  }

  /** A listed object: spawned with the default size and moving left at least at base speed. */
  ghost predicate WellFormed(o: GameObject)
  {
    o.size == ObjectSize && o.speed >= BaseSpeed
  }

  /**
   * One step of the move-and-prune loop, in terms of the live list: the
   * object at the seam `j` is removed or replaced by its moved self.
   */
  lemma PruneStep(pool: seq<GameObject>, i: nat, live: seq<GameObject>)
    requires i < |pool| && live == Survivors(pool[..i]) + pool[i..]
    ensures var j, moved := |live| - (|pool| - i), Moved(pool[i]);
      && 0 <= j < |live| && live[j] == pool[i]
      && (OffScreen(moved) ==>
            && live[..j] + live[j + 1..] == Survivors(pool[..i + 1]) + pool[i + 1..]
            && Removed(pool[..i + 1]) == Removed(pool[..i]) + 1)
      && (!OffScreen(moved) ==>
            && live[j := moved] == Survivors(pool[..i + 1]) + pool[i + 1..]
            && Removed(pool[..i + 1]) == Removed(pool[..i]))
  {
    var done, moved := Survivors(pool[..i]), Moved(pool[i]);
    var j := |done|;
    SurvivorsStep(pool, i);
    SeamSplit(done, pool, i);
    if !OffScreen(moved) {
      SpliceUpdate(live, j, moved);
    }
  }

  /** The pass over one more object extends the pass over the prefix. */
  lemma SurvivorsStep(pool: seq<GameObject>, i: nat)
    requires i < |pool|
    ensures var moved := Moved(pool[i]);
      && Survivors(pool[..i + 1]) == Survivors(pool[..i]) + (if OffScreen(moved) then [] else [moved])
      && Removed(pool[..i + 1]) == Removed(pool[..i]) + (if OffScreen(moved) then 1 else 0)
  {
    assert pool[..i + 1][..i] == pool[..i];
  }

  /** The three parts of `done + pool[i..]` around the seam. */
  lemma SeamSplit(done: seq<GameObject>, pool: seq<GameObject>, i: nat)
    requires i < |pool|
    ensures var live, j := done + pool[i..], |done|;
      && live[..j] == done && live[j] == pool[i] && live[j + 1..] == pool[i + 1..]
  {
  }

  /** Overwriting one element is splicing it in between the parts around it. */
  lemma SpliceUpdate(s: seq<GameObject>, j: nat, x: GameObject)
    requires j < |s|
    ensures s[j := x] == s[..j] + [x] + s[j + 1..]
  {
  }

  /** Moving and pruning keeps every listed object well formed. */
  lemma {:induction false} SurvivorsWellFormed(pool: seq<GameObject>)
    requires forall o | o in pool :: WellFormed(o)
    ensures forall o | o in Survivors(pool) :: WellFormed(o)
  {
    if pool != [] {
      var n := |pool| - 1;
      assert forall o | o in pool[..n] :: o in pool;
      SurvivorsWellFormed(pool[..n]);
      var moved := Moved(pool[n]);
      assert pool[n] in pool;
      assert WellFormed(moved);
      assert Survivors(pool) == Survivors(pool[..n]) + (if OffScreen(moved) then [] else [moved]);
    }
  }

  /**
   * The loop of `update_game` over a snapshot `pool` of the object list:
   * each object moves left by its speed; one that is now off screen is
   * removed from the live list and, unless the game is over, earns a dodge.
   */
  method MoveAndPrune(pool: seq<GameObject>, score0: nat, over: bool) returns (live: seq<GameObject>, score: nat)
    ensures live == Survivors(pool)
    ensures score == score0 + (if over then 0 else 10 * Removed(pool))
  {
    live, score := pool, score0;
    var i := 0;
    assert pool[..0] == [] && pool[0..] == pool;
    while i < |pool|
      invariant 0 <= i <= |pool|
      invariant live == Survivors(pool[..i]) + pool[i..]
      invariant score == score0 + (if over then 0 else 10 * Removed(pool[..i]))
    {
      // `j` is where `pool[i]` sits in the live list: after the kept objects.
      var j := |live| - (|pool| - i);
      PruneStep(pool, i, live);
      var moved := Moved(pool[i]);
      if OffScreen(moved) {
        live := live[..j] + live[j + 1..];
        if !over {
          score := score + 10;
        }
      } else {
        live := live[j := moved];
      }
      i := i + 1;
    }
    assert pool[..i] == pool && pool[i..] == [];
  }

  /**
   * The collision loop of `transform`: every listed object that the head
   * touches ends the game and commits the score to the high score.
   */
  method ResolveCollisions(head: Option<Point>, objs: seq<GameObject>, s0: Session) returns (s: Session)
    ensures s == (if AnyHit(head, objs) then Hit(s0) else s0)
  {
    s := s0;
    var k := 0;
    while k < |objs|
      invariant 0 <= k <= |objs|
      invariant s == (if AnyHit(head, objs[..k]) then Hit(s0) else s0)
    {
      assert objs[..k + 1][..k] == objs[..k];
      if head.Some? && Collides(head, objs[k]) {
        s := s.(gameOver := true);
        if s.score > s.highScore {
          s := s.(highScore := s.score);
        }
      }
      k := k + 1;
    }
    assert objs[..k] == objs;
  }

  class DodgeGameProcessor {
    var objects: seq<GameObject>
    var lastSpawnTime: real
    var spawnInterval: real
    var headPosition: Option<Point>
    var frameCount: nat
    var session: Session

    ghost predicate Valid()
      reads this
    {
      && Consistent(session)
      && MinSpawnInterval <= spawnInterval <= MaxSpawnInterval
      && forall o | o in objects :: WellFormed(o)
    }

    /**
     * A fresh processor; `now` stands for `time.time()` at creation. The
     * session state outlives processors, so a new one takes over `s` as it
     * is, possibly left over from an earlier game.
     */
    constructor (now: real, s: Session)
      requires Consistent(s)
      ensures Valid()
      ensures objects == [] && lastSpawnTime == now && spawnInterval == MaxSpawnInterval
      ensures headPosition == None && frameCount == 0 && session == s
    {
      objects := [];
      lastSpawnTime := now;
      spawnInterval := MaxSpawnInterval;
      headPosition := None;
      frameCount := 0;
      session := s;
    }

    /** `spawn_object`: append one hazard in the chosen lane, of the chosen kind. */
    method SpawnObject(width: nat, height: nat, lane: Lane, kind: Kind)
      requires Valid()
      modifies this
      ensures Valid()
      ensures objects == old(objects) + [NewObject(width, height, lane, kind, session.score)]
      ensures session == old(session) && lastSpawnTime == old(lastSpawnTime)
      ensures spawnInterval == old(spawnInterval)
      ensures headPosition == old(headPosition) && frameCount == old(frameCount)
    {
      var o := NewObject(width, height, lane, kind, session.score);
      objects := objects + [o];
    }

    /**
     * `update_game`: refresh the spawn interval, spawn if the timer ran out,
     * then move every object left by its speed, dropping (and scoring) each
     * one that leaves the screen, and finally refresh the level.
     */
    method UpdateGame(now: real, width: nat, height: nat, lane: Lane, kind: Kind)
      requires Valid()
      modifies this
      ensures Valid()
      ensures spawnInterval == SpawnInterval(old(session.score))
      ensures var due := SpawnDue(now, old(lastSpawnTime), old(session.score));
        && lastSpawnTime == (if due then now else old(lastSpawnTime))
        && var pool := Pool(old(objects), due, width, height, lane, kind, old(session.score));
        && objects == Survivors(pool)
        && session == AfterDodges(old(session), Removed(pool))
      ensures headPosition == old(headPosition) && frameCount == old(frameCount)
    {
      ghost var objects0, session0 := objects, session;
      spawnInterval := SpawnInterval(session.score);
      var due := now - lastSpawnTime > spawnInterval;
      if due {
        SpawnObject(width, height, lane, kind);
        lastSpawnTime := now;
      }
      var pool := objects;
      assert pool == Pool(objects0, due, width, height, lane, kind, session0.score);
      SurvivorsWellFormed(pool);
      var live, score := MoveAndPrune(pool, session.score, session.gameOver);
      objects := live;
      assert score == (if session0.gameOver then session0.score else session0.score + 10 * Removed(pool));
      session := session.(score := score, difficultyLevel := Level(score));
      assert session == AfterDodges(session0, Removed(pool));
    }

    /**
     * `transform`: one camera frame. A paused or finished game is frozen;
     * otherwise the frame counts, the detected head is recorded, the game
     * is updated, and every remaining object is tested against the head.
     */
    method Transform(now: real, head: Option<Point>, width: nat, height: nat, lane: Lane, kind: Kind)
      requires Valid()
      modifies this
      ensures Valid()
      ensures !old(session.gameActive) || old(session.gameOver) ==>
        && objects == old(objects) && session == old(session)
        && lastSpawnTime == old(lastSpawnTime) && spawnInterval == old(spawnInterval)
        && headPosition == old(headPosition) && frameCount == old(frameCount)
      ensures old(session.gameActive) && !old(session.gameOver) ==>
        && frameCount == old(frameCount) + 1 && headPosition == head
        && spawnInterval == SpawnInterval(old(session.score))
        && var due := SpawnDue(now, old(lastSpawnTime), old(session.score));
        && lastSpawnTime == (if due then now else old(lastSpawnTime))
        && var pool := Pool(old(objects), due, width, height, lane, kind, old(session.score));
        && objects == Survivors(pool)
        && var scored := AfterDodges(old(session), Removed(pool));
        && session == (if AnyHit(head, objects) then Hit(scored) else scored)
    {
      if !session.gameActive || session.gameOver {
        return;
      }
      ghost var objects0, lastSpawnTime0, session0 := objects, lastSpawnTime, session;
      frameCount := frameCount + 1;
      headPosition := head;
      UpdateGame(now, width, height, lane, kind);
      ghost var due := SpawnDue(now, lastSpawnTime0, session0.score);
      ghost var pool := Pool(objects0, due, width, height, lane, kind, session0.score);
      assert objects == Survivors(pool);
      assert session == AfterDodges(session0, Removed(pool));
      session := ResolveCollisions(head, objects, session);
    }

    /** The Start button's handler: the object list is left as it is. */
    method Start()
      requires Valid()
      modifies this
      ensures Valid()
      ensures session == StartGame(old(session))
      ensures objects == old(objects) && lastSpawnTime == old(lastSpawnTime)
      ensures spawnInterval == old(spawnInterval)
      ensures headPosition == old(headPosition) && frameCount == old(frameCount)
    {
      session := session.(gameActive := true);
      session := session.(gameOver := false);
      session := session.(score := 0);
    }

    /** The Pause button's handler. */
    method Pause()
      requires Valid()
      modifies this
      ensures Valid()
      ensures session == PauseGame(old(session))
      ensures objects == old(objects) && lastSpawnTime == old(lastSpawnTime)
      ensures spawnInterval == old(spawnInterval)
      ensures headPosition == old(headPosition) && frameCount == old(frameCount)
    {
      session := session.(gameActive := false);
    }

    /** The Reset button's handler: the object list is left as it is. */
    method Reset()
      requires Valid()
      modifies this
      ensures Valid()
      ensures session == ResetGame(old(session))
      ensures objects == old(objects) && lastSpawnTime == old(lastSpawnTime)
      ensures spawnInterval == old(spawnInterval)
      ensures headPosition == old(headPosition) && frameCount == old(frameCount)
    {
      session := session.(gameActive := false);
      session := session.(gameOver := false);
      session := session.(score := 0);
    }
  }
}
