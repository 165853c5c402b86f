/**
 * Properties of GameController's rules, stated over the functions of GameState.
 */
module GameLemmas {
  import opened GameState

  // ---------------------------------------------------------------------------
  // Random draws

  /** Every whole gap between GapMin and GapMax can be drawn. */
  lemma EveryGapCanBeDrawn(gap: int)
    requires GapMin <= gap <= GapMax
    ensures exists roll: Roll :: RandomGapForPipe(roll) == gap
  {
    var roll: Roll := (gap - GapMin) as real / (1 + GapMax - GapMin) as real;
    assert RandomGapForPipe(roll) == gap;
  }

  /** Every label can be drawn. */
  lemma EveryLabelCanBeDrawn(i: nat)
    requires i < LabelCount
    ensures exists roll: Roll :: RandomTextForPipe(roll) == i
  {
    var roll: Roll := i as real / LabelCount as real;
    assert RandomTextForPipe(roll) == i;
  }

  // ---------------------------------------------------------------------------
  // Collision geometry

  /** The column x lies under both the pair (placed at `left`) and the bird. */
  predicate SharedColumn(cfg: Config, left: real, x: real) {
    left <= x <= left + cfg.pipeWidth && cfg.birdX <= x <= cfg.birdX + cfg.birdSize
  }

  /** checkPipe is the overlap of the closed intervals [left, left + pipeWidth] and
      [birdX, birdX + birdSize]. */
  lemma CheckPipeIsOverlap(cfg: Config, left: real)
    requires cfg.pipeWidth >= 0.0 && cfg.birdSize >= 0.0
    ensures CheckPipe(cfg, left) <==> exists x :: SharedColumn(cfg, left, x)
  {
    if CheckPipe(cfg, left) {
      var x := if left < cfg.birdX then cfg.birdX else left;
      assert SharedColumn(cfg, left, x);
    }
  }

  /** When the first pair is visible and overlapping, it alone decides: the second
      pair is never consulted. */
  lemma FirstOverlappingPairDecides(cfg: Config, f: Frame, other: PipePair)
    requires Overlaps(cfg, f.firstPipe)
    ensures HasCollidedWithPipe(cfg, f) <==> !ClearsPair(cfg, f.bird, f.firstPipe)
    ensures HasCollidedWithPipe(cfg, f) == HasCollidedWithPipe(cfg, f.(secondPipe := other))
  {
  }

  /** The second pair decides exactly when the first does not overlap. */
  lemma SecondPairDecidesOtherwise(cfg: Config, f: Frame)
    requires !Overlaps(cfg, f.firstPipe)
    ensures HasCollidedWithPipe(cfg, f) <==>
              Overlaps(cfg, f.secondPipe) && !ClearsPair(cfg, f.bird, f.secondPipe)
  {
  }

  /** A collision needs a visible pair over the bird. */
  lemma CollisionNeedsOverlap(cfg: Config, f: Frame)
    ensures HasCollidedWithPipe(cfg, f) ==> Overlaps(cfg, f.firstPipe) || Overlaps(cfg, f.secondPipe)
  {
  }

  /** Touching an edge of the opening is a collision: the survival test is strict. */
  lemma TouchingAnEdgeCollides(cfg: Config, f: Frame)
    requires Overlaps(cfg, f.firstPipe)
    requires f.bird.top == f.firstPipe.topPipe.height ||
             f.bird.top + cfg.birdSize == f.firstPipe.bottomPipe.top
    ensures HasCollidedWithPipe(cfg, f)
  {
  }

  // ---------------------------------------------------------------------------
  // movePipe

  /** The four outcomes of movePipe. */
  lemma MovePipeOutcomes(cfg: Config, pipe: PipePair, other: PipePair, rolls: PipeRolls)
    ensures var r := MovedPipe(cfg, pipe, other, rolls);
      // a visible pair past the left edge is hidden where it stands, and not respawned
      && (pipe.show && pipe.left <= -cfg.pipeWidth ==> r == pipe.(show := false))
      // any other visible pair moves left by exactly `speed`
      && (pipe.show && pipe.left > -cfg.pipeWidth ==> r == pipe.(left := pipe.left - cfg.speed))
      // a hidden pair respawns exactly when the other pair is visible and far enough left
      && (!pipe.show ==>
            (r.show <==> other.show && other.left < SpawnThreshold(cfg)) &&
            (r.show ==> r == CreatePipe(cfg, true, rolls)) &&
            (!r.show ==> r == pipe))
  {
  }

  /** Moving a visible pair does not look at the other pair or the draws. */
  lemma VisibleMoveIgnoresOther(cfg: Config, pipe: PipePair, o1: PipePair, o2: PipePair, r1: PipeRolls, r2: PipeRolls)
    requires pipe.show
    ensures MovedPipe(cfg, pipe, o1, r1) == MovedPipe(cfg, pipe, o2, r2)
  {
  }

  /** A pair moved `n` times in a row (the other pair and the draws held fixed). */
  function Scrolled(cfg: Config, p: PipePair, other: PipePair, rolls: PipeRolls, n: nat): PipePair
    decreases n
  {
    if n == 0 then p else MovedPipe(cfg, Scrolled(cfg, p, other, rolls, n - 1), other, rolls)
  }

  /** A visible pair scrolls `speed` per move, and stays visible, for as long as it had
      not yet passed the left edge before each move. */
  lemma {:induction false} ScrollsAtSpeed(cfg: Config, p: PipePair, other: PipePair, rolls: PipeRolls, n: nat)
    requires p.show
    requires n > 0 ==> p.left - (n - 1) as real * cfg.speed > -cfg.pipeWidth
    requires cfg.speed >= 0.0
    ensures Scrolled(cfg, p, other, rolls, n) == p.(left := p.left - n as real * cfg.speed)
  {
    if n > 0 {
      if n > 1 {
        assert (n - 1) as real * cfg.speed == (n - 2) as real * cfg.speed + cfg.speed;
      }
      ScrollsAtSpeed(cfg, p, other, rolls, n - 1);
      assert (n - 1) as real * cfg.speed + cfg.speed == n as real * cfg.speed;
    }
  }

  /** With the default configuration a new pair reaches left == -pipeWidth after
      width moves, still visible, and the next move hides it in place. */
  lemma DefaultPairLeavesAfterWidthPlusOneMoves(p: PipePair, other: PipePair, rolls: PipeRolls)
    requires p == CreatePipe(DefaultConfig, true, rolls)
    ensures Scrolled(DefaultConfig, p, other, rolls, 400) == p.(left := -50.0)
    ensures Scrolled(DefaultConfig, p, other, rolls, 401) == p.(left := -50.0, show := false)
  {
    ScrollsAtSpeed(DefaultConfig, p, other, rolls, 400);
  }

  // ---------------------------------------------------------------------------
  // Scoring

  /** With the default speed, a new pair scrolling across the playfield (401 moves,
      the last of which hides it) is at the scoring position after exactly one
      number of moves: one point per pass. */
  lemma DefaultSpeedScoresOncePerPass(other: PipePair, rolls: PipeRolls, n: nat)
    requires n <= 401
    ensures var p := CreatePipe(DefaultConfig, true, rolls);
      ScoresPoint(DefaultConfig, Scrolled(DefaultConfig, p, other, rolls, n)) <==> n == 361
  {
    var p := CreatePipe(DefaultConfig, true, rolls);
    if n == 401 {
      DefaultPairLeavesAfterWidthPlusOneMoves(p, other, rolls);
    } else {
      ScrollsAtSpeed(DefaultConfig, p, other, rolls, n);
    }
  }

  /** With a speed of 0.7 a new pair stays visible for 572 moves, and the
      exact-equality scoring test holds at none of the positions it passes: such a
      pass never scores. */
  lemma FractionalSpeedNeverScores(other: PipePair, rolls: PipeRolls, n: nat)
    requires n <= 572
    ensures var cfg := DefaultConfig.(speed := 0.7);
      var q := Scrolled(cfg, CreatePipe(cfg, true, rolls), other, rolls, n);
      q.show && !ScoresPoint(cfg, q)
  {
    var cfg := DefaultConfig.(speed := 0.7);
    ScrollsAtSpeed(cfg, CreatePipe(cfg, true, rolls), other, rolls, n);
  }

  // ---------------------------------------------------------------------------
  // newGame / start / jump

  /** The state newGame and start produce. */
  lemma NewFrameIsFresh(cfg: Config, r1: PipeRolls, r2: PipeRolls)
    ensures var f := NewFrame(cfg, r1, r2);
      && f.score == 0 && !f.gameOver && !f.gameStarted
      && f.bird.top == cfg.height / 2.0 - cfg.birdSize / 2.0 && f.bird.left == cfg.birdX
      && f.firstPipe.show && !f.secondPipe.show
    ensures var f := StartFrame(cfg, r1, r2);
      && f.score == 0 && !f.gameOver && f.gameStarted
      && f.bird.top == cfg.height / 2.0 - cfg.birdSize / 2.0 && f.bird.left == cfg.birdX
      && f.firstPipe.show && !f.secondPipe.show
  {
  }

  /** A second jump adds nothing exactly when the first one left the velocity positive
      (or added nothing). */
  lemma SecondJumpIsIgnored(cfg: Config, v: real)
    ensures Jumped(cfg, Jumped(cfg, v)) == Jumped(cfg, v) <==>
              v > 0.0 || v + cfg.jumpVelocity > 0.0 || cfg.jumpVelocity == 0.0
  {
  }

  /** The physics parameters under which velocity stays above -slowVelocityBy. */
  predicate PhysicsConfig(cfg: Config) {
    cfg.slowVelocityBy > 0.0 && cfg.jumpVelocity >= 0.0
  }

  /** The velocity never falls to -slowVelocityBy: one decay from a positive value is
      the only way below zero. */
  predicate VelocityFloor(cfg: Config, v: real) {
    v > -cfg.slowVelocityBy
  }

  /** Two jumps in a row raise the velocity once when jumpVelocity is at least
      slowVelocityBy (the defaults: 10 and 0.3). */
  lemma DoubleJumpRaisesOnce(cfg: Config, v: real)
    requires PhysicsConfig(cfg) && cfg.jumpVelocity >= cfg.slowVelocityBy
    requires VelocityFloor(cfg, v)
    ensures Jumped(cfg, Jumped(cfg, v)) == Jumped(cfg, v)
  {
    SecondJumpIsIgnored(cfg, v);
  }

  lemma ApplyKeepsVelocityFloor(cfg: Config, s: State, e: Event)
    requires PhysicsConfig(cfg) && VelocityFloor(cfg, s.velocity)
    ensures VelocityFloor(cfg, Apply(cfg, s, e).velocity)
  {
  }

  // ---------------------------------------------------------------------------
  // One step of nextFrame

  /** nextFrame changes nothing once the game is over or before it has started. */
  lemma InertStepChangesNothing(cfg: Config, s: State, r1: PipeRolls, r2: PipeRolls)
    requires Inert(s.frame)
    ensures Step(cfg, s, r1, r2) == s
  {
  }

  /** Reaching the ground clamps the bird to it and ends the game; score and velocity
      stay. */
  lemma GroundEndsGame(cfg: Config, s: State, r1: PipeRolls, r2: PipeRolls)
    requires !Inert(s.frame)
    requires s.frame.bird.top >= GroundLimit(cfg)
    ensures var t := Step(cfg, s, r1, r2);
      && t.frame == MovedPipes(cfg, s.frame, r1, r2).(bird := s.frame.bird.(top := GroundLimit(cfg)), gameOver := true)
      && t.velocity == s.velocity
  {
  }

  /** Hitting a pipe ends the game with bird, score and velocity unchanged. */
  lemma PipeCollisionEndsGame(cfg: Config, s: State, r1: PipeRolls, r2: PipeRolls)
    requires !Inert(s.frame)
    requires s.frame.bird.top < GroundLimit(cfg)
    requires HasCollidedWithPipe(cfg, MovedPipes(cfg, s.frame, r1, r2))
    ensures var t := Step(cfg, s, r1, r2);
      && t.frame == MovedPipes(cfg, s.frame, r1, r2).(gameOver := true)
      && t.velocity == s.velocity
  {
  }

  /** A step without collision: the velocity decays only if positive, the score grows
      by the number of pairs at the scoring position, and the bird moves by
      gravity^2 minus the decayed velocity; apart from the moved pairs, nothing else
      changes. */
  lemma FlightStep(cfg: Config, s: State, r1: PipeRolls, r2: PipeRolls)
    requires !Inert(s.frame)
    requires s.frame.bird.top < GroundLimit(cfg)
    requires !HasCollidedWithPipe(cfg, MovedPipes(cfg, s.frame, r1, r2))
    ensures var t := Step(cfg, s, r1, r2);
      var moved := MovedPipes(cfg, s.frame, r1, r2);
      && t.velocity == (if s.velocity > 0.0 then s.velocity - cfg.slowVelocityBy else s.velocity)
      && !t.frame.gameOver
      && t.frame.score == s.frame.score + PointsAwarded(cfg, moved)
      && t.frame.bird.top == s.frame.bird.top + cfg.gravity * cfg.gravity - t.velocity
      && t.frame == moved.(score := s.frame.score + PointsAwarded(cfg, moved),
                           bird := moved.bird.(top := s.frame.bird.top + cfg.gravity * cfg.gravity - t.velocity))
  {
  }

  /** One step never lowers the score, never clears gameOver, and never changes
      gameStarted. */
  lemma StepIsMonotone(cfg: Config, s: State, r1: PipeRolls, r2: PipeRolls)
    ensures var t := Step(cfg, s, r1, r2);
      && t.frame.score >= s.frame.score
      && (s.frame.gameOver ==> t.frame.gameOver)
      && t.frame.gameStarted == s.frame.gameStarted
  {
  }

  // ---------------------------------------------------------------------------
  // Runs of nextFrame and jump calls

  /** Once over (or before start), no sequence of nextFrame and jump calls changes the
      frame; in particular gameOver stays true until the next newGame. */
  lemma {:induction false} InertFrameIsFinal(cfg: Config, s: State, events: seq<Event>)
    requires Inert(s.frame)
    ensures Run(cfg, s, events).frame == s.frame
    decreases |events|
  {
    if events != [] {
      var next := Apply(cfg, s, events[0]);
      assert next.frame == s.frame;
      InertFrameIsFinal(cfg, next, events[1..]);
    }
  }

  /** The score never decreases over a run, and gameStarted never changes. */
  lemma {:induction false} ScoreNeverDecreases(cfg: Config, s: State, events: seq<Event>)
    ensures Run(cfg, s, events).frame.score >= s.frame.score
    ensures Run(cfg, s, events).frame.gameStarted == s.frame.gameStarted
    ensures s.frame.gameOver ==> Run(cfg, s, events).frame.gameOver
    decreases |events|
  {
    if events != [] {
      var next := Apply(cfg, s, events[0]);
      if events[0].Tick? {
        StepIsMonotone(cfg, s, events[0].first, events[0].second);
      }
      ScoreNeverDecreases(cfg, next, events[1..]);
    }
  }

  /** The velocity stays above -slowVelocityBy over any run. */
  lemma {:induction false} VelocityFloorOverRun(cfg: Config, s: State, events: seq<Event>)
    requires PhysicsConfig(cfg) && VelocityFloor(cfg, s.velocity)
    ensures VelocityFloor(cfg, Run(cfg, s, events).velocity)
    decreases |events|
  {
    if events != [] {
      ApplyKeepsVelocityFloor(cfg, s, events[0]);
      VelocityFloorOverRun(cfg, Apply(cfg, s, events[0]), events[1..]);
    }
  }

  predicate NoJumps(events: seq<Event>) {
    forall i :: 0 <= i < |events| ==> events[i].Tick?
  }

  lemma NoJumpsTail(events: seq<Event>)
    requires NoJumps(events) && events != []
    ensures events[0].Tick? && NoJumps(events[1..])
  {
    forall i | 0 <= i < |events[1..]| ensures events[1..][i].Tick? {
      assert events[1..][i] == events[i + 1];
    }
  }

  /** Without jumps and with no upward velocity, the bird falls at least gravity^2 per
      step, so the game ends (on the ground at the latest) within a bounded number of
      steps. */
  lemma {:induction false} FallsWithoutJumps(cfg: Config, s: State, events: seq<Event>)
    requires s.frame.gameStarted && s.velocity <= 0.0
    requires NoJumps(events) && |events| >= 1
    requires (|events| - 1) as real * (cfg.gravity * cfg.gravity) >= GroundLimit(cfg) - s.frame.bird.top
    ensures Run(cfg, s, events).frame.gameOver
    decreases |events|
  {
    var k := cfg.gravity * cfg.gravity;
    var e := events[0];
    var next := Step(cfg, s, e.first, e.second);
    assert Run(cfg, s, events) == Run(cfg, next, events[1..]);
    if s.frame.gameOver {
      InertFrameIsFinal(cfg, s, events);
    } else if next.frame.gameOver {
      InertFrameIsFinal(cfg, next, events[1..]);
    } else {
      FallingTick(cfg, s, e.first, e.second);
      assert |events| >= 2;
      assert (|events| - 1) as real * k == (|events| - 2) as real * k + k;
      NoJumpsTail(events);
      FallsWithoutJumps(cfg, next, events[1..]);
    }
  }

  /** One step of a running game with no upward velocity either ends the game or
      lowers the bird by gravity^2 minus the velocity, keeping the velocity. */
  lemma FallingTick(cfg: Config, s: State, r1: PipeRolls, r2: PipeRolls)
    requires !Inert(s.frame) && s.velocity <= 0.0
    ensures var t := Step(cfg, s, r1, r2);
      t.frame.gameOver ||
      (&& s.frame.bird.top < GroundLimit(cfg)
       && t.frame.gameStarted
       && t.velocity == s.velocity
       && t.frame.bird.top == s.frame.bird.top + cfg.gravity * cfg.gravity - s.velocity)
  {
  }

  /** The state after k nextFrame calls without jumps, from a game started with the
      default configuration and a velocity v <= 0 (the velocity is never decayed, so
      the bird falls 2.25 - v per step from 380). The game is over exactly once the
      bird was at or past the ground limit 740 before a step, and then it rests on the
      limit; until then the first pair, 350 - k or further right, is nowhere near
      the bird's columns (40 to 80) and the second pair has not spawned. */
  predicate DefaultFall(s: State, v: real, k: nat) {
    var c := 2.25 - v;
    && s.velocity == v
    && s.frame.gameStarted
    && (s.frame.gameOver <==> k >= 1 && 380.0 + (k - 1) as real * c >= GroundLimit(DefaultConfig))
    && (s.frame.gameOver ==> s.frame.bird.top == GroundLimit(DefaultConfig))
    && (!s.frame.gameOver ==>
          && s.frame.bird.top == 380.0 + k as real * c
          && s.frame.firstPipe.show && s.frame.firstPipe.left >= 350.0 - k as real
          && !s.frame.secondPipe.show)
  }

  lemma DefaultStartFalls(r1: PipeRolls, r2: PipeRolls, v: real)
    requires v <= 0.0
    ensures DefaultFall(State(StartFrame(DefaultConfig, r1, r2), v), v, 0)
  {
  }

  lemma DefaultFallStep(s: State, v: real, k: nat, r1: PipeRolls, r2: PipeRolls)
    requires v <= 0.0 && DefaultFall(s, v, k)
    ensures DefaultFall(Step(DefaultConfig, s, r1, r2), v, k + 1)
  {
    var c := 2.25 - v;
    assert k as real * c == (k - 1) as real * c + c;
    if !s.frame.gameOver && k >= 161 {
      assert (k - 1) as real * c == 160.0 * c + (k - 161) as real * c;
    }
  }

  lemma {:induction false} DefaultFallRun(s: State, v: real, k: nat, events: seq<Event>)
    requires v <= 0.0 && DefaultFall(s, v, k) && NoJumps(events)
    ensures DefaultFall(Run(DefaultConfig, s, events), v, k + |events|)
    decreases |events|
  {
    if events != [] {
      NoJumpsTail(events);
      DefaultFallStep(s, v, k, events[0].first, events[0].second);
      DefaultFallRun(Step(DefaultConfig, s, events[0].first, events[0].second), v, k + 1, events[1..]);
    }
  }

  /** With the default configuration, a started game with no upward velocity in which
      nobody jumps is over after 161 nextFrame calls, and it ended on the ground with
      the bird exactly on the ground limit: no pipe reaches the bird first. */
  lemma DefaultGameEndsWithin161Steps(r1: PipeRolls, r2: PipeRolls, velocity: real, events: seq<Event>)
    requires velocity <= 0.0
    requires NoJumps(events) && |events| >= 161
    ensures var t := Run(DefaultConfig, State(StartFrame(DefaultConfig, r1, r2), velocity), events);
      t.frame.gameOver && t.frame.bird.top == GroundLimit(DefaultConfig)
  {
    var c := 2.25 - velocity;
    DefaultStartFalls(r1, r2, velocity);
    DefaultFallRun(State(StartFrame(DefaultConfig, r1, r2), velocity), velocity, 0, events);
    assert (|events| - 1) as real * c == 160.0 * c + (|events| - 161) as real * c;
  }

  /** With the default configuration and velocity 0, the bird, falling 2.25 per step
      from 380, lands exactly on the ground limit 740: however many nextFrame calls
      are made without a jump, it never goes past the limit. */
  lemma DefaultStillBirdNeverPassesGround(r1: PipeRolls, r2: PipeRolls, events: seq<Event>)
    requires NoJumps(events)
    ensures Run(DefaultConfig, State(StartFrame(DefaultConfig, r1, r2), 0.0), events).frame.bird.top
              <= GroundLimit(DefaultConfig)
  {
    DefaultStartFalls(r1, r2, 0.0);
    DefaultFallRun(State(StartFrame(DefaultConfig, r1, r2), 0.0), 0.0, 0, events);
  }

  /** The ground test comes before the bird moves, so a step can carry the bird past
      the ground limit without ending the game; the next step clamps it. With the
      default configuration and velocity -0.2 (what a jump of 10 leaves after 34
      decays of 0.3), 147 steps without a jump leave the bird at 740.15, past 740,
      with the game still running. */
  lemma BirdCanSinkIntoGroundForOneFrame(r1: PipeRolls, r2: PipeRolls, events: seq<Event>)
    requires NoJumps(events) && |events| == 147
    ensures var t := Run(DefaultConfig, State(StartFrame(DefaultConfig, r1, r2), -0.2), events);
      !t.frame.gameOver && t.frame.bird.top == 740.15 && t.frame.bird.top > GroundLimit(DefaultConfig)
  {
    DefaultStartFalls(r1, r2, -0.2);
    DefaultFallRun(State(StartFrame(DefaultConfig, r1, r2), -0.2), -0.2, 0, events);
  }

  // ---------------------------------------------------------------------------
  // The shape of every pair

  /** A pair as createPipe builds it; movePipe only changes `left` and `show`, or
      replaces the pair by a new one. */
  predicate PairShape(cfg: Config, p: PipePair) {
    && p.topPipe.top == 0.0
    && IsWholeGap(p.bottomPipe.top - p.topPipe.height)
    && p.bottomPipe.height == cfg.height
    && p.width == cfg.pipeWidth
    && p.topPipe.text == p.bottomPipe.text < LabelCount
    && (cfg.minTopForTopPipe <= cfg.maxTopForTopPipe ==>
          cfg.minTopForTopPipe <= p.topPipe.height <= cfg.maxTopForTopPipe)
  }

  /** Both pairs are well formed, and the fields copied from the configuration keep
      their values. */
  predicate FrameShape(cfg: Config, f: Frame) {
    && PairShape(cfg, f.firstPipe)
    && PairShape(cfg, f.secondPipe)
    && f.width == cfg.width && f.height == cfg.height
    && f.ground == Ground(cfg.groundHeight)
    && f.bird.left == cfg.birdX && f.bird.size == cfg.birdSize
  }

  lemma NewFrameHasShape(cfg: Config, r1: PipeRolls, r2: PipeRolls)
    ensures FrameShape(cfg, NewFrame(cfg, r1, r2)) && FrameShape(cfg, StartFrame(cfg, r1, r2))
  {
  }

  lemma StepKeepsShape(cfg: Config, s: State, r1: PipeRolls, r2: PipeRolls)
    requires FrameShape(cfg, s.frame)
    ensures FrameShape(cfg, Step(cfg, s, r1, r2).frame)
  {
  }

  /** Every pair that ever appears in the frame has the shape createPipe gives it. */
  lemma {:induction false} RunKeepsShape(cfg: Config, s: State, events: seq<Event>)
    requires FrameShape(cfg, s.frame)
    ensures FrameShape(cfg, Run(cfg, s, events).frame)
    decreases |events|
  {
    if events != [] {
      if events[0].Tick? {
        StepKeepsShape(cfg, s, events[0].first, events[0].second);
      }
      RunKeepsShape(cfg, Apply(cfg, s, events[0]), events[1..]);
    }
  }

  // ---------------------------------------------------------------------------
  // The two-slot pipe pipeline never empties

  /** The minimum horizontal distance between two visible pairs. */
  function PairSpacing(cfg: Config): real {
    SpawnThreshold(cfg) + cfg.pipeWidth + 2.0 * cfg.speed
  }

  /** Configurations under which the two pairs alternate: a positive speed, a spawn
      threshold right of the point where a pair is hidden, and a playfield wide
      enough that a new pair spawns well apart from the pair it follows. */
  predicate StaggerConfig(cfg: Config) {
    && cfg.speed > 0.0
    && SpawnThreshold(cfg) + cfg.pipeWidth > cfg.speed
    && cfg.width - cfg.pipeWidth - SpawnThreshold(cfg) >= PairSpacing(cfg)
  }

  /** The pipeline invariant: at least one pair is visible; a visible pair has not
      gone more than one move past the left edge; a lone visible pair has not yet
      passed the spawn threshold (so the hidden one has not been due); two visible
      pairs are at least PairSpacing apart. */
  predicate Staggered(cfg: Config, f: Frame) {
    var a, b := f.firstPipe, f.secondPipe;
    && (a.show || b.show)
    && (a.show ==> a.left > -cfg.pipeWidth - cfg.speed)
    && (b.show ==> b.left > -cfg.pipeWidth - cfg.speed)
    && (a.show && !b.show ==> a.left >= SpawnThreshold(cfg))
    && (!a.show && b.show ==> b.left >= SpawnThreshold(cfg) - cfg.speed)
    && (a.show && b.show ==> a.left - b.left >= PairSpacing(cfg) || b.left - a.left >= PairSpacing(cfg))
  }

  lemma DefaultConfigIsSound()
    ensures StaggerConfig(DefaultConfig) && PhysicsConfig(DefaultConfig)
  {
  }

  lemma NewFrameIsStaggered(cfg: Config, r1: PipeRolls, r2: PipeRolls)
    requires StaggerConfig(cfg)
    ensures Staggered(cfg, NewFrame(cfg, r1, r2)) && Staggered(cfg, StartFrame(cfg, r1, r2))
  {
  }

  /** Moving the pipes keeps the pipeline invariant: so at most one pair is ever
      hidden. */
  lemma MovedPipesStaggered(cfg: Config, f: Frame, r1: PipeRolls, r2: PipeRolls)
    requires StaggerConfig(cfg) && Staggered(cfg, f)
    ensures Staggered(cfg, MovedPipes(cfg, f, r1, r2))
  {
    var a, b := f.firstPipe, f.secondPipe;
    var a' := MovedPipe(cfg, a, b, r1);
    var b' := MovedPipe(cfg, b, a', r2);
    if a.show && !b.show {
      assert a' == a.(left := a.left - cfg.speed);
    } else if !a.show && b.show {
      assert b' == b.(left := b.left - cfg.speed);
    } else {
      assert a.show && b.show;
    }
  }

  lemma StepKeepsStaggered(cfg: Config, s: State, r1: PipeRolls, r2: PipeRolls)
    requires StaggerConfig(cfg) && Staggered(cfg, s.frame)
    ensures Staggered(cfg, Step(cfg, s, r1, r2).frame)
  {
    if !Inert(s.frame) {
      MovedPipesStaggered(cfg, s.frame, r1, r2);
    }
  }

  lemma {:induction false} StaggeredOverRun(cfg: Config, s: State, events: seq<Event>)
    requires StaggerConfig(cfg) && Staggered(cfg, s.frame)
    ensures Staggered(cfg, Run(cfg, s, events).frame)
    decreases |events|
  {
    if events != [] {
      if events[0].Tick? {
        StepKeepsStaggered(cfg, s, events[0].first, events[0].second);
      }
      StaggeredOverRun(cfg, Apply(cfg, s, events[0]), events[1..]);
    }
  }
}
