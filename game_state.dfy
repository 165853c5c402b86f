/**
 * The records of the game (Frame, Bird, Ground, PipePair, Pipe), the controller's
 * configuration, and the pure routines of GameController: the random draws of a new
 * pipe pair, createPipe, checkPipe, hasCollidedWithPipe, and the functions that
 * specify movePipe, nextFrame and jump.
 *
 * Positions, sizes and the velocity are reals: an idealisation of JavaScript doubles.
 */
module GameState {

  /** A value returned by Math.random(): a real in [0, 1). */
  type Roll = r: real | 0.0 <= r < 1.0

  /** The three draws createPipe makes, in the order it makes them. */
  datatype PipeRolls = PipeRolls(y: Roll, text: Roll, gap: Roll)

  /** The read-only constructor parameters of GameController (pipeGap, the one
      mutable parameter, is a field of the class). */
  datatype Config = Config(
    height: real,
    width: real,
    pipeWidth: real,
    minTopForTopPipe: real,
    maxTopForTopPipe: real,
    generateNewPipePercent: real,
    speed: real,
    groundHeight: real,
    birdX: real,
    birdSize: real,
    gravity: real,
    jumpVelocity: real,
    slowVelocityBy: real)

  /** The constructor's default arguments (the default pipeGap, read by no rule, is
      left to the caller of the constructor). */
  const DefaultConfig := Config(800.0, 400.0, 50.0, 50.0, 350.0, 0.7, 1.0, 20.0, 40.0, 40.0, 1.5, 10.0, 0.3)

  /** Bounds of the random gap between the two pipes of a pair. */
  const GapMin: int := 155
  const GapMax: int := 180

  /** Number of decorative labels a pipe may carry. */
  const LabelCount: nat := 17

  /** A pipe's label is kept as an index into the list of labels. */
  datatype Pipe = Pipe(top: real, height: real, text: nat)

  datatype PipePair = PipePair(topPipe: Pipe, bottomPipe: Pipe, show: bool, left: real, width: real)

  datatype Bird = Bird(top: real, left: real, size: real)

  datatype Ground = Ground(height: real)

  datatype Frame = Frame(
    firstPipe: PipePair,
    secondPipe: PipePair,
    bird: Bird,
    gameOver: bool,
    gameStarted: bool,
    width: real,
    height: real,
    score: nat,
    ground: Ground)

  /** Everything nextFrame reads and writes: the frame and the hidden velocity. */
  datatype State = State(frame: Frame, velocity: real)

  // ---------------------------------------------------------------------------
  // Pipe generation

  /** randomYForTopPipe: the lower edge of the top pipe, between the two bounds. */
  function RandomYForTopPipe(cfg: Config, roll: Roll): (y: real)
    ensures cfg.minTopForTopPipe <= cfg.maxTopForTopPipe ==>
              cfg.minTopForTopPipe <= y <= cfg.maxTopForTopPipe
    ensures cfg.minTopForTopPipe < cfg.maxTopForTopPipe ==> y < cfg.maxTopForTopPipe
  {
    var span := cfg.maxTopForTopPipe - cfg.minTopForTopPipe;
    assert span >= 0.0 ==> 0.0 <= span * roll <= span;
    assert span > 0.0 ==> span * roll < span;
    cfg.minTopForTopPipe + span * roll
  }

  /** randomTextForPipe: the index of one of the labels. */
  function RandomTextForPipe(roll: Roll): (i: nat)
    ensures i < LabelCount
  {
    (roll * LabelCount as real).Floor
  }

  /** randomGapForPipe: a whole number of pixels between GapMin and GapMax. */
  function RandomGapForPipe(roll: Roll): (gap: int)
    ensures GapMin <= gap <= GapMax
  {
    (roll * (1 + GapMax - GapMin) as real).Floor + GapMin
  }

  /** A distance that is a whole number between GapMin and GapMax. */
  predicate IsWholeGap(g: real) {
    g.Floor as real == g && GapMin as real <= g <= GapMax as real
  }

  /** createPipe: a pair flush with the right edge, the top pipe hanging from y = 0,
      the bottom pipe starting a random gap below it. */
  function CreatePipe(cfg: Config, show: bool, rolls: PipeRolls): (p: PipePair)
    ensures p.topPipe.top == 0.0
    ensures IsWholeGap(p.bottomPipe.top - p.topPipe.height)
    ensures p.bottomPipe.height == cfg.height
    ensures cfg.minTopForTopPipe <= cfg.maxTopForTopPipe ==>
              cfg.minTopForTopPipe <= p.topPipe.height <= cfg.maxTopForTopPipe
    ensures p.topPipe.text == p.bottomPipe.text < LabelCount
    ensures p.left == cfg.width - cfg.pipeWidth && p.width == cfg.pipeWidth && p.show == show
  {
    var height := RandomYForTopPipe(cfg, rolls.y);
    var text := RandomTextForPipe(rolls.text);
    var gap := RandomGapForPipe(rolls.gap);
    PipePair(
      Pipe(0.0, height, text),
      Pipe(height + gap as real, cfg.height, text),
      show,
      cfg.width - cfg.pipeWidth,
      cfg.pipeWidth)
  }

  // ---------------------------------------------------------------------------
  // Pipe motion

  /** The left position another pair must pass before a hidden pair respawns. */
  function SpawnThreshold(cfg: Config): real {
    cfg.width * (1.0 - cfg.generateNewPipePercent)
  }

  /** What movePipe returns for `pipe`, given the other pair and the draws a respawn
      would use. */
  function MovedPipe(cfg: Config, pipe: PipePair, other: PipePair, rolls: PipeRolls): PipePair {
    if pipe.show && pipe.left <= -cfg.pipeWidth then
      pipe.(show := false)
    else
      var moved := if pipe.show then pipe.(left := pipe.left - cfg.speed) else pipe;
      if other.left < SpawnThreshold(cfg) && other.show && !moved.show then
        CreatePipe(cfg, true, rolls)
      else
        moved
  }

  // ---------------------------------------------------------------------------
  // Collision

  /** checkPipe: the pair's columns meet the bird's columns (edges included). */
  predicate CheckPipe(cfg: Config, left: real) {
    left <= cfg.birdX + cfg.birdSize && left + cfg.pipeWidth >= cfg.birdX
  }

  /** A visible pair that horizontally overlaps the bird. */
  predicate Overlaps(cfg: Config, p: PipePair) {
    p.show && CheckPipe(cfg, p.left)
  }

  /** The bird is strictly inside the opening of the pair. */
  predicate ClearsPair(cfg: Config, bird: Bird, p: PipePair) {
    bird.top > p.topPipe.height && bird.top + cfg.birdSize < p.bottomPipe.top
  }

  /** hasCollidedWithPipe: the first overlapping pair, first before second, decides. */
  predicate HasCollidedWithPipe(cfg: Config, f: Frame) {
    if Overlaps(cfg, f.firstPipe) then
      !ClearsPair(cfg, f.bird, f.firstPipe)
    else if Overlaps(cfg, f.secondPipe) then
      !ClearsPair(cfg, f.bird, f.secondPipe)
    else
      false
  }

  // ---------------------------------------------------------------------------
  // Game lifecycle and one step

  /** The frame newGame installs. */
  function NewFrame(cfg: Config, first: PipeRolls, second: PipeRolls): Frame {
    Frame(
      CreatePipe(cfg, true, first),
      CreatePipe(cfg, false, second),
      Bird(cfg.height / 2.0 - cfg.birdSize / 2.0, cfg.birdX, cfg.birdSize),
      false,
      false,
      cfg.width,
      cfg.height,
      0,
      Ground(cfg.groundHeight))
  }

  /** The frame start leaves behind. */
  function StartFrame(cfg: Config, first: PipeRolls, second: PipeRolls): Frame {
    NewFrame(cfg, first, second).(gameStarted := true)
  }

  /** The lowest position of the bird's top edge before it touches the ground. */
  function GroundLimit(cfg: Config): real {
    cfg.height - cfg.groundHeight - cfg.birdSize
  }

  /** The pair's right edge is exactly where a point is awarded. */
  predicate ScoresPoint(cfg: Config, p: PipePair) {
    p.left + cfg.pipeWidth == cfg.birdX - cfg.speed
  }

  /** The velocity after the decay of one step. */
  function Decayed(cfg: Config, v: real): real {
    if v > 0.0 then v - cfg.slowVelocityBy else v
  }

  /** The velocity after jump. */
  function Jumped(cfg: Config, v: real): real {
    if v <= 0.0 then v + cfg.jumpVelocity else v
  }

  /** nextFrame does nothing in this state. */
  predicate Inert(f: Frame) {
    f.gameOver || !f.gameStarted
  }

  /** The frame with both pairs moved in nextFrame's order: the second pair is moved
      against the already-moved first pair. */
  function MovedPipes(cfg: Config, f: Frame, first: PipeRolls, second: PipeRolls): Frame {
    var p1 := MovedPipe(cfg, f.firstPipe, f.secondPipe, first);
    f.(firstPipe := p1, secondPipe := MovedPipe(cfg, f.secondPipe, p1, second))
  }

  /** Number of pairs at the scoring position. */
  function PointsAwarded(cfg: Config, f: Frame): nat {
    (if ScoresPoint(cfg, f.firstPipe) then 1 else 0) + (if ScoresPoint(cfg, f.secondPipe) then 1 else 0)
  }

  /** What nextFrame does to the frame and the velocity; `first` and `second` are the
      draws a respawn of the first or the second pair would use. */
  function Step(cfg: Config, s: State, first: PipeRolls, second: PipeRolls): State {
    if Inert(s.frame) then s
    else
      var f := MovedPipes(cfg, s.frame, first, second);
      if f.bird.top >= GroundLimit(cfg) then
        State(f.(bird := f.bird.(top := GroundLimit(cfg)), gameOver := true), s.velocity)
      else if HasCollidedWithPipe(cfg, f) then
        State(f.(gameOver := true), s.velocity)
      else
        var v := Decayed(cfg, s.velocity);
        State(f.(score := f.score + PointsAwarded(cfg, f), bird := f.bird.(top := f.bird.top + cfg.gravity * cfg.gravity - v)), v)
  }

  /** A call made on a running controller between two newGame calls. */
  datatype Event = Tick(first: PipeRolls, second: PipeRolls) | Press

  function Apply(cfg: Config, s: State, e: Event): State {
    match e
    case Tick(r1, r2) => Step(cfg, s, r1, r2)
    case Press => s.(velocity := Jumped(cfg, s.velocity))
  }

  /** The state after a sequence of nextFrame and jump calls. */
  function Run(cfg: Config, s: State, events: seq<Event>): State
    decreases |events|
  {
    if events == [] then s else Run(cfg, Apply(cfg, s, events[0]), events[1..])
  }
}
