/**
 * GameController: owns the current frame and the hidden velocity and changes them in
 * place. Each method is proved against the function of GameState that specifies it,
 * and keeps the controller's invariant.
 */
module Controller {
  import opened GameState
  import opened GameLemmas

  class GameController {
    const config: Config
    /** Configurable but read by no rule. */
    var pipeGap: real
    var frame: Frame
    var velocity: real
    /** newGame has run, so `frame` holds a real frame. */
    ghost var hasFrame: bool

    /** Every pair has the shape createPipe gives it; the velocity floor holds under
        sound physics parameters, and the two pairs stay staggered under a
        configuration that allows it. */
    ghost predicate Valid()
      reads this
    {
      && (hasFrame ==> FrameShape(config, frame))
      && (PhysicsConfig(config) ==> VelocityFloor(config, velocity))
      && (hasFrame && StaggerConfig(config) ==> Staggered(config, frame))
    }

    constructor (config: Config, pipeGap: real)
      ensures Valid() && !hasFrame
      ensures this.config == config && this.pipeGap == pipeGap && velocity == 0.0
    {
      this.config := config;
      this.pipeGap := pipeGap;
      velocity := 0.0;
      hasFrame := false;
    }

    /** Installs a fresh frame: first pair visible, second hidden, score 0, the bird
        centred. The velocity is not reset. */
    method NewGame(first: PipeRolls, second: PipeRolls) returns (f: Frame)
      requires Valid()
      modifies this`frame, this`hasFrame
      ensures Valid() && hasFrame
      ensures frame == NewFrame(config, first, second) && f == frame
      ensures velocity == old(velocity) && pipeGap == old(pipeGap)
    {
      var firstPipe := CreatePipe(config, true, first);
      var secondPipe := CreatePipe(config, false, second);
      frame := Frame(
        firstPipe,
        secondPipe,
        Bird(config.height / 2.0 - config.birdSize / 2.0, config.birdX, config.birdSize),
        false,
        false,
        config.width,
        config.height,
        0,
        Ground(config.groundHeight));
      hasFrame := true;
      NewFrameHasShape(config, first, second);
      if StaggerConfig(config) {
        NewFrameIsStaggered(config, first, second);
      }
      f := frame;
    }

    /** newGame, then gameStarted := true. */
    method Start(first: PipeRolls, second: PipeRolls) returns (f: Frame)
      requires Valid()
      modifies this`frame, this`hasFrame
      ensures Valid() && hasFrame
      ensures frame == StartFrame(config, first, second) && f == frame
      ensures velocity == old(velocity) && pipeGap == old(pipeGap)
    {
      f := NewGame(first, second);
      frame := frame.(gameStarted := true);
      NewFrameHasShape(config, first, second);
      if StaggerConfig(config) {
        NewFrameIsStaggered(config, first, second);
      }
      f := frame;
    }

    /** movePipe: hide a pair past the left edge, scroll a visible one, respawn a
        hidden one once the other pair has moved far enough left. */
    method MovePipe(pipe: PipePair, otherPipe: PipePair, rolls: PipeRolls) returns (r: PipePair)
      ensures r == MovedPipe(config, pipe, otherPipe, rolls)
    {
      r := pipe;
      if r.show && r.left <= -config.pipeWidth {
        r := r.(show := false);
        return;
      }
      if r.show {
        r := r.(left := r.left - config.speed);
      }
      if otherPipe.left < config.width * (1.0 - config.generateNewPipePercent) && otherPipe.show && !r.show {
        r := CreatePipe(config, true, rolls);
      }
    }

    /** nextFrame: one step of the game; `first` and `second` are the draws a respawn
        of the first or the second pair would use. */
    method NextFrame(first: PipeRolls, second: PipeRolls) returns (f: Frame)
      requires Valid() && hasFrame
      modifies this`frame, this`velocity
      ensures Valid()
      ensures State(frame, velocity) == Step(config, State(old(frame), old(velocity)), first, second)
      ensures f == frame
    {
      ghost var s := State(frame, velocity);
      if frame.gameOver || !frame.gameStarted {
        return frame;
      }
      StepKeepsShape(config, s, first, second);
      if StaggerConfig(config) {
        StepKeepsStaggered(config, s, first, second);
      }

      var p1 := MovePipe(frame.firstPipe, frame.secondPipe, first);
      frame := frame.(firstPipe := p1);
      var p2 := MovePipe(frame.secondPipe, frame.firstPipe, second);
      frame := frame.(secondPipe := p2);

      if frame.bird.top >= config.height - config.groundHeight - config.birdSize {
        frame := frame.(bird := frame.bird.(top := config.height - config.groundHeight - config.birdSize));
        frame := frame.(gameOver := true);
        return frame;
      }

      if HasCollidedWithPipe(config, frame) {
        frame := frame.(gameOver := true);
        return frame;
      }

      if velocity > 0.0 {
        velocity := velocity - config.slowVelocityBy;
      }

      if frame.firstPipe.left + config.pipeWidth == config.birdX - config.speed {
        frame := frame.(score := frame.score + 1);
      }
      if frame.secondPipe.left + config.pipeWidth == config.birdX - config.speed {
        frame := frame.(score := frame.score + 1);
      }

      frame := frame.(bird := frame.bird.(top := frame.bird.top + config.gravity * config.gravity - velocity));
      f := frame;
    }

    /** jump: add jumpVelocity unless the bird is still rising. */
    method Jump()
      requires Valid()
      modifies this`velocity
      ensures Valid()
      ensures velocity == Jumped(config, old(velocity))
      ensures old(velocity) <= 0.0 ==> velocity == old(velocity) + config.jumpVelocity
      ensures old(velocity) > 0.0 ==> velocity == old(velocity)
    {
      if velocity <= 0.0 {
        velocity := velocity + config.jumpVelocity;
      }
    }
  }
}
