/** The scrolling road of src/game/graphics/background.rs: a picture that
    slides left at the game's speed and jumps back to the origin once it has
    slid a full screen width, so that two copies side by side loop forever. */
module Backgrounds {
  import opened Wrappers
  import Macroquad
  import Config

  datatype Vec2 = Vec2(x: real, y: real)

  /** The road's horizontal offset after one `move_texture`: moved left by
      `speed * deltaTime`, and back to 0 once past one screen width. */
  function Scrolled(x: real, speed: real, deltaTime: real, screenWidth: real): (x': real)
    ensures screenWidth >= 0.0 ==> x' >= -screenWidth
    ensures x' == 0.0 || x' == x - speed * deltaTime
    ensures x - speed * deltaTime >= -screenWidth ==> x' == x - speed * deltaTime
    ensures -screenWidth <= x <= 0.0 && speed * deltaTime >= 0.0 ==> -screenWidth <= x' <= 0.0
  {
    var moved := x - speed * deltaTime;
    if moved < -screenWidth then 0.0 else moved
  }

  /** The offset after one `move_texture` per (speed, frame time) pair of
      `moves`, in order; the speed may change between frames. */
  function ScrolledBy(x: real, moves: seq<(real, real)>, screenWidth: real): real
  {
    if moves == [] then x
    else
      var (speed, deltaTime) := moves[|moves| - 1];
      Scrolled(ScrolledBy(x, moves[..|moves| - 1], screenWidth), speed, deltaTime, screenWidth)
  }

  /** Starting inside the window [-W, 0], the road never leaves it, however
      many frames go by, as long as it never moves right. */
  lemma {:induction false} ScrollStaysInWindow(x: real, moves: seq<(real, real)>, screenWidth: real)
    requires -screenWidth <= x <= 0.0
    requires forall i :: 0 <= i < |moves| ==> moves[i].0 * moves[i].1 >= 0.0
    ensures -screenWidth <= ScrolledBy(x, moves, screenWidth) <= 0.0
  {
    if moves != [] {
      ScrollStaysInWindow(x, moves[..|moves| - 1], screenWidth);
    }
  }

  class Background {
    const texture: Macroquad.Texture2D
    var position: Vec2
    var speed: real

    constructor (texture: Macroquad.Texture2D)
      ensures this.texture == texture
      ensures position == Vec2(0.0, 0.0) && speed == Config.StartGameSpeed
    {
      this.texture := texture;
      position := Vec2(0.0, 0.0);
      speed := 300.0;
    }

    /** `Background::new`: a road only when its picture was loaded, at the
        origin and at the game's starting speed. */
    static method New(loaded: Result<Macroquad.Texture2D, Macroquad.FileError>)
      returns (r: Result<Background, Macroquad.FileError>)
      ensures r.Success? <==> loaded.Success?
      ensures r.Failure? ==> r.error == loaded.error
      ensures r.Success? ==> fresh(r.value) && r.value.texture == loaded.value
      ensures r.Success? ==> r.value.position == Vec2(0.0, 0.0) && r.value.speed == Config.StartGameSpeed
    {
      match loaded {
        case Failure(e) => r := Failure(e);
        case Success(t) =>
          var background := new Background(t);
          r := Success(background);
      }
    }

    /** `move_texture` without the drawing: only the horizontal offset changes. */
    method MoveTexture(deltaTime: real, screenWidth: real)
      modifies this
      ensures position == Vec2(Scrolled(old(position.x), speed, deltaTime, screenWidth), old(position.y))
      ensures speed == old(speed)
    {
      position := position.(x := position.x - speed * deltaTime);
      if position.x < -screenWidth {
        position := position.(x := 0.0);
      }
    }

    method SetSpeed(speed: real)
      modifies this
      ensures this.speed == speed && position == old(position)
    {
      this.speed := speed;
    }
  }
}
