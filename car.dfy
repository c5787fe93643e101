/** Lanes, moves and the car kinematics of src/game/car/mod.rs: the player's
    car, which changes lane and never moves along the road, and the bot car,
    which drives from the right edge of the screen to the left. */
module Car {
  import Macroquad

  /** Width of a bot car's picture, in pixels. */
  const BotCarWidth: real := 160.0

  datatype Direction = Up | Down

  /** The three lanes, from the top of the screen down. */
  datatype Way = Upper | Center | Lower

  /** Position of a lane counted from the top. */
  function WayIndex(w: Way): (i: nat)
    ensures i < 3
    ensures i == 0 <==> w == Upper
    ensures i == 2 <==> w == Lower
  {
    match w
    case Upper => 0
    case Center => 1
    case Lower => 2
  }

  /** Where `move_car` takes a car in lane `w`: one lane in the direction of
      the move, or nowhere when it is already in the edge lane on that side. */
  function MovedWay(w: Way, dir: Direction): (r: Way)
    ensures dir == Up ==> WayIndex(r) == if WayIndex(w) == 0 then 0 else WayIndex(w) - 1
    ensures dir == Down ==> WayIndex(r) == if WayIndex(w) == 2 then 2 else WayIndex(w) + 1
  {
    match dir
    case Up =>
      (match w
       case Upper => Upper
       case Center => Upper
       case Lower => Center)
    case Down =>
      (match w
       case Upper => Center
       case Center => Lower
       case Lower => Lower)
  }

  /** A move changes the lane by at most one, and does nothing exactly when
      the car already is in the edge lane the move points to. */
  lemma MoveIsOneLaneStep(w: Way, dir: Direction)
    ensures -1 <= WayIndex(MovedWay(w, dir)) - WayIndex(w) <= 1
    ensures MovedWay(w, dir) == w <==> (dir == Up && w == Upper) || (dir == Down && w == Lower)
  {
  }

  /** Moving down undoes moving up, except from the top lane where the move
      up did nothing; and symmetrically for the bottom lane. */
  lemma MovesUndoEachOther(w: Way)
    ensures MovedWay(MovedWay(w, Up), Down) == w <==> w != Upper
    ensures MovedWay(MovedWay(w, Down), Up) == w <==> w != Lower
  {
  }

  /** A bot's track position after `update_position(dt)` at `speed`. */
  function Advanced(x: real, speed: real, dt: real): (x': real)
    ensures speed >= 0.0 && dt >= 0.0 ==> x' <= x
  {
    x - speed * dt
  }

  /** A bot's position after one `update_position` per element of `dts`. */
  function AdvancedBy(x: real, speed: real, dts: seq<real>): real
  {
    if dts == [] then x else Advanced(AdvancedBy(x, speed, dts[..|dts| - 1]), speed, dts[|dts| - 1])
  }

  function Sum(dts: seq<real>): real
  {
    if dts == [] then 0.0 else Sum(dts[..|dts| - 1]) + dts[|dts| - 1]
  }

  /** Several updates at one speed move the bot by the speed times their total time. */
  lemma {:induction false} AdvancedByTotalTime(x: real, speed: real, dts: seq<real>)
    ensures AdvancedBy(x, speed, dts) == x - speed * Sum(dts)
  {
    if dts != [] {
      AdvancedByTotalTime(x, speed, dts[..|dts| - 1]);
      var dt := dts[|dts| - 1];
      calc {
        AdvancedBy(x, speed, dts);
        (x - speed * Sum(dts[..|dts| - 1])) - speed * dt;
        { assert speed * Sum(dts) == speed * Sum(dts[..|dts| - 1]) + speed * dt; }
        x - speed * Sum(dts);
      }
    }
  }

  /** The test of `is_out_of_screen`: the bot is past the left edge by more
      than the screen's width plus its own. */
  predicate OutOfScreen(x: real, screenWidth: real): (r: bool)
    ensures r <==> x + BotCarWidth < -screenWidth
    ensures r && screenWidth >= 0.0 ==> x < -160.0
  {
    x < -screenWidth - BotCarWidth
  }

  /** A bot that has left the screen never comes back while it keeps moving
      left (non-negative speed and frame times). */
  lemma {:induction false} StaysOutOfScreen(x: real, speed: real, dts: seq<real>, screenWidth: real)
    requires OutOfScreen(x, screenWidth)
    requires speed >= 0.0
    requires forall i :: 0 <= i < |dts| ==> dts[i] >= 0.0
    ensures OutOfScreen(AdvancedBy(x, speed, dts), screenWidth)
    ensures AdvancedBy(x, speed, dts) <= x
  {
    if dts != [] {
      StaysOutOfScreen(x, speed, dts[..|dts| - 1], screenWidth);
    }
  }

  /** The player's car as src/game/car/mod.rs defines it. */
  class PlayerCar {
    const texture: Macroquad.Texture2D
    var way: Way

    /** A new player car starts in the middle lane. */
    constructor (texture: Macroquad.Texture2D)
      ensures this.texture == texture && way == Center
    {
      this.texture := texture;
      way := Center;
    }

    /** Changes lane one step in `dir`, staying put at the edge. */
    method MoveCar(dir: Direction)
      modifies this
      ensures way == MovedWay(old(way), dir)
    {
      match dir {
        case Up =>
          match way {
            case Upper => way := Upper;
            case Center => way := Upper;
            case Lower => way := Center;
          }
        case Down =>
          match way {
            case Upper => way := Center;
            case Center => way := Lower;
            case Lower => way := Lower;
          }
      }
    }
  }

  /** The bot car as src/game/car/mod.rs defines it. */
  class BotCar {
    const texture: Macroquad.Texture2D
    var way: Way
    var xPosition: real
    var speed: real

    /** A new bot starts at the right edge of the screen. */
    constructor (texture: Macroquad.Texture2D, way: Way, speed: real, screenWidth: real)
      ensures this.texture == texture && this.way == way && this.speed == speed
      ensures xPosition == screenWidth
    {
      this.texture := texture;
      this.way := way;
      this.speed := speed;
      xPosition := screenWidth;
    }

    method SetSpeed(newSpeed: real)
      modifies this
      ensures speed == newSpeed
      ensures way == old(way) && xPosition == old(xPosition)
    {
      speed := newSpeed;
    }

    method UpdatePosition(deltaTime: real)
      modifies this
      ensures xPosition == Advanced(old(xPosition), speed, deltaTime)
      ensures way == old(way) && speed == old(speed)
    {
      xPosition := xPosition - speed * deltaTime;
    }

    /** Past the left edge by more than the screen's width and its own. */
    predicate IsOutOfScreen(screenWidth: real): (r: bool)
      reads this
      ensures r <==> xPosition < -screenWidth - 160.0
    {
      OutOfScreen(xPosition, screenWidth)
    }

    /** A bot collides with the player exactly when they share a lane; where
        the bot is along the road plays no part. */
    function IsColliding(playerCar: PlayerCar): (r: bool)
      reads this, playerCar
      ensures r <==> way == playerCar.way
    {
      match way
      case Upper => playerCar.way == Upper
      case Center => playerCar.way == Center
      case Lower => playerCar.way == Lower
    }
  }
}
