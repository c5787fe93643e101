/** The bot car of src/game/car/bot_car.rs, the one the traffic spawner
    creates.  It behaves as the bot car of src/game/car/mod.rs, except that
    it loads its own picture and so can fail to be created. */
module BotCars {
  import opened Wrappers
  import opened Macroquad
  import opened Car
  import opened RustyErrors
  import PlayerCars

  class BotCar {
    const texture: Texture2D
    var way: Way
    var xPosition: real
    var speed: real

    constructor (texture: Texture2D, way: Way, speed: real, screenWidth: real)
      ensures this.texture == texture && this.way == way && this.speed == speed
      ensures xPosition == screenWidth
    {
      this.texture := texture;
      this.way := way;
      this.speed := speed;
      xPosition := screenWidth;
    }

    /** `BotCar::new`: a failed picture load is converted to a file error;
        otherwise the bot starts at the right edge of the screen in `way`. */
    static method New(way: Way, speed: real, screenWidth: real, loaded: Result<Texture2D, FileError>)
      returns (r: RustyResult<BotCar>)
      ensures r.Success? <==> loaded.Success?
      ensures r.Failure? ==> r.error == FromFileError(loaded.error)
      ensures r.Success? ==> fresh(r.value) && r.value.texture == loaded.value
      ensures r.Success? ==> r.value.way == way && r.value.speed == speed && r.value.xPosition == screenWidth
    {
      match loaded {
        case Failure(e) => r := Failure(FromFileError(e));
        case Success(t) =>
          var car := new BotCar(t, way, speed, screenWidth);
          r := Success(car);
      }
    }

    method SetSpeed(newSpeed: real)
      modifies this
      ensures speed == newSpeed
      ensures way == old(way) && xPosition == old(xPosition)
    {
      speed := newSpeed;
    }

    method UpdatePosition(deltaTime: real)
      modifies this
      ensures xPosition == Advanced(old(xPosition), speed, deltaTime)
      ensures way == old(way) && speed == old(speed)
    {
      xPosition := xPosition - speed * deltaTime;
    }

    /** Past the left edge by more than the screen's width and its own. */
    predicate IsOutOfScreen(screenWidth: real): (r: bool)
      reads this
      ensures r <==> xPosition < -screenWidth - 160.0
    {
      OutOfScreen(xPosition, screenWidth)
    }

    /** Same lane as the player, wherever the bot is along the road. */
    function IsColliding(playerCar: PlayerCars.PlayerCar): (r: bool)
      reads this, playerCar
      ensures r <==> way == playerCar.way
    {
      match way
      case Upper => playerCar.way == Upper
      case Center => playerCar.way == Center
      case Lower => playerCar.way == Lower
    }
  }
}
