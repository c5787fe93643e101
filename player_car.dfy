/** The player's car of src/game/car/player_car.rs, the one the game loop of
    src/game/game.rs moves: its lane is a public field. */
module PlayerCars {
  import opened Wrappers
  import opened Macroquad
  import opened Car

  class PlayerCar {
    const texture: Texture2D
    var way: Way

    constructor (texture: Texture2D)
      ensures this.texture == texture && way == Center
    {
      this.texture := texture;
      way := Center;
    }

    /** `PlayerCar::new`: the car exists only if its picture was loaded, and
        then starts in the middle lane. */
    static method New(loaded: Result<Texture2D, FileError>) returns (r: Result<PlayerCar, FileError>)
      ensures r.Success? <==> loaded.Success?
      ensures r.Failure? ==> r.error == loaded.error
      ensures r.Success? ==> fresh(r.value) && r.value.way == Center && r.value.texture == loaded.value
    {
      match loaded {
        case Failure(e) => r := Failure(e);
        case Success(t) =>
          var car := new PlayerCar(t);
          r := Success(car);
      }
    }
  }
}
