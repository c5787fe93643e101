/** Numeric game settings of src/config.rs.  The key and sound tables of the
    same file live beside the code that reads them (modules Keyboard and
    Sounds). */
module Config {

  /** Initial scroll speed of the road, in pixels per second. */
  const StartGameSpeed: real := 300.0

  /** Divisor of the screen width in the "lane recently used" test of the
      traffic spawner. */
  const DistanceBetweenCars: real := 2.5
}
