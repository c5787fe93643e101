/** The game object of src/game/game.rs and its input loop, which moves the
    player's car between lanes as keys arrive. */
module Games {
  import opened Wrappers
  import Macroquad
  import opened Car
  import PlayerCars
  import BotCars

  type KeyCode = Macroquad.KeyCode

  /** The reaction table of `move_player_car`: (key, lane before) to lane after. */
  const Reactions: map<(KeyCode, Way), Way> := map[
    (Macroquad.Up, Center) := Upper,
    (Macroquad.Up, Lower) := Center,
    (Macroquad.Down, Upper) := Center,
    (Macroquad.Down, Center) := Lower
  ]

  /** The lane after one key: the table's entry, or the same lane when the
      table has none for this key and lane. */
  function React(way: Way, key: KeyCode): (w: Way)
    ensures (key, way) !in Reactions ==> w == way
    ensures -1 <= WayIndex(w) - WayIndex(way) <= 1
    ensures key == Macroquad.Up ==> WayIndex(w) <= WayIndex(way)
    ensures key == Macroquad.Down ==> WayIndex(w) >= WayIndex(way)
  {
    if (key, way) in Reactions then Reactions[(key, way)] else way
  }

  /** The arrow keys move the car as `PlayerCar::move_car` does; any other
      key leaves the lane as it is. */
  lemma ReactAgreesWithMoveCar(way: Way, key: KeyCode)
    ensures React(way, Macroquad.Up) == MovedWay(way, Direction.Up)
    ensures React(way, Macroquad.Down) == MovedWay(way, Direction.Down)
    ensures key != Macroquad.Up && key != Macroquad.Down ==> React(way, key) == way
  {
  }

  /** The lane after applying `keys` one at a time, in order. */
  function LaneAfter(way: Way, keys: seq<KeyCode>): Way
  {
    if keys == [] then way else React(LaneAfter(way, keys[..|keys| - 1]), keys[|keys| - 1])
  }

  /** What one turn of the input loop meets: the running flag found false, a
      failure to lock the receiver, a failed receive, a received key whose
      lock on the player's car then fails, or a key that is applied. */
  datatype Delivery =
    | Stopped
    | ReceiverLockFailed
    | RecvFailed
    | PlayerLockFailed(lost: KeyCode)
    | Key(code: KeyCode)

  /** The keys the loop applies: those delivered before the first turn that
      ends it. */
  function KeysApplied(deliveries: seq<Delivery>): (keys: seq<KeyCode>)
    ensures |keys| <= |deliveries|
    ensures forall i :: 0 <= i < |keys| ==> deliveries[i] == Key(keys[i])
    ensures |keys| < |deliveries| ==> !deliveries[|keys|].Key?
  {
    if deliveries == [] || !deliveries[0].Key? then []
    else [deliveries[0].code] + KeysApplied(deliveries[1..])
  }

  /** Once a turn ends the loop, nothing delivered afterwards has any effect. */
  lemma {:induction false} NothingAfterFailure(deliveries: seq<Delivery>, i: nat)
    requires i < |deliveries| && !deliveries[i].Key?
    ensures KeysApplied(deliveries) == KeysApplied(deliveries[..i])
    ensures |KeysApplied(deliveries)| <= i
  {
    if i > 0 && deliveries[0].Key? {
      assert deliveries[1..][..i - 1] == deliveries[..i][1..];
      NothingAfterFailure(deliveries[1..], i - 1);
    }
  }

  /** A key stream made of key presses only is applied in full. */
  lemma {:induction false} AllKeysApplied(keys: seq<KeyCode>)
    ensures KeysApplied(seq(|keys|, i requires 0 <= i < |keys| => Key(keys[i]))) == keys
  {
    if keys != [] {
      var ds := seq(|keys|, i requires 0 <= i < |keys| => Key(keys[i]));
      assert ds[1..] == seq(|keys[1..]|, i requires 0 <= i < |keys[1..]| => Key(keys[1..][i]));
      AllKeysApplied(keys[1..]);
    }
  }

  /** The game as `Game::new` creates it; graphics, channels and the shared
      running flag are not modelled. */
  class Game {
    var playerCar: PlayerCars.PlayerCar
    var botCars: seq<BotCars.BotCar>
    var score: nat
    var running: bool

    constructor (playerCar: PlayerCars.PlayerCar)
      ensures this.playerCar == playerCar
      ensures score == 0 && botCars == [] && running
    {
      this.playerCar := playerCar;
      botCars := [];
      score := 0;
      running := true;
    }

    /** `Game::new`: no game when the player's car or the graphics could not be
        loaded; otherwise score 0, no bots, running, and the player in the middle lane. */
    static method New(playerLoaded: Result<Macroquad.Texture2D, Macroquad.FileError>, graphicsLoaded: bool)
      returns (g: Option<Game>)
      ensures g.Some? <==> playerLoaded.Success? && graphicsLoaded
      ensures g.Some? ==> fresh(g.value) && fresh(g.value.playerCar)
      ensures g.Some? ==> g.value.score == 0 && g.value.botCars == [] && g.value.running
      ensures g.Some? ==> g.value.playerCar.way == Center
    {
      var player := PlayerCars.PlayerCar.New(playerLoaded);
      if player.Failure? || !graphicsLoaded {
        g := None;
      } else {
        var game := new Game(player.value);
        g := Some(game);
      }
    }

    /** `move_player_car`, one delivery per turn of its loop: it builds the
        reaction table, then applies each received key to the player's lane,
        in arrival order, until a turn ends the loop.  Returns how many keys
        were applied. */
    static method MovePlayerCar(playerCar: PlayerCars.PlayerCar, deliveries: seq<Delivery>)
      returns (applied: nat)
      modifies playerCar
      ensures applied == |KeysApplied(deliveries)|
      ensures playerCar.way == LaneAfter(old(playerCar.way), KeysApplied(deliveries))
    {
      var reactions: map<(KeyCode, Way), Way> := map[];
      reactions := reactions[(Macroquad.Up, Center) := Upper];
      reactions := reactions[(Macroquad.Up, Lower) := Center];
      reactions := reactions[(Macroquad.Down, Upper) := Center];
      reactions := reactions[(Macroquad.Down, Center) := Lower];
      assert reactions == Reactions;

      ghost var keys := KeysApplied(deliveries);
      applied := 0;
      while applied < |deliveries|
        invariant applied <= |keys|
        invariant playerCar.way == LaneAfter(old(playerCar.way), keys[..applied])
        decreases |deliveries| - applied
      {
        var playerInput := Macroquad.Space;
        match deliveries[applied] {
          case Stopped => break;
          case ReceiverLockFailed => break;
          case RecvFailed => break;
          case PlayerLockFailed(_) => break;
          case Key(k) => playerInput := k;
        }
        assert keys[..applied + 1][..applied] == keys[..applied];
        if (playerInput, playerCar.way) in reactions {
          playerCar.way := reactions[(playerInput, playerCar.way)];
        }
        applied := applied + 1;
      }
      assert keys[..applied] == keys;
    }
  }
}
