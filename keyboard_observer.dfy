/** The keyboard observer of src/keyboard/keyboard_observer.rs: one edge
    detector per bound key, and the choice of the action a poll sends. */
module KeyboardObservers {
  import opened Wrappers
  import Macroquad
  import opened Keyboard
  import opened KeyGames

  /** A handle on the polling thread. */
  datatype JoinHandle = JoinHandle(id: nat)

  class KeyboardObserver {
    var keysGames: seq<KeyGame>
    var running: bool
    var thread: Option<JoinHandle>

    /** Distinct detectors, each keeping its own invariant. */
    ghost predicate Valid()
      reads this, keysGames
    {
      && (forall i, j :: 0 <= i < j < |keysGames| ==> keysGames[i] != keysGames[j])
      && (forall i :: 0 <= i < |keysGames| ==> keysGames[i].Valid())
    }

    /** `KeyboardObserver::new`: one fresh, released detector per row of the
        key bindings, in table order; running, and no thread yet. */
    constructor ()
      ensures Valid()
      ensures |keysGames| == |KeyGameTable|
      ensures forall i :: 0 <= i < |keysGames| ==>
        fresh(keysGames[i]) && keysGames[i].key == KeyGameTable[i].0 && !keysGames[i].pressed && !keysGames[i].down
      ensures running && thread == Option.None
    {
      var games: seq<KeyGame> := [];
      for i := 0 to |KeyGameTable|
        invariant |games| == i
        invariant forall k :: 0 <= k < i ==>
          fresh(games[k]) && games[k].key == KeyGameTable[k].0 && !games[k].pressed && !games[k].down
        invariant forall k, l :: 0 <= k < l < i ==> games[k] != games[l]
      {
        var keyGame := new KeyGame(KeyGameTable[i].0);
        games := games + [keyGame];
      }
      keysGames := games;
      running := true;
      thread := Option.None;
    }

    /** `observer`: the action handed to the channel, if any.  It is the
        binding of the first detector, in list order, that reports a press;
        nothing is sent when no key is pressed or the pressed key has no
        binding.  A failed send is only printed, so it does not show here. */
    static method Observer(keysGames: seq<KeyGame>) returns (sent: Option<GameAction>)
      requires forall i :: 0 <= i < |keysGames| ==> keysGames[i].Valid()
      ensures (forall i :: 0 <= i < |keysGames| ==> !keysGames[i].pressed) ==> sent == Option.None
      ensures forall i ::
                (0 <= i < |keysGames| && keysGames[i].pressed && forall j :: 0 <= j < i ==> !keysGames[j].pressed)
                ==> sent == LastValueFor(KeyGameTable, keysGames[i].key)
    {
      var keyPressed: Option<Macroquad.KeyCode> := Option.None;
      var i := 0;
      while i < |keysGames|
        invariant 0 <= i <= |keysGames|
        invariant keyPressed == Option.None
        invariant forall j :: 0 <= j < i ==> !keysGames[j].pressed
      {
        if keysGames[i].IsKeyPressed() {
          keyPressed := Some(keysGames[i].key);
          break;
        }
        i := i + 1;
      }
      sent := Option.None;
      match keyPressed {
        case Some(key) =>
          var gameAction := GetGameActionFromKeyCode(key);
          if gameAction.Some? {
            sent := gameAction;
          }
        case None =>
      }
    }

    /** One turn of the polling loop of `start_observer`, with the keys' current
        states given: every detector is updated, then at most one action is sent. */
    method Poll(isDown: seq<bool>) returns (sent: Option<GameAction>)
      requires Valid() && |isDown| == |keysGames|
      modifies keysGames
      ensures Valid()
      ensures forall i :: 0 <= i < |keysGames| ==>
        keysGames[i].down == isDown[i] && keysGames[i].pressed == PressedAfter(old(keysGames[i].down), isDown[i])
      ensures (forall i :: 0 <= i < |keysGames| ==> !keysGames[i].pressed) ==> sent == Option.None
      ensures forall i ::
                (0 <= i < |keysGames| && keysGames[i].pressed && forall j :: 0 <= j < i ==> !keysGames[j].pressed)
                ==> sent == LastValueFor(KeyGameTable, keysGames[i].key)
    {
      for i := 0 to |keysGames|
        invariant Valid()
        invariant forall k :: 0 <= k < i ==>
          keysGames[k].down == isDown[k] && keysGames[k].pressed == PressedAfter(old(keysGames[k].down), isDown[k])
        invariant forall k :: i <= k < |keysGames| ==> keysGames[k].down == old(keysGames[k].down)
      {
        keysGames[i].Update(isDown[i]);
      }
      sent := Observer(keysGames);
    }

    /** `stop_observer`: the running flag goes down and the thread handle is
        taken (joining it is not modelled). */
    method StopObserver()
      modifies this
      ensures !running && thread == Option.None
      ensures keysGames == old(keysGames)
    {
      running := false;
      if thread.Some? {
        match thread {
          case Some(handle) => thread := Option.None;
          case None =>
        }
      }
    }
  }
}
