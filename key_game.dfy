/** The per-key edge detector of src/keyboard/key_game.rs: fed the key's
    up/down state once per poll, it reports "pressed" only on the poll where
    the key goes down. */
module KeyGames {
  import Macroquad

  /** Whether an update reports a press, given the key's state at the previous
      poll and now: only a key that is down now and was up before. */
  function PressedAfter(wasDown: bool, isDown: bool): (pressed: bool)
    ensures pressed ==> isDown
    ensures wasDown ==> !pressed
    ensures !wasDown && isDown ==> pressed
  {
    isDown && !wasDown
  }

  /** How many of the updates fed with `inputs` report a press, starting from a
      key whose last known state is `wasDown`. */
  function PressCount(wasDown: bool, inputs: seq<bool>): nat
    decreases |inputs|
  {
    if inputs == [] then 0
    else (if PressedAfter(wasDown, inputs[0]) then 1 else 0) + PressCount(inputs[0], inputs[1..])
  }

  /** Number of up-to-down transitions between neighbouring states of `s`. */
  function Rises(s: seq<bool>): nat
  {
    if |s| < 2 then 0
    else Rises(s[..|s| - 1]) + (if !s[|s| - 2] && s[|s| - 1] then 1 else 0)
  }

  lemma {:induction false} RisesCons(a: bool, s: seq<bool>)
    requires s != []
    ensures Rises([a] + s) == (if !a && s[0] then 1 else 0) + Rises(s)
  {
    if |s| >= 2 {
      var t := s[..|s| - 1];
      assert ([a] + s)[..|[a] + s| - 1] == [a] + t;
      RisesCons(a, t);
    }
  }

  /** Over any run of polls, the detector reports exactly as many presses as
      there are transitions from up to down, counting from the key's initial
      state; from a new detector (up) these are the rising edges of the input. */
  lemma {:induction false} PressesAreRisingEdges(wasDown: bool, inputs: seq<bool>)
    ensures PressCount(wasDown, inputs) == Rises([wasDown] + inputs)
    decreases |inputs|
  {
    if inputs != [] {
      PressesAreRisingEdges(inputs[0], inputs[1..]);
      assert [inputs[0]] + inputs[1..] == inputs;
      RisesCons(wasDown, inputs);
    }
  }

  /** A key held down over a run of polls is reported pressed at most once. */
  lemma {:induction false} HeldKeyPressedOnce(wasDown: bool, n: nat)
    ensures PressCount(wasDown, seq(n, _ => true)) == if wasDown || n == 0 then 0 else 1
    decreases n
  {
    if n > 0 {
      assert seq(n, _ => true)[1..] == seq(n - 1, _ => true);
      HeldKeyPressedOnce(true, n - 1);
    }
  }

  class KeyGame {
    const key: Macroquad.KeyCode
    var pressed: bool
    var down: bool

    /** A reported press always concerns a key that is down. */
    ghost predicate Valid()
      reads this
    {
      pressed ==> down
    }

    /** A new detector is neither pressed nor down. */
    constructor (key: Macroquad.KeyCode)
      ensures this.key == key && !pressed && !down
      ensures Valid()
    {
      this.key := key;
      pressed := false;
      down := false;
    }

    /** One poll: a press is reported only on the poll where the key goes down. */
    method Update(isDown: bool)
      modifies this
      ensures pressed == PressedAfter(old(down), isDown)
      ensures down == isDown
      ensures Valid()
    {
      pressed := isDown && !down;
      down := isDown;
    }

    function IsKeyPressed(): (p: bool)
      reads this
      requires Valid()
      ensures p ==> down
    {
      pressed
    }
  }
}
