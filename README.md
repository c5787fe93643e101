# Rusty Corks — a Dafny model of the game's core

Rusty Corks is a three-lane dodging game written in Rust on the macroquad
engine. The player's car switches between an upper, a centre and a lower lane.
Bot cars drive in from the right edge of the screen, and the road scrolls
underneath them. This project models and proves the sequential logic of the
game:

- the traffic spawner's "lane is free" rule and its bot list (module `BotManagement`);
- the lane moves of the player's car, the bots' kinematics and the collision
  test (modules `Car`, `PlayerCars`, `BotCars`);
- the game's key-to-lane reaction table and its input loop (module `Games`);
- the rising-edge key detector, the key and action lookup tables, and the
  keyboard observer's choice of the action to send (modules `KeyGames`,
  `Keyboard`, `KeyboardObservers`);
- the sound bookkeeping, with every call into the audio library recorded as a
  command in a log (module `Sounds`);
- the scrolling background (module `Backgrounds`);
- the error type with its `Display`, `source` and `From` conversions (module
  `RustyErrors`).

Supporting modules: `Wrappers` (`Option`, `Result`), `Config` (the numeric
settings: start speed 300, distance divisor 2.5) and `Macroquad` (picture and
sound handles, file errors, and the 121 key codes).

Things the code leaves open are parameters of the model:

- the random lane index;
- `screen_width()`;
- the outcome of each picture or sound load;
- the order in which a `HashMap` hands out its entries;
- the speed passed to `BotCar::new`;
- the keys the channel delivers, as a finite sequence;
- the up/down state of each key at a poll.

Positions, speeds and volumes (`f32` in the source) are mathematical reals.

Where the source does not compile as written, the model follows the evident meaning:

- `src/config.rs` types `KEY_GAME` as key/text pairs, but `src/keyboard/mod.rs`
  reads each row as a key/`GameAction` pair. The model uses the bindings Z→Up,
  S→Down, Space→PauseResume, Escape→Quit, M→Mute.
- `spawn_car` uses an error variant `LaneNotFound` that `RustyError` does not
  declare. The model proves the lane lookup always succeeds, so that branch is dead.
- `spawn_car` calls `BotCar::new` with the lane only. The speed is a parameter.
- `Game::new` matches `Some`/`None` on the `Result` of `PlayerCar::new`, and
  returns the `RustyResult` of `GraphicsManager::new`, mapped to a game, where
  an `Option<Game>` is declared. The model reads "no game unless both loads succeed".
- `is_lane_recently_used` calls `bot_car.get_way()`, a method the bot car of
  `src/game/car/bot_car.rs` does not have (its `Car` trait declares only
  `draw`). The model reads the bot's public `way` field instead.
- `SOUND_FILE_FOR_SOUND_TYPE` tags each row with `SoundType as usize`, yet the
  rows are inserted into a map keyed by `SoundType`. The model keys the table by `SoundType`.

Two classes named `BotCar` exist, one in `src/game/car/mod.rs` and one in
`src/game/car/bot_car.rs`; both are modelled (`Car.BotCar`, `BotCars.BotCar`).
They share the specification functions `Car.Advanced` and `Car.OutOfScreen`.
The bot manager and the game use the second one, together with the player car
of `src/game/car/player_car.rs` (`PlayerCars.PlayerCar`).

A reading of the spawn threshold: `W - x < W / (1 / 2.5)` means a bot keeps its
lane "recently used" until it is one and a half screen widths past the left
edge (`BotManagement.RecentInMeaning`). For a screen wider than 320 pixels,
such as the 1280-pixel window of `src/config.rs`, that is beyond the point
where the bot counts as off screen (`x < -W - 160`). So once a lane has held a bot, it stays
busy for a long time.

## Model

| member | source | states |
|---|---|---|
| RustyErrors.Display | src/utils/rusty_error.rs:17-25 | a lock failure displays "Rusty lock error"; the file and receive variants display nothing |
| RustyErrors.Source | src/utils/rusty_error.rs:27-35 | no source for a lock failure; the wrapped file error or receive error otherwise |
| RustyErrors.FromFileError | src/utils/rusty_error.rs:37-41 | the converted error has the given file error as its source |
| RustyErrors.FromTryRecvError | src/utils/rusty_error.rs:43-47 | the converted error has the given receive error as its source |
| RustyErrors.DisplayedIffNoSource | src/utils/rusty_error.rs:17-35 | an error displays text exactly when it has no source |
| RustyErrors.ConversionsRoundTrip | src/utils/rusty_error.rs:27-47 | converting and then asking for the source gives back the original error; the two conversions never coincide and neither displays text |
| Car.WayIndex | src/game/car/mod.rs:18-22 | lanes are numbered 0, 1, 2 from the top |
| Car.MovedWay | src/game/car/mod.rs:33-49 | Up takes lane i to i-1, staying at 0; Down takes i to i+1, staying at 2 |
| Car.MoveIsOneLaneStep | src/game/car/mod.rs:33-49 | a move changes the lane by at most one, and is a no-op exactly for Up at the top and Down at the bottom |
| Car.MovesUndoEachOther | src/game/car/mod.rs:33-49 | Down after Up returns to the start unless the car began in the top lane; Up after Down likewise, except from the bottom lane |
| Car.PlayerCar.constructor | src/game/car/mod.rs:30-32 | a new player car is in the centre lane |
| Car.PlayerCar.MoveCar | src/game/car/mod.rs:33-51 | the new lane is the move of the old lane in the given direction |
| Car.Advanced | src/game/car/mod.rs:71-75 | with non-negative speed and frame time the bot never moves right |
| Car.AdvancedByTotalTime | src/game/car/mod.rs:71-75 | several updates at one speed move the bot by the speed times their total time |
| Car.OutOfScreen | src/game/car/mod.rs:76-78 | a bot is off screen exactly when its right edge, x + 160, is left of -W; for a non-negative width that means x < -160 |
| Car.StaysOutOfScreen | src/game/car/bot_car.rs:31-38 | a bot past the left limit stays past it under any further updates with non-negative speed and frame times |
| Car.BotCar.constructor | src/game/car/mod.rs:63-65 | a new bot is at x = screen width, in the given lane, at the given speed |
| Car.BotCar.SetSpeed | src/game/car/mod.rs:66-70 | only the speed changes |
| Car.BotCar.UpdatePosition | src/game/car/mod.rs:71-75 | x becomes x - speed·dt; lane and speed are unchanged |
| Car.BotCar.IsOutOfScreen | src/game/car/mod.rs:76-78 | off screen exactly when x < -W - 160, with W the screen width and 160 the bot picture's width |
| Car.BotCar.IsColliding | src/game/car/mod.rs:79-99 | collision holds exactly when bot and player share a lane, wherever the bot is |
| PlayerCars.PlayerCar.constructor | src/game/car/player_car.rs:12-18 | a new player car is in the centre lane |
| PlayerCars.PlayerCar.New | src/game/car/player_car.rs:12-18 | a car exists exactly when its picture loaded, and starts in the centre lane; otherwise the load's error is returned |
| BotCars.BotCar.constructor | src/game/car/bot_car.rs:18-23 | a new bot is at x = screen width, in the given lane, at the given speed |
| BotCars.BotCar.New | src/game/car/bot_car.rs:16-24 | a bot exists exactly when its picture loaded; a failed load becomes the file variant of the game's error |
| BotCars.BotCar.SetSpeed | src/game/car/bot_car.rs:26-30 | only the speed changes |
| BotCars.BotCar.UpdatePosition | src/game/car/bot_car.rs:31-35 | x becomes x - speed·dt; lane and speed are unchanged |
| BotCars.BotCar.IsOutOfScreen | src/game/car/bot_car.rs:36-38 | off screen exactly when x < -W - 160, with W the screen width and 160 the bot picture's width |
| BotCars.BotCar.IsColliding | src/game/car/bot_car.rs:39-59 | collision holds exactly when bot and player share a lane, wherever the bot is |
| BotManagement.WayOfIndex | src/game/car/bot_manager.rs:40-45 | random indices 0, 1, 2 pick the lanes top to bottom; any larger index picks the bottom lane |
| BotManagement.Position | src/game/car/bot_manager.rs:46 | the index found is that of the first lane equal to the one sought; nothing is found exactly when the lane is absent |
| BotManagement.PositionInLanes | src/game/car/bot_manager.rs:80-84 | in the managers' lane list every lane is found, at its place from the top, so the lookups never fail |
| BotManagement.FreeRuleMeaning | src/game/car/bot_manager.rs:69-99 | with bots present, a lane is free exactly when it was not recently used and at least one neighbour was not either |
| BotManagement.RecentInMeaning | src/game/car/bot_manager.rs:62 | the per-bot test holds exactly for a bot in the lane with x > -1.5·screen width |
| BotManagement.BotManager.constructor | src/game/car/bot_manager.rs:22-37 | a new manager has no bots and the lanes upper, centre, lower |
| BotManagement.BotManager.IsLaneRecentlyUsed | src/game/car/bot_manager.rs:55-68 | the early-exit scan answers whether any bot in the list passes the per-bot test, and never fails |
| BotManagement.BotManager.IsLaneFree | src/game/car/bot_manager.rs:69-99 | never fails, and answers with the free rule over the three lanes' recent use |
| BotManagement.BotManager.SpawnCar | src/game/car/bot_manager.rs:38-54 | a free lane with a loaded picture gets one fresh bot appended, in the chosen lane at the right edge, with the given speed and the loaded picture, and, when the list was not empty, into a lane that was not recently used; a free lane with a failed load returns the file error; a busy lane leaves the list as it was; existing bots are never modified |
| BotManagement.BotManager.EmptyListAllFree | src/game/car/bot_manager.rs:72-74 | with no bots every lane is free |
| BotManagement.BotManager.FreeLaneIsQuiet | src/game/car/bot_manager.rs:76-77 | with bots about, a free lane was not recently used, so a spawn never lands behind a recent bot |
| BotManagement.BotManager.FreeByNeighbours | src/game/car/bot_manager.rs:86-96 | for an unused lane: top or bottom is free iff the centre is unused; the centre is free unless both edges are used; a used lane is never free |
| Games.React | src/game/game.rs:51-56 | one key against the four-entry table `Reactions` (Up: centre to upper, lower to centre; Down: upper to centre, centre to lower): a pair absent from the table leaves the lane alone, a step is at most one lane, Up never moves down and Down never moves up |
| Games.ReactAgreesWithMoveCar | src/game/game.rs:53-56 | the reaction table moves the car exactly as the player car's Up and Down moves do, and every other key leaves the lane alone |
| Games.KeysApplied | src/game/game.rs:59-91 | the applied keys are exactly the keys delivered before the first turn that ends the loop |
| Games.NothingAfterFailure | src/game/game.rs:64-85 | after a stop, receive failure or lock failure, no later delivery has any effect |
| Games.AllKeysApplied | src/game/game.rs:59-91 | a delivery stream of keys only is applied in full |
| Games.Game.constructor | src/game/game.rs:30-37 | a new game has score 0, no bots and is running |
| Games.Game.New | src/game/game.rs:23-38 | a game exists exactly when the player's car and the graphics loaded; it starts with score 0, no bots, running, the player in the centre lane |
| Games.Game.MovePlayerCar | src/game/game.rs:50-92 | the final lane is the left fold of the reaction table over the applied keys, in arrival order, and the count of applied keys is reported |
| KeyGames.PressedAfter | src/keyboard/key_game.rs:19-22 | a press is reported only for a key that is down now, never for one already down, and always when the key just went down |
| KeyGames.PressesAreRisingEdges | src/keyboard/key_game.rs:19-22 | over any run of polls, the presses reported equal the up-to-down transitions of the input, counted from the initial state |
| KeyGames.HeldKeyPressedOnce | src/keyboard/key_game.rs:20 | a key held down for any number of polls is reported pressed at most once |
| KeyGames.KeyGame.constructor | src/keyboard/key_game.rs:11-17 | a new detector is neither pressed nor down |
| KeyGames.KeyGame.Update | src/keyboard/key_game.rs:19-22 | pressed becomes "down now and not before", down takes the new state, and pressed implies down |
| KeyGames.KeyGame.IsKeyPressed | src/keyboard/key_game.rs:24-26 | a reported press concerns a key that is down |
| Keyboard.LastValueFor | src/keyboard/mod.rs:160-168 | nothing is found exactly when no row has the key; otherwise the value is that of a row with the key after which no row has it |
| Keyboard.GetActionDescriptionFromGameAction | src/keyboard/mod.rs:150-158 | the scan returns the last matching description of the action table |
| Keyboard.GetGameActionFromKeyCode | src/keyboard/mod.rs:160-168 | the scan returns the action of the last binding of the key |
| Keyboard.GetKeyCodeFromGameAction | src/keyboard/mod.rs:170-178 | the scan returns the key of the last binding of the action |
| Keyboard.GetStrFromKeyCode | src/keyboard/mod.rs:180-188 | the name of the last row listing the key, or the empty string when no row does |
| Keyboard.ScanNames | src/keyboard/mod.rs:181-187 | the loop returns the last matching name, or the empty string |
| Keyboard.ActionDescriptions | src/keyboard/mod.rs:18-24 | every action but None has its description; None has none |
| Keyboard.KeyBindingsDistinct | src/config.rs:15-21 | no key and no action is bound twice |
| Keyboard.KeyBindingsRoundTrip | src/keyboard/mod.rs:160-178 | key to action to key, and action to key to action, give back the start for every binding; None has no key |
| Keyboard.KeyBindings | src/config.rs:15-21 | Z is up, S down, Space pause/resume, Escape quit, M mute |
| KeyboardObservers.KeyboardObserver.constructor | src/keyboard/keyboard_observer.rs:22-34 | one fresh, released detector per binding, in table order; running, no thread |
| KeyboardObservers.KeyboardObserver.Observer | src/keyboard/keyboard_observer.rs:36-56 | nothing is sent when no key is pressed; otherwise the binding of the first pressed detector in list order, if it has one |
| KeyboardObservers.KeyboardObserver.Poll | src/keyboard/keyboard_observer.rs:70-76 | every detector is updated with its key's state, then at most one action is sent, as the observer chooses it |
| KeyboardObservers.KeyboardObserver.StopObserver | src/keyboard/keyboard_observer.rs:91-98 | stopped, and no thread handle is kept |
| Sounds.MuteCommandsOfThree | src/game/sounds/sounds_manager.rs:66-76 | with three sounds, each is visited with the flag after one, two and three flips |
| Sounds.MuteLeavesSecondSoundAudible | src/game/sounds/sounds_manager.rs:66-76 | muting from unmuted sets the flag, yet restores the stored volume of the second sound visited when it plays |
| Sounds.UnmuteLeavesSecondSoundSilent | src/game/sounds/sounds_manager.rs:66-76 | unmuting clears the flag, yet silences the second sound visited |
| Sounds.IntendedMuteIsConsistent | src/game/sounds/sounds_manager.rs:66-76 | in the intended toggle, muting silences every sound in visiting order, and unmuting restores the stored volume of exactly the playing sounds |
| Sounds.SoundsManager.constructor | src/game/sounds/sounds_manager.rs:31-34 | a new manager is not muted |
| Sounds.SoundsManager.New | src/game/sounds/sounds_manager.rs:23-35 | the first failed load ends with its file error; otherwise every sound type has its sound, at its configured volume, not playing, unmuted, and each load set the volume once |
| Sounds.SoundsManager.PlaySound | src/game/sounds/sounds_manager.rs:37-52 | only that sound becomes playing; it starts silent when muted and at its stored volume otherwise; the mute flag is unchanged |
| Sounds.SoundsManager.StopSound | src/game/sounds/sounds_manager.rs:54-64 | only that sound stops playing, and it is stopped; the mute flag is unchanged |
| Sounds.SoundsManager.SetMuteSongs | src/game/sounds/sounds_manager.rs:66-76 | as written: the flag flips once per sound, so it ends flipped, and each sound's volume follows the flag at its turn |
| Sounds.SoundsManager.SetMuteSongsIntended | src/game/sounds/sounds_manager.rs:66-76 | corrected: the flag flips once and every sound is brought in line with it |
| Backgrounds.Scrolled | src/game/graphics/background.rs:24-31 | the offset moves left by speed·dt, or is reset to 0; it never ends below -W; the window [-W, 0] is kept by a leftward move |
| Backgrounds.ScrollStaysInWindow | src/game/graphics/background.rs:26-30 | from inside [-W, 0] the offset stays inside for any number of leftward moves, speed changes included |
| Backgrounds.Background.constructor | src/game/graphics/background.rs:13-17 | a new road is at the origin, at the start speed |
| Backgrounds.Background.New | src/game/graphics/background.rs:11-18 | a road exists exactly when its picture loaded, at (0, 0) and speed 300, the game's start speed |
| Backgrounds.Background.MoveTexture | src/game/graphics/background.rs:24-33 | the horizontal offset is scrolled; the vertical offset and the speed are unchanged |
| Backgrounds.Background.SetSpeed | src/game/graphics/background.rs:35-37 | only the speed changes |

## Left out

- Threads, channels, locks and sleeps are not modelled; the game and the observer are modelled one step at a time.
  - `Game::start` (src/game/game.rs:40-48) only spawns the input loop.
  - The input loop's channel is a finite sequence of deliveries. A blocking receive that never returns is not modelled, and neither are the running flag's changes from another thread.
  - `start_observer`'s thread, timer and 20 ms pacing are out (src/keyboard/keyboard_observer.rs:58-89). Only the body of one polling turn is modelled (`Poll`).
- KeyboardObservers.KeyboardObserver.Observer: the `send` outcome is not modelled; the model returns the action handed to `send`, whose failure the source only prints.
- KeyboardObservers.KeyboardObserver.Poll: the detectors it updates stand for the polling thread's own copy of them. In the source the thread updates a clone and the observer's list stays in its released initial state, so a second `start_observer` starts from released detectors; the model keeps one list and does not capture that copy.
- KeyboardObservers.KeyboardObserver.StopObserver: joining the thread is not modelled; only the handle being taken is.
- The input loop's error messages (src/game/game.rs:67, 73, 83) are not modelled; each such turn only ends the loop.
- A `Stopped` delivery stands for the `running` flag found false at the top of the loop.
- Drawing is not modelled: `Car::draw` for both cars, `Background::draw` and the `draw` calls inside `move_car` and `move_texture`.
- Loading pictures and sounds is not modelled; each load's outcome is a parameter. The audio library is modelled only as the commands sent to it.
- Sounds.SoundsManager.New: the volume commands issued before a failed load are not recorded, since no manager is returned then.
- `f32` arithmetic is modelled as exact real arithmetic. No rounding, overflow or NaN is modelled.
- Keyboard.GetStrFromKeyCode: the name is specified as the last matching row of the 121-row table. That the table lists every key exactly once, with its own name, is not proved.
- BotManagement.BotManager.IsLaneRecentlyUsed and BotManagement.BotManager.IsLaneFree return a `Result` as the source does. Their error path cannot occur.
- src/keyboard_observer/mod.rs is not part of this model. It is an older threaded copy of the same first-pressed selection.
- src/game/graphics_manager/background.rs is not part of this model. It is an older copy of the scroll-wrap rule.
- src/utils/timer.rs, src/game/graphics/graphics_manager.rs and src/main.rs are not part of this model. They hold a timer thread, drawing and layout, and the window bootstrap.
- src/game/sounds/rusty_sound.rs is modelled only through a successful load. That load issues one volume command at the configured volume (`SetVolume` in the manager's log), and the sound starts at its stored volume with playing set to false.

## Findings

| source | as written | input that shows it | evidently intended | confidence | as-written member | corrected member |
|---|---|---|---|---|---|---|
| src/game/sounds/sounds_manager.rs:66-76 | `set_mute_songs` flips `sounds_muted` inside the loop, once per sound, and sets each sound's volume from the flag as it stands at that sound's turn | unmuted manager; the sound the map hands out second is playing. The flag ends muted, but that sound gets its stored volume back. Toggling again from muted silences the second sound while the flag says unmuted | flip the flag once, then silence every sound (mute) or restore every playing sound's volume (unmute) | not executed | Sounds.MuteLeavesSecondSoundAudible | Sounds.SoundsManager.SetMuteSongsIntended |
