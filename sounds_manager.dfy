/** The sound bookkeeping of src/game/sounds/sounds_manager.rs: one loaded
    sound per sound type, whether each is playing, and a global mute flag.
    The calls into the audio library are recorded, in order, as commands. */
module Sounds {
  import opened Wrappers
  import Macroquad
  import opened RustyErrors

  datatype SoundType = Menu | Game | GameOver

  /** A loaded sound with its configured volume and whether it was last
      started rather than stopped. */
  datatype RustySound = RustySound(sound: Macroquad.Sound, volume: real, playingStatus: bool)

  /** A call into the audio library. */
  datatype AudioCommand =
    | Play(sound: Macroquad.Sound, volume: real, looped: bool)
    | Stop(sound: Macroquad.Sound)
    | SetVolume(sound: Macroquad.Sound, volume: real)

  /** Sound type, asset file and configured volume of every sound. */
  const SoundFileForSoundType: seq<(SoundType, string, real)> := [
    (Menu, "assets/musics/menu_music.wav", 1.1),
    (Game, "assets/musics/game_music.wav", 0.7),
    (GameOver, "assets/musics/game_over_sound.wav", 1.0)
  ]

  /** An order in which the sounds map can hand out its entries: each of the
      three sound types, once. */
  predicate IsIterationOrder(order: seq<SoundType>)
  {
    |order| == 3 && Menu in order && Game in order && GameOver in order
  }

  /** The mute flag after `k` flips, starting from `muted`. */
  function FlagAfter(muted: bool, k: nat): bool
  {
    if k % 2 == 0 then muted else !muted
  }

  /** The volume command, if any, that `set_mute_songs` issues for one sound,
      given the flag just after its flip: silence when muted, the stored
      volume for a playing sound when not. */
  function VolumeCommand(s: RustySound, muted: bool): seq<AudioCommand>
  {
    if muted then [SetVolume(s.sound, 0.0)]
    else if s.playingStatus then [SetVolume(s.sound, s.volume)]
    else []
  }

  /** The commands `set_mute_songs` issues as written, visiting `order` and
      flipping the flag before each sound. */
  function MuteCommands(sounds: map<SoundType, RustySound>, muted: bool, order: seq<SoundType>): seq<AudioCommand>
    requires forall i :: 0 <= i < |order| ==> order[i] in sounds
  {
    if order == [] then []
    else
      MuteCommands(sounds, muted, order[..|order| - 1])
        + VolumeCommand(sounds[order[|order| - 1]], FlagAfter(muted, |order|))
  }

  /** The commands of a mute toggle that flips the flag once, to `muted`, and
      then brings every sound in line with it. */
  function IntendedMuteCommands(sounds: map<SoundType, RustySound>, muted: bool, order: seq<SoundType>): seq<AudioCommand>
    requires forall i :: 0 <= i < |order| ==> order[i] in sounds
  {
    if order == [] then []
    else
      IntendedMuteCommands(sounds, muted, order[..|order| - 1])
        + VolumeCommand(sounds[order[|order| - 1]], muted)
  }

  /** Three sounds visited, one flip each. */
  lemma {:induction false} MuteCommandsOfThree(sounds: map<SoundType, RustySound>, muted: bool, order: seq<SoundType>)
    requires |order| == 3
    requires forall i :: 0 <= i < |order| ==> order[i] in sounds
    ensures MuteCommands(sounds, muted, order) ==
      VolumeCommand(sounds[order[0]], FlagAfter(muted, 1))
        + VolumeCommand(sounds[order[1]], FlagAfter(muted, 2))
        + VolumeCommand(sounds[order[2]], FlagAfter(muted, 3))
  {
    assert order[..2][..1] == order[..1];
    assert order[..1][..0] == [];
    assert MuteCommands(sounds, muted, order[..1]) == VolumeCommand(sounds[order[0]], FlagAfter(muted, 1));
  }

  /** With the three sounds visited from an unmuted state, the flag ends up
      set, yet the sound visited second, when playing, is given back its
      stored volume while the other two are silenced. */
  lemma {:induction false} MuteLeavesSecondSoundAudible(sounds: map<SoundType, RustySound>, order: seq<SoundType>)
    requires IsIterationOrder(order)
    requires forall i :: 0 <= i < |order| ==> order[i] in sounds
    requires sounds[order[1]].playingStatus
    ensures FlagAfter(false, |order|)
    ensures MuteCommands(sounds, false, order) == [
      SetVolume(sounds[order[0]].sound, 0.0),
      SetVolume(sounds[order[1]].sound, sounds[order[1]].volume),
      SetVolume(sounds[order[2]].sound, 0.0)]
  {
    MuteCommandsOfThree(sounds, false, order);
  }

  /** From a muted state the flag ends cleared, yet the sound visited second
      is silenced, even while it plays. */
  lemma {:induction false} UnmuteLeavesSecondSoundSilent(sounds: map<SoundType, RustySound>, order: seq<SoundType>)
    requires IsIterationOrder(order)
    requires forall i :: 0 <= i < |order| ==> order[i] in sounds
    ensures !FlagAfter(true, |order|)
    ensures MuteCommands(sounds, true, order) ==
      VolumeCommand(sounds[order[0]], false) + [SetVolume(sounds[order[1]].sound, 0.0)]
        + VolumeCommand(sounds[order[2]], false)
  {
    MuteCommandsOfThree(sounds, true, order);
  }

  /** After the intended toggle mutes, every sound visited is silenced, in
      order; after it unmutes, exactly the playing sounds are given back their
      stored volume. */
  lemma {:induction false} IntendedMuteIsConsistent(sounds: map<SoundType, RustySound>, muted: bool, order: seq<SoundType>)
    requires forall i :: 0 <= i < |order| ==> order[i] in sounds
    ensures muted ==> |IntendedMuteCommands(sounds, muted, order)| == |order|
    ensures muted ==> forall i :: 0 <= i < |order| ==>
      IntendedMuteCommands(sounds, muted, order)[i] == SetVolume(sounds[order[i]].sound, 0.0)
    ensures !muted ==> forall c :: c in IntendedMuteCommands(sounds, muted, order) ==>
      exists i :: (0 <= i < |order| && sounds[order[i]].playingStatus &&
                   c == SetVolume(sounds[order[i]].sound, sounds[order[i]].volume))
    ensures !muted ==> forall i :: 0 <= i < |order| && sounds[order[i]].playingStatus ==>
      SetVolume(sounds[order[i]].sound, sounds[order[i]].volume) in IntendedMuteCommands(sounds, muted, order)
  {
    if order != [] {
      var init := order[..|order| - 1];
      IntendedMuteIsConsistent(sounds, muted, init);
      var cmds := IntendedMuteCommands(sounds, muted, order);
      var prefix := IntendedMuteCommands(sounds, muted, init);
      var last := order[|order| - 1];
      assert cmds == prefix + VolumeCommand(sounds[last], muted);
      if !muted {
        forall c | c in cmds
          ensures exists i :: (0 <= i < |order| && sounds[order[i]].playingStatus &&
                               c == SetVolume(sounds[order[i]].sound, sounds[order[i]].volume))
        {
          if c in prefix {
            var i :| 0 <= i < |init| && sounds[init[i]].playingStatus &&
              c == SetVolume(sounds[init[i]].sound, sounds[init[i]].volume);
            assert order[i] == init[i];
          } else {
            assert order[|order| - 1] == last;
          }
        }
        forall i | 0 <= i < |order| && sounds[order[i]].playingStatus
          ensures SetVolume(sounds[order[i]].sound, sounds[order[i]].volume) in cmds
        {
          if i < |init| {
            assert order[i] == init[i];
          }
        }
      }
    }
  }

  class SoundsManager {
    var sounds: map<SoundType, RustySound>
    var soundsMuted: bool
    /** The audio library calls made so far, oldest first. */
    var audioLog: seq<AudioCommand>

    /** Every sound type has its sound, so no lookup can miss. */
    ghost predicate Valid()
      reads this
    {
      forall t: SoundType :: t in sounds
    }

    constructor (sounds: map<SoundType, RustySound>, audioLog: seq<AudioCommand>)
      ensures this.sounds == sounds && this.audioLog == audioLog && !soundsMuted
    {
      this.sounds := sounds;
      this.audioLog := audioLog;
      soundsMuted := false;
    }

    /** `SoundsManager::new`, with `loaded[i]` the outcome of loading the file of
        row `i` of the sound table.  The first failed load ends it with that
        file error; otherwise every sound type has its sound at its configured
        volume, none playing, not muted, and each load set the volume once. */
    static method New(loaded: seq<Result<Macroquad.Sound, Macroquad.FileError>>)
      returns (r: RustyResult<SoundsManager>)
      requires |loaded| == |SoundFileForSoundType|
      ensures r.Success? <==> forall i :: 0 <= i < |loaded| ==> loaded[i].Success?
      ensures r.Failure? ==> exists i :: (0 <= i < |loaded| && loaded[i].Failure? &&
                                          (forall j :: 0 <= j < i ==> loaded[j].Success?) &&
                                          r.error == FromFileError(loaded[i].error))
      ensures r.Success? ==> fresh(r.value) && r.value.Valid() && !r.value.soundsMuted
      ensures r.Success? ==> forall i :: 0 <= i < |loaded| ==>
        r.value.sounds[SoundFileForSoundType[i].0] == RustySound(loaded[i].value, SoundFileForSoundType[i].2, false)
      ensures r.Success? ==> |r.value.audioLog| == |loaded| && forall i :: 0 <= i < |loaded| ==>
        r.value.audioLog[i] == SetVolume(loaded[i].value, SoundFileForSoundType[i].2)
    {
      var sounds: map<SoundType, RustySound> := map[];
      var log: seq<AudioCommand> := [];
      var i := 0;
      while i < |SoundFileForSoundType|
        invariant 0 <= i <= |SoundFileForSoundType|
        invariant forall j :: 0 <= j < i ==> loaded[j].Success?
        invariant forall j :: 0 <= j < i ==>
          (SoundFileForSoundType[j].0 in sounds &&
           sounds[SoundFileForSoundType[j].0] == RustySound(loaded[j].value, SoundFileForSoundType[j].2, false))
        invariant |log| == i && forall j :: 0 <= j < i ==> log[j] == SetVolume(loaded[j].value, SoundFileForSoundType[j].2)
      {
        var (soundType, _, soundVolume) := SoundFileForSoundType[i];
        match loaded[i] {
          case Failure(e) =>
            r := Failure(FromFileError(e));
            return;
          case Success(sound) =>
            log := log + [SetVolume(sound, soundVolume)];
            sounds := sounds[soundType := RustySound(sound, soundVolume, false)];
        }
        i := i + 1;
      }
      forall t: SoundType
        ensures t in sounds
      {
        match t
        case Menu => assert SoundFileForSoundType[0].0 == t;
        case Game => assert SoundFileForSoundType[1].0 == t;
        case GameOver => assert SoundFileForSoundType[2].0 == t;
      }
      var manager := new SoundsManager(sounds, log);
      r := Success(manager);
    }

    /** `play_sound`: marks the sound playing and starts it, silent when muted
        and at its stored volume otherwise; nothing else changes. */
    method PlaySound(soundType: SoundType, playLoop: bool)
      requires Valid()
      modifies this
      ensures Valid()
      ensures sounds == old(sounds)[soundType := old(sounds)[soundType].(playingStatus := true)]
      ensures soundsMuted == old(soundsMuted)
      ensures audioLog == old(audioLog) + [Play(sounds[soundType].sound,
        if soundsMuted then 0.0 else sounds[soundType].volume, playLoop)]
    {
      var sound := sounds[soundType];
      var volume := if soundsMuted then 0.0 else sound.volume;
      sounds := sounds[soundType := sound.(playingStatus := true)];
      audioLog := audioLog + [Play(sound.sound, volume, playLoop)];
    }

    /** `stop_sound`: marks the sound stopped and stops it; nothing else changes. */
    method StopSound(soundType: SoundType)
      requires Valid()
      modifies this
      ensures Valid()
      ensures sounds == old(sounds)[soundType := old(sounds)[soundType].(playingStatus := false)]
      ensures soundsMuted == old(soundsMuted)
      ensures audioLog == old(audioLog) + [Stop(sounds[soundType].sound)]
    {
      var sound := sounds[soundType];
      sounds := sounds[soundType := sound.(playingStatus := false)];
      audioLog := audioLog + [Stop(sound.sound)];
    }

    /** `set_mute_songs` as written, with `order` the order in which the map
        hands out its sounds: the flag is flipped once per sound, so with three
        sounds it ends flipped, and each sound's volume follows the flag as it
        stood at that sound's turn. */
    method SetMuteSongs(order: seq<SoundType>)
      requires Valid() && IsIterationOrder(order)
      modifies this
      ensures Valid() && sounds == old(sounds)
      ensures soundsMuted == FlagAfter(old(soundsMuted), |order|)
      ensures soundsMuted == !old(soundsMuted)
      ensures audioLog == old(audioLog) + MuteCommands(sounds, old(soundsMuted), order)
    {
      for i := 0 to |order|
        invariant sounds == old(sounds)
        invariant soundsMuted == FlagAfter(old(soundsMuted), i)
        invariant audioLog == old(audioLog) + MuteCommands(sounds, old(soundsMuted), order[..i])
      {
        assert order[..i + 1][..i] == order[..i];
        soundsMuted := !soundsMuted;
        var sound := sounds[order[i]];
        if soundsMuted {
          audioLog := audioLog + [SetVolume(sound.sound, 0.0)];
        } else if !soundsMuted && sound.playingStatus {
          audioLog := audioLog + [SetVolume(sound.sound, sound.volume)];
        }
      }
      assert order[..|order|] == order;
    }

    /** The toggle as intended: the flag flips once, then every sound is
        silenced when muting, and every playing sound gets its stored volume
        back when unmuting. */
    method SetMuteSongsIntended(order: seq<SoundType>)
      requires Valid() && IsIterationOrder(order)
      modifies this
      ensures Valid() && sounds == old(sounds)
      ensures soundsMuted == !old(soundsMuted)
      ensures audioLog == old(audioLog) + IntendedMuteCommands(sounds, soundsMuted, order)
    {
      soundsMuted := !soundsMuted;
      for i := 0 to |order|
        invariant sounds == old(sounds)
        invariant soundsMuted == !old(soundsMuted)
        invariant audioLog == old(audioLog) + IntendedMuteCommands(sounds, soundsMuted, order[..i])
      {
        assert order[..i + 1][..i] == order[..i];
        var sound := sounds[order[i]];
        if soundsMuted {
          audioLog := audioLog + [SetVolume(sound.sound, 0.0)];
        } else if sound.playingStatus {
          audioLog := audioLog + [SetVolume(sound.sound, sound.volume)];
        }
      }
      assert order[..|order|] == order;
    }
  }
}
