/** The traffic spawner of src/game/car/bot_manager.rs: it keeps the list of
    bot cars and, when asked to spawn, adds a bot to a randomly chosen lane
    only if that lane is "free" under an anti-clustering rule. */
module BotManagement {
  import opened Wrappers
  import opened Macroquad
  import opened Car
  import opened RustyErrors
  import opened Config
  import BotCars

  datatype Lane = Lane(way: Way)

  /** The lanes of every manager, top to bottom. */
  const Lanes: seq<Lane> := [Lane(Upper), Lane(Center), Lane(Lower)]

  /** The lane `spawn_car` picks for the random index `wayIdx`; the random
      generator yields 0, 1 or 2, and every index from 2 on means the bottom lane. */
  function WayOfIndex(wayIdx: nat): (w: Way)
    ensures wayIdx <= 2 ==> WayIndex(w) == wayIdx
    ensures wayIdx >= 2 ==> w == Lower
  {
    match wayIdx
    case 0 => Upper
    case 1 => Center
    case _ => Lower
  }

  /** `Iterator::position`: the index of the first lane equal to `lane`. */
  function Position(lanes: seq<Lane>, lane: Lane): (r: Option<nat>)
    ensures r.None? <==> lane !in lanes
    ensures r.Some? ==> r.value < |lanes| && lanes[r.value] == lane && lane !in lanes[..r.value]
  {
    if lanes == [] then None
    else if lanes[0] == lane then Some(0)
    else
      match Position(lanes[1..], lane)
      case None => None
      case Some(i) =>
        assert lanes[..i + 1] == [lanes[0]] + lanes[1..][..i];
        Some(i + 1)
  }

  /** In the fixed lane list every lane is found, at its place from the top. */
  lemma {:induction false} PositionInLanes(lane: Lane)
    ensures Position(Lanes, lane) == Some(WayIndex(lane.way))
  {
    match lane.way {
      case Upper =>
      case Center =>
        assert Lanes[0] != lane;
        assert Lanes[1..][0] == lane;
      case Lower =>
        assert Lanes[0] != lane && Lanes[1..][0] != lane;
        assert Lanes[1..][1..][0] == lane;
    }
  }

  /** The decision of `is_lane_free` for the lane at index `pos`, given whether
      the bot list is empty and, lane by lane, whether it was recently used. */
  function FreeRule(noBots: bool, pos: nat, recent: seq<bool>): bool
    requires 2 <= |recent| && pos < |recent|
  {
    if noBots then true
    else if recent[pos] then false
    else if pos == 0 then !recent[pos + 1]
    else if pos == |recent| - 1 then !recent[pos - 1]
    else !(recent[pos - 1] && recent[pos + 1])
  }

  /** Some lane next to the lane at `pos` was not recently used. */
  predicate QuietNeighbour(pos: nat, recent: seq<bool>)
  {
    exists n :: 0 <= n < |recent| && (n + 1 == pos || n == pos + 1) && !recent[n]
  }

  /** What the rule means, whatever the number of lanes: with bots about, a
      lane is free exactly when it was not recently used itself and at least
      one of its neighbours was not either. */
  lemma FreeRuleMeaning(noBots: bool, pos: nat, recent: seq<bool>)
    requires 2 <= |recent| && pos < |recent|
    ensures FreeRule(noBots, pos, recent) <==> noBots || (!recent[pos] && QuietNeighbour(pos, recent))
  {
    if !noBots && !recent[pos] {
      if pos == 0 {
        if QuietNeighbour(pos, recent) {
          var n :| 0 <= n < |recent| && (n + 1 == pos || n == pos + 1) && !recent[n];
          assert n == 1;
        }
      } else if pos == |recent| - 1 {
        if !recent[pos - 1] {
          assert (pos - 1) + 1 == pos;
        }
      } else {
        if !recent[pos - 1] {
          assert (pos - 1) + 1 == pos;
        } else if !recent[pos + 1] {
          assert pos + 1 < |recent|;
        }
      }
    }
  }

  /** The per-bot test of `is_lane_recently_used`. */
  predicate RecentIn(bot: BotCars.BotCar, lane: Lane, screenWidth: real)
    reads bot
  {
    screenWidth - bot.xPosition < screenWidth / (1.0 / DistanceBetweenCars) && bot.way == lane.way
  }

  /** Read out, the threshold keeps a bot counting as recent until it is one
      and a half screen widths past the left edge. */
  lemma RecentInMeaning(bot: BotCars.BotCar, lane: Lane, screenWidth: real)
    ensures RecentIn(bot, lane, screenWidth) <==> bot.way == lane.way && bot.xPosition > -1.5 * screenWidth
  {
  }

  class BotManager {
    var botCarList: seq<BotCars.BotCar>
    const lanes: seq<Lane>

    ghost predicate Valid()
      reads this
    {
      lanes == Lanes
    }

    /** A new manager has no bots and the three lanes in order. */
    constructor ()
      ensures Valid() && botCarList == []
    {
      botCarList := [];
      lanes := Lanes;
    }

    /** Some bot in `lane` is still within the spawn distance of the right edge. */
    predicate RecentlyUsed(lane: Lane, screenWidth: real)
      reads this, botCarList
    {
      exists i :: 0 <= i < |botCarList| && RecentIn(botCarList[i], lane, screenWidth)
    }

    /** Whether spawning into `lane` is allowed now. */
    predicate LaneFree(lane: Lane, screenWidth: real)
      requires Valid()
      reads this, botCarList
    {
      FreeRule(botCarList == [], WayIndex(lane.way),
        [RecentlyUsed(lanes[0], screenWidth), RecentlyUsed(lanes[1], screenWidth), RecentlyUsed(lanes[2], screenWidth)])
    }

    /** Scans the bots for one in `lane` near the right edge, stopping at the
        first; the answer is the same as if the whole list were searched. */
    method IsLaneRecentlyUsed(lane: Lane, screenWidth: real) returns (r: RustyResult<bool>)
      ensures r == Success(RecentlyUsed(lane, screenWidth))
    {
      var recentlyUsed := false;
      var i := 0;
      while i < |botCarList|
        invariant 0 <= i <= |botCarList|
        invariant !recentlyUsed
        invariant forall j :: 0 <= j < i ==> !RecentIn(botCarList[j], lane, screenWidth)
      {
        var botCar := botCarList[i];
        if (screenWidth - botCar.xPosition) < (screenWidth / (1.0 / DistanceBetweenCars)) && botCar.way == lane.way {
          recentlyUsed := true;
          break;
        }
        i := i + 1;
      }
      r := Success(recentlyUsed);
    }

    /** `is_lane_free`: never fails, and answers with the lane rule. */
    method IsLaneFree(lane: Lane, screenWidth: real) returns (r: RustyResult<bool>)
      requires Valid()
      ensures r == Success(LaneFree(lane, screenWidth))
    {
      var isFree := false;
      if botCarList == [] {
        isFree := true;
      } else {
        var own := IsLaneRecentlyUsed(lane, screenWidth);
        if own.value {
          isFree := false;
        } else {
          PositionInLanes(lane);
          match Position(lanes, lane) {
            case None =>
              assert false;
            case Some(lanePosition) =>
              if lanePosition == 0 {
                var next := IsLaneRecentlyUsed(lanes[lanePosition + 1], screenWidth);
                isFree := !next.value;
              } else if lanePosition == |lanes| - 1 {
                var previous := IsLaneRecentlyUsed(lanes[lanePosition - 1], screenWidth);
                isFree := !previous.value;
              } else {
                var previous := IsLaneRecentlyUsed(lanes[lanePosition - 1], screenWidth);
                if previous.value {
                  var next := IsLaneRecentlyUsed(lanes[lanePosition + 1], screenWidth);
                  isFree := !next.value;
                } else {
                  isFree := true;
                }
              }
          }
        }
      }
      r := Success(isFree);
    }

    /** `spawn_car` with the random lane index, the new bot's speed, the
        screen width and the outcome of loading the bot's picture given as
        parameters.  A free lane gets exactly one new bot at the end of the
        list; otherwise the list stays as it was. */
    method SpawnCar(wayIdx: nat, speed: real, screenWidth: real, loaded: Result<Texture2D, FileError>)
      returns (r: RustyResult<()>)
      requires Valid()
      modifies this
      ensures Valid()
      ensures unchanged(old(botCarList))
      ensures old(LaneFree(Lane(WayOfIndex(wayIdx)), screenWidth)) && loaded.Success? ==>
        && r == Success(())
        && |botCarList| == |old(botCarList)| + 1
        && botCarList[..|old(botCarList)|] == old(botCarList)
        && fresh(botCarList[|old(botCarList)|])
        && botCarList[|old(botCarList)|].way == WayOfIndex(wayIdx)
        && botCarList[|old(botCarList)|].xPosition == screenWidth
        && botCarList[|old(botCarList)|].speed == speed
        && botCarList[|old(botCarList)|].texture == loaded.value
        && (old(botCarList) != [] ==> !old(RecentlyUsed(Lane(WayOfIndex(wayIdx)), screenWidth)))
      ensures old(LaneFree(Lane(WayOfIndex(wayIdx)), screenWidth)) && loaded.Failure? ==>
        r == Failure(FromFileError(loaded.error)) && botCarList == old(botCarList)
      ensures !old(LaneFree(Lane(WayOfIndex(wayIdx)), screenWidth)) ==>
        r == Success(()) && botCarList == old(botCarList)
    {
      var way := WayOfIndex(wayIdx);
      PositionInLanes(Lane(way));
      if botCarList != [] && LaneFree(Lane(way), screenWidth) {
        FreeLaneIsQuiet(Lane(way), screenWidth);
      }
      r := Success(());
      match Position(lanes, Lane(way)) {
        case None =>
          assert false;
        case Some(lanePos) =>
          var lane := lanes[lanePos];
          var free := IsLaneFree(lane, screenWidth);
          if free.value {
            var botCar := BotCars.BotCar.New(lane.way, speed, screenWidth, loaded);
            match botCar {
              case Failure(e) => r := Failure(e);
              case Success(b) => botCarList := botCarList + [b];
            }
          }
      }
    }

    /** With no bots at all every lane is free, and no lane counts as recently used. */
    lemma EmptyListAllFree(screenWidth: real)
      requires Valid() && botCarList == []
      ensures forall lane :: LaneFree(lane, screenWidth) && !RecentlyUsed(lane, screenWidth)
    {
    }

    /** A lane that is free while bots exist was not recently used, so a
        successful spawn never lands directly behind a recent bot. */
    lemma FreeLaneIsQuiet(lane: Lane, screenWidth: real)
      requires Valid() && botCarList != [] && LaneFree(lane, screenWidth)
      ensures !RecentlyUsed(lane, screenWidth)
    {
    }

    /** The rule for the three lanes, lane by lane, for a lane that was not
        recently used while bots exist: an edge lane is free exactly when the
        middle lane is quiet, the middle lane unless both edge lanes are busy. */
    lemma FreeByNeighbours(screenWidth: real)
      requires Valid() && botCarList != []
      ensures !RecentlyUsed(Lane(Upper), screenWidth) ==>
        (LaneFree(Lane(Upper), screenWidth) <==> !RecentlyUsed(Lane(Center), screenWidth))
      ensures !RecentlyUsed(Lane(Lower), screenWidth) ==>
        (LaneFree(Lane(Lower), screenWidth) <==> !RecentlyUsed(Lane(Center), screenWidth))
      ensures !RecentlyUsed(Lane(Center), screenWidth) ==>
        (LaneFree(Lane(Center), screenWidth) <==>
          !(RecentlyUsed(Lane(Upper), screenWidth) && RecentlyUsed(Lane(Lower), screenWidth)))
      ensures forall lane :: RecentlyUsed(lane, screenWidth) ==> !LaneFree(lane, screenWidth)
    {
    }
  }
}
