/**
 * The `Game` object of game_engine.py: its fields, updated in place, and the
 * methods that classify a location and play turns. Each method's effect on
 * the fields is stated through the functions of module Rules.
 */
module Engine {
  import opened Tokens
  import opened Locations
  import opened Rules

  /** The decoded map file: its top-level keys, in file order, with their content. */
  type World = seq<(string, seq<Entry>)>

  /** Keys of a decoded JSON object are distinct. */
  predicate DistinctKeys(world: World)
  {
    forall i, j :: 0 <= i < j < |world| ==> world[i].0 != world[j].0
  }

  function Keys(world: World): (ks: seq<string>)
    ensures |ks| == |world| && forall i :: 0 <= i < |world| ==> ks[i] == world[i].0
  {
    if world == [] then [] else [world[0].0] + Keys(world[1..])
  }

  /** `world[key]`, or None where Python raises KeyError. */
  function Lookup(world: World, key: string): (r: Option<seq<Entry>>)
    ensures r.Some? <==> key in Keys(world)
    ensures r.Some? ==> exists i :: 0 <= i < |world| && world[i] == (key, r.value)
  {
    if world == [] then None
    else if world[0].0 == key then Some(world[0].1)
    else Lookup(world[1..], key)
  }

  class Game {
    var remainingTime: Option<real>
    var experience: real
    var time: real
    var objectInLocation: seq<Entry>
    var locationName: seq<string>
    var mobs: seq<string>
    var locationToMove: seq<(nat, string)>
    var resultTheGame: seq<Field>
    var log: seq<seq<Field>>

    /** The fields as one value. */
    function State(): Snapshot
      reads this
    {
      Snapshot(remainingTime, experience, time, objectInLocation, locationName,
               mobs, locationToMove, resultTheGame, log)
    }

    /** The object invariant: passage records point at doors of the current content. */
    predicate Valid()
      reads this
    {
      Consistent(State())
    }

    /** `Game.__init__` (game_engine.py:22-37): nothing loaded, no experience, no time spent. */
    constructor ()
      ensures Valid()
      ensures State() == Snapshot(None, 0.0, 0.0, [], [], [], [], [], [])
    {
      remainingTime := None;
      experience, time := 0.0, 0.0;
      objectInLocation, locationName := [], [];
      mobs, locationToMove := [], [];
      resultTheGame, log := [], [];
    }

    /**
     * `read_map` without the file (game_engine.py:45-48): append the root
     * location's content and every top-level key. A map without the root key
     * raises KeyError before anything is appended.
     */
    method ReadMap(world: World) returns (ok: bool)
      requires Valid() && DistinctKeys(world)
      modifies this
      ensures Valid()
      ensures ok <==> RootLocation in Keys(world)
      ensures ok ==> objectInLocation == old(objectInLocation) + Lookup(world, RootLocation).value
      ensures ok ==> locationName == old(locationName) + Keys(world)
      ensures !ok ==> objectInLocation == old(objectInLocation) && locationName == old(locationName)
      ensures remainingTime == old(remainingTime) && experience == old(experience) && time == old(time)
      ensures mobs == old(mobs) && locationToMove == old(locationToMove)
      ensures resultTheGame == old(resultTheGame) && log == old(log)
    {
      var root := Lookup(world, RootLocation);
      if root.None? {
        return false;
      }
      objectInLocation := objectInLocation + root.value;
      locationName := locationName + Keys(world);
      ok := true;
    }

    /**
     * `create_location` (game_engine.py:71-81): walk the current content and
     * append each monster to `mobs` and each door's (position, key) to
     * `locationToMove`, keeping what the lists already held.
     */
    method CreateLocation()
      requires Valid()
      modifies this
      ensures Valid()
      ensures mobs == old(mobs) + MobsOf(objectInLocation)
      ensures locationToMove == old(locationToMove) + PassagesOf(objectInLocation)
      ensures objectInLocation == old(objectInLocation) && locationName == old(locationName)
      ensures remainingTime == old(remainingTime) && experience == old(experience) && time == old(time)
      ensures resultTheGame == old(resultTheGame) && log == old(log)
    {
      var index := 0;
      while index < |objectInLocation|
        invariant 0 <= index <= |objectInLocation|
        invariant objectInLocation == old(objectInLocation) && locationName == old(locationName)
        invariant remainingTime == old(remainingTime) && experience == old(experience) && time == old(time)
        invariant resultTheGame == old(resultTheGame) && log == old(log)
        invariant mobs == old(mobs) + MobsOf(objectInLocation[..index])
        invariant locationToMove == old(locationToMove) + PassagesOf(objectInLocation[..index])
        invariant PointsAtDoors(objectInLocation, locationToMove)
      {
        var entry := objectInLocation[index];
        assert objectInLocation[..index + 1][..index] == objectInLocation[..index];
        match entry {
          case Mob(name) =>
            mobs := mobs + [name];
          case Door(key, _) =>
            locationToMove := locationToMove + [(index, key)];
          case Other =>
        }
        index := index + 1;
      }
      assert objectInLocation[..index] == objectInLocation;
    }

    /**
     * `write_result_in_file` without the file (game_engine.py:66-69): extend
     * the row with the front location name, the experience and the date, and
     * write it. An empty name queue raises IndexError first.
     */
    method WriteResult() returns (ok: bool)
      modifies this
      ensures ok <==> |locationName| > 0
      ensures ok ==>
        resultTheGame == old(resultTheGame) + [LocationField(locationName[0]), ExperienceField(experience), DateField]
      ensures ok ==> log == old(log) + [resultTheGame]
      ensures !ok ==> resultTheGame == old(resultTheGame) && log == old(log)
      ensures remainingTime == old(remainingTime) && experience == old(experience) && time == old(time)
      ensures objectInLocation == old(objectInLocation) && locationName == old(locationName)
      ensures mobs == old(mobs) && locationToMove == old(locationToMove)
    {
      if locationName == [] {
        return false;
      }
      resultTheGame := resultTheGame + [LocationField(locationName[0]), ExperienceField(experience), DateField];
      log := log + [resultTheGame];
      ok := true;
    }

    /** Choice '1' of `user_input` (game_engine.py:116-135). */
    method Attack(sel: string) returns (o: Outcome)
      requires Valid() && Selection(sel)
      modifies this
      ensures Valid()
      ensures (State(), o) == AttackResult(old(State()), sel)
    {
      if mobs == [] {
        return NoMonsters;
      }
      if IsAlpha(sel) || DigitsValue(sel) > |mobs| {
        return Rejected;
      }
      var monster := mobs[Pick(DigitsValue(sel), |mobs|)];
      var reward := ExpValue(monster);
      if reward.None? {
        return Crashed;
      }
      experience := experience + reward.value;
      var cost := TmValue(monster);
      if cost.None? {
        return Crashed;
      }
      time := time + cost.value;
      o := Continue;
    }

    /** Choice '2' of `user_input` (game_engine.py:136-169). */
    method Move(sel: string) returns (o: Outcome)
      requires Valid() && Selection(sel)
      modifies this
      ensures Valid()
      ensures (State(), o) == MoveResult(old(State()), sel)
    {
      if locationToMove == [] {
        if mobs != [] {
          return OnlyMonsters;
        }
        return DeadEnd;
      }
      if IsAlpha(sel) || DigitsValue(sel) > |locationToMove| {
        return Rejected;
      }
      if HasInfix(locationToMove[0].1, WinMarker) {
        if experience < ExpForWin {
          return NotEnoughExperience;
        }
        return Won;
      }
      var passage := locationToMove[Pick(DigitsValue(sel), |locationToMove|)];
      var cost := TmValue(passage.1);
      if cost.None? {
        return Crashed;
      }
      o := Enter(passage.0, passage.1, cost.value);
    }

    /**
     * The move itself (game_engine.py:161-169): spend the cost, replace the
     * content by the door's, push the destination onto the name queue and
     * drop its front, classify the new content afresh and log one row.
     */
    method Enter(pos: nat, key: string, cost: real) returns (o: Outcome)
      requires Valid() && pos < |objectInLocation| && objectInLocation[pos].Door?
      modifies this
      ensures Valid()
      ensures (State(), o) == EnterResult(old(State()), pos, key, cost)
    {
      time := time + cost;
      objectInLocation := objectInLocation[pos].content;
      locationName := locationName + [key];
      locationName := locationName[1..];
      mobs, locationToMove := [], [];
      CreateLocation();
      assert mobs == MobsOf(objectInLocation) && locationToMove == PassagesOf(objectInLocation);
      var written := WriteResult();
      if !written {
        return Crashed;
      }
      resultTheGame := [];
      o := Continue;
    }

    /**
     * One pass of the `user_input` loop (game_engine.py:105-173): record the
     * remaining time, stop when it is spent, show the status (which reads the
     * front of the name queue and fails when it is empty), then act on the
     * choice.
     */
    method Turn(choice: string, sel: string) returns (o: Outcome)
      requires Valid() && Selection(sel)
      modifies this
      ensures Valid()
      ensures (State(), o) == TurnResult(old(State()), choice, sel)
    {
      remainingTime := Some(Budget - time);
      if remainingTime.value <= 0.0 {
        return TimeUp;
      }
      if locationName == [] {
        return Crashed;
      }
      if choice == "1" {
        o := Attack(sel);
      } else if choice == "2" {
        o := Move(sel);
      } else if choice == "3" {
        o := Quit;
      } else if !IsAlpha(choice) || !IsDigits(choice) {
        o := UnknownChoice;
      } else {
        o := Continue;
      }
    }

    /**
     * `user_input` (game_engine.py:104-173) fed from a script of
     * (choice, selection) inputs: play turns until one ends the loop or the
     * script runs out (`None`).
     */
    method UserInput(script: seq<(string, string)>) returns (result: Option<Outcome>)
      requires Valid()
      requires forall j :: 0 <= j < |script| ==> Selection(script[j].1)
      modifies this
      ensures Valid()
      ensures (State(), result) == Play(old(State()), script)
    {
      var next := 0;
      result := None;
      while next < |script|
        invariant 0 <= next <= |script|
        invariant Valid()
        invariant Play(old(State()), script) == Play(State(), script[next..])
        decreases |script| - next
      {
        var (choice, sel) := script[next];
        assert script[next..][1..] == script[next + 1..];
        var o := Turn(choice, sel);
        next := next + 1;
        if Ends(o) {
          return Some(o);
        }
      }
    }
  }
}
