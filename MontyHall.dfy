/**
 A model of the Monty Hall game simulator.

 Doors are numbered 0 .. doorCount-1. The car door and the player's first guess are drawn at
 random by the program; here they are supplied by the caller. The host opens doorCount-2 doors
 that hide neither the car nor the guessed door, scanning doors in increasing order; a switching
 player then takes the first door that is neither the first guess nor opened.

 The settings `switch`, `door_count` and `game_count`, which the program keeps as module-level
 variables, are parameters here.
 */
module MontyHall {

  /** The result of a search that may find nothing (the program returns None). */
  datatype Option<T> = None | Some(value: T)

  /** `d` is one of the doors of a game with `doorCount` doors: the range of a random draw. */
  predicate IsDoor(doorCount: nat, d: int) {
    0 <= d < doorCount
  }

  predicate Increasing(s: seq<int>) {
    forall i, j :: 0 <= i < j < |s| ==> s[i] < s[j]
  }

  /** How many of the doors 0 .. d-1 are the car door or the guessed door (counted once if equal). */
  function Excluded(d: nat, carDoor: int, playersGuess: int): nat {
    (if 0 <= carDoor < d then 1 else 0) + (if 0 <= playersGuess < d && playersGuess != carDoor then 1 else 0)
  }

  /**
   The doors below `d` that the host may open -- neither the car door nor the player's guess --
   in the order a scan from door 0 meets them.
   */
  function Openable(d: nat, carDoor: int, playersGuess: int): (s: seq<int>)
    ensures forall e :: e in s <==> 0 <= e < d && e != carDoor && e != playersGuess
    ensures Increasing(s)
    ensures |s| == d - Excluded(d, carDoor, playersGuess)
  {
    if d == 0 then []
    else
      var prev := Openable(d - 1, carDoor, playersGuess);
      assert forall i :: 0 <= i < |prev| ==> prev[i] in prev;
      if d - 1 == carDoor || d - 1 == playersGuess then prev else prev + [d - 1]
  }

  /** Scanning fewer doors yields a prefix of the doors a longer scan yields. */
  lemma {:induction false} OpenablePrefix(d: nat, n: nat, carDoor: int, playersGuess: int)
    requires d <= n
    ensures |Openable(d, carDoor, playersGuess)| <= |Openable(n, carDoor, playersGuess)|
    ensures Openable(d, carDoor, playersGuess) == Openable(n, carDoor, playersGuess)[..|Openable(d, carDoor, playersGuess)|]
    decreases n - d
  {
    if d < n {
      OpenablePrefix(d, n - 1, carDoor, playersGuess);
      var p := Openable(n - 1, carDoor, playersGuess);
      var k := |Openable(d, carDoor, playersGuess)|;
      assert Openable(n, carDoor, playersGuess)[..k] == p[..k];
    }
  }

  /**
   The doors the host opens: the first doorCount-2 openable doors in scan order (all of them when
   fewer than two doors exist, where the stopping test can never succeed).
   */
  function MontyDoors(doorCount: nat, carDoor: int, playersGuess: int): (doors: seq<int>)
    ensures forall i :: 0 <= i < |doors| ==>
      IsDoor(doorCount, doors[i]) && doors[i] != carDoor && doors[i] != playersGuess
    ensures Increasing(doors)
    ensures doorCount >= 2 ==> |doors| == doorCount - 2
  {
    var c := Openable(doorCount, carDoor, playersGuess);
    assert forall i :: 0 <= i < |c| ==> c[i] in c;
    if doorCount >= 2 then c[..doorCount - 2] else c
  }

  /**
   The host's choice (pick_monty_doors): scan doors in increasing order, stop once doorCount-2
   doors are chosen, skip the car door and the guessed door, collect the rest.
   */
  method PickMontyDoors(doorCount: nat, carDoor: int, playersGuess: int) returns (montyDoors: seq<int>)
    ensures montyDoors == MontyDoors(doorCount, carDoor, playersGuess)
  {
    montyDoors := [];
    for d := 0 to doorCount
      invariant montyDoors == Openable(d, carDoor, playersGuess)
      invariant doorCount >= 2 ==> |montyDoors| <= doorCount - 2
    {
      if |montyDoors| == doorCount - 2 {
        OpenablePrefix(d, doorCount, carDoor, playersGuess);
        break;
      }
      if d == carDoor {
        continue;
      }
      if d == playersGuess {
        continue;
      }
      montyDoors := montyDoors + [d];
    }
  }

  /**
   The door the host leaves closed besides the player's guess: the car door when the guess was
   wrong, otherwise the last openable door, which the host's quota stops just short of: the
   largest door other than the guess.
   */
  function ClosedDoor(doorCount: nat, carDoor: int, playersGuess: int): (u: int)
    requires doorCount >= 2 && IsDoor(doorCount, carDoor) && IsDoor(doorCount, playersGuess)
    ensures IsDoor(doorCount, u) && u != playersGuess
    ensures u !in MontyDoors(doorCount, carDoor, playersGuess)
    ensures u == carDoor <==> carDoor != playersGuess
    ensures carDoor == playersGuess ==> forall e :: IsDoor(doorCount, e) && e != playersGuess ==> e <= u
  {
    if carDoor != playersGuess then carDoor
    else
      var c := Openable(doorCount, carDoor, playersGuess);
      assert c[doorCount - 2] in c;
      assert forall e :: IsDoor(doorCount, e) && e != playersGuess ==> e <= c[doorCount - 2] by {
        forall e | IsDoor(doorCount, e) && e != playersGuess ensures e <= c[doorCount - 2] {
          assert e in c;
          var k :| 0 <= k < |c| && c[k] == e;
        }
      }
      c[doorCount - 2]
  }

  /**
   With at least two doors, every door other than the guess is opened except exactly one, the
   closed door; when the guess is wrong the host opens every door but the car and the guess.
   */
  lemma HostLeavesOneDoorClosed(doorCount: nat, carDoor: int, playersGuess: int)
    requires doorCount >= 2 && IsDoor(doorCount, carDoor) && IsDoor(doorCount, playersGuess)
    ensures forall d ::
      (IsDoor(doorCount, d) && d != playersGuess && d !in MontyDoors(doorCount, carDoor, playersGuess) ==>
        d == ClosedDoor(doorCount, carDoor, playersGuess))
    ensures carDoor != playersGuess ==> forall d ::
      (d in MontyDoors(doorCount, carDoor, playersGuess) <==> IsDoor(doorCount, d) && d != carDoor && d != playersGuess)
  {
    var c := Openable(doorCount, carDoor, playersGuess);
    var m := MontyDoors(doorCount, carDoor, playersGuess);
    if carDoor != playersGuess {
      assert m == c;
    } else {
      forall d | IsDoor(doorCount, d) && d != playersGuess && d !in m
        ensures d == c[doorCount - 2]
      {
        assert d in c;
        var k :| 0 <= k < |c| && c[k] == d;
      }
    }
  }

  /** `d` is a door the player may switch to: not the first guess and not opened by the host. */
  predicate SwitchCandidate(doorCount: nat, playersGuess: int, montyDoors: seq<int>, d: int) {
    IsDoor(doorCount, d) && d != playersGuess && d !in montyDoors
  }

  /**
   `other` is what a scan from door 0 for a switch candidate returns: the smallest candidate,
   or None when there is none.
   */
  predicate FirstSwitchDoor(doorCount: nat, playersGuess: int, montyDoors: seq<int>, other: Option<int>) {
    match other
    case Some(d) =>
      SwitchCandidate(doorCount, playersGuess, montyDoors, d) &&
      forall e :: 0 <= e < d ==> !SwitchCandidate(doorCount, playersGuess, montyDoors, e)
    case None =>
      forall e :: 0 <= e < doorCount ==> !SwitchCandidate(doorCount, playersGuess, montyDoors, e)
  }

  /**
   The switching player's new door (pick_other_door): the first door that is neither the original
   guess nor opened by the host; None when the scan finds none.
   */
  method PickOtherDoor(doorCount: nat, playersGuess: int, montyDoors: seq<int>) returns (other: Option<int>)
    ensures FirstSwitchDoor(doorCount, playersGuess, montyDoors, other)
  {
    for d := 0 to doorCount
      invariant forall e :: 0 <= e < d ==> !SwitchCandidate(doorCount, playersGuess, montyDoors, e)
    {
      if d == playersGuess {
        continue;
      }
      if d in montyDoors {
        continue;
      }
      return Some(d);
    }
    return None;
  }

  /**
   After the host's choice, the switch finds a door whenever there are at least two doors, and it
   is the one door the host left closed.
   */
  lemma SwitchFindsClosedDoor(doorCount: nat, carDoor: int, playersGuess: int, other: Option<int>)
    requires doorCount >= 2 && IsDoor(doorCount, carDoor) && IsDoor(doorCount, playersGuess)
    requires FirstSwitchDoor(doorCount, playersGuess, MontyDoors(doorCount, carDoor, playersGuess), other)
    ensures other == Some(ClosedDoor(doorCount, carDoor, playersGuess))
  {
    var m := MontyDoors(doorCount, carDoor, playersGuess);
    var u := ClosedDoor(doorCount, carDoor, playersGuess);
    assert SwitchCandidate(doorCount, playersGuess, m, u);
    HostLeavesOneDoorClosed(doorCount, carDoor, playersGuess);
  }

  /** The outcome the doors argument predicts: a switcher wins exactly when the first guess was wrong. */
  predicate PredictedWin(switch: bool, carDoor: int, playersGuess: int) {
    if switch then carDoor != playersGuess else carDoor == playersGuess
  }

  /**
   One game (run_game) with its two random draws supplied: the host opens doors, the player
   switches if `switch` holds, and wins when the final door is the car door.
   */
  method RunGame(doorCount: nat, switch: bool, carDoor: int, playersGuess: int) returns (win: bool)
    requires IsDoor(doorCount, carDoor) && IsDoor(doorCount, playersGuess)
    ensures win == PredictedWin(switch, carDoor, playersGuess)
  {
    var montyDoors := PickMontyDoors(doorCount, carDoor, playersGuess);
    var finalGuess := Some(playersGuess);
    if switch {
      finalGuess := PickOtherDoor(doorCount, playersGuess, montyDoors);
      if doorCount >= 2 {
        SwitchFindsClosedDoor(doorCount, carDoor, playersGuess, finalGuess);
      } else {
        assert !SwitchCandidate(doorCount, playersGuess, montyDoors, carDoor);
      }
    }
    win := finalGuess == Some(carDoor);
  }

  /** The number of games, given by their draws, that the strategy `switch` wins. */
  function Tally(switch: bool, cars: seq<int>, guesses: seq<int>): (wins: nat)
    requires |cars| == |guesses|
    ensures wins <= |cars|
  {
    if |cars| == 0 then 0
    else
      var last := |cars| - 1;
      Tally(switch, cars[..last], guesses[..last]) + (if PredictedWin(switch, cars[last], guesses[last]) then 1 else 0)
  }

  /** On the same draws, switching and sticking win complementary sets of games. */
  lemma {:induction false} TallyPartition(cars: seq<int>, guesses: seq<int>)
    requires |cars| == |guesses|
    ensures Tally(true, cars, guesses) + Tally(false, cars, guesses) == |cars|
  {
    if |cars| > 0 {
      TallyPartition(cars[..|cars| - 1], guesses[..|guesses| - 1]);
    }
  }

  /**
   The simulation loop (run_games): play `gameCount` games on the supplied draws and count the
   wins.
   */
  method RunGames(doorCount: nat, gameCount: nat, switch: bool, cars: seq<int>, guesses: seq<int>)
    returns (game: nat, wins: nat)
    requires |cars| == gameCount && |guesses| == gameCount
    requires forall i :: 0 <= i < gameCount ==> IsDoor(doorCount, cars[i]) && IsDoor(doorCount, guesses[i])
    ensures game == gameCount && wins <= game
    ensures wins == Tally(switch, cars, guesses)
  {
    wins := 0;
    game := 0;
    while game < gameCount
      invariant game <= gameCount
      invariant wins == Tally(switch, cars[..game], guesses[..game])
    {
      game := game + 1;
      var won := RunGame(doorCount, switch, cars[game - 1], guesses[game - 1]);
      if won {
        wins := wins + 1;
      }
      assert cars[..game][..game - 1] == cars[..game - 1];
      assert guesses[..game][..game - 1] == guesses[..game - 1];
    }
    assert cars[..game] == cars && guesses[..game] == guesses;
  }
}
