/**
 * One turn of the game (`Game.user_input`, one pass of its `while True`
 * loop) as a function from the game's state to its next state and the way
 * the turn ended. The class in module Engine performs the same turn by
 * updating its fields in place and is proved equal to these functions.
 */
module Rules {
  import opened Tokens
  import opened Locations

  /** `REMAINING_TIME`: the total time budget, as written and as its value. */
  const RemainingTimeText: string := "1234567890.0987654321"
  const Budget: real := 1234567890.0987654321

  /** `exp_for_win`: experience needed to pass through the win location. */
  const ExpForWin: real := 280.0

  /** A destination whose name contains this marker is the win location. */
  const WinMarker: string := "Hatch"

  /** The key of the starting location in the map. */
  const RootLocation: string := "Location_0_tm0"

  /** One field of `result_the_game`; `DateField` stands for `datetime.now()`. */
  datatype Field = LocationField(name: string) | ExperienceField(amount: real) | DateField

  /** How a turn ended. */
  datatype Outcome =
    | Continue              // the action was carried out
    | Rejected              // the selection was alphabetic or too large
    | NoMonsters            // attack chosen with no monsters present
    | OnlyMonsters          // move chosen with no passages but monsters present
    | TimeUp                // the budget was spent before the turn
    | DeadEnd               // move chosen with neither passages nor monsters
    | NotEnoughExperience   // passage checked against the win marker, too little experience
    | Won                   // passage checked against the win marker, enough experience
    | Quit                  // choice '3'
    | UnknownChoice         // any other choice
    | Crashed               // an exception escapes: missing or unreadable token, no location name

  /** The turn leaves the `while True` loop of `user_input`. */
  predicate Ends(o: Outcome)
  {
    !(o.Continue? || o.Rejected? || o.NoMonsters? || o.OnlyMonsters?)
  }

  /** The fields of `Game` that a turn reads or writes. */
  datatype Snapshot = Snapshot(
    remainingTime: Option<real>,           // remaining_time_decimal (None before the first turn)
    experience: real,
    time: real,
    objectInLocation: seq<Entry>,           // the current location's content
    locationName: seq<string>,              // queue whose front is the reported location
    mobs: seq<string>,
    locationToMove: seq<(nat, string)>,     // (position in objectInLocation, first key)
    resultTheGame: seq<Field>,              // the row being assembled
    log: seq<seq<Field>>)                   // the rows written to the result file

  /** What every turn relies on: passages point at doors, and no row is half built. */
  predicate Consistent(s: Snapshot)
  {
    PointsAtDoors(s.objectInLocation, s.locationToMove) && s.resultTheGame == []
  }

  /** The monster and passage lists are exactly the classification of the current content. */
  predicate Classified(s: Snapshot)
  {
    s.mobs == MobsOf(s.objectInLocation) && s.locationToMove == PassagesOf(s.objectInLocation)
  }

  /** A selection as typed: letters (rejected) or a decimal number. */
  predicate Selection(sel: string)
  {
    IsAlpha(sel) || IsDigits(sel)
  }

  /**
   * Python's `list[k - 1]` for 0 <= k <= n: a negative index counts from the
   * end, so the element taken is k - 1 modulo n and selection 0 wraps to the
   * last element.
   */
  function Pick(k: nat, n: nat): (i: nat)
    requires 0 < n && k <= n
    ensures i < n && i == (k - 1) % n
  {
    if k == 0 then n - 1 else k - 1
  }

  /**
   * Choice '1' (game_engine.py:116-135). An attack changes at most the
   * experience and the time, never lowers either, and does not end the loop
   * except by an exception; a turn that is not carried out changes nothing.
   */
  function AttackResult(s: Snapshot, sel: string): (r: (Snapshot, Outcome))
    requires Selection(sel)
    ensures r.0 == s.(experience := r.0.experience, time := r.0.time)
    ensures r.0.experience >= s.experience && r.0.time >= s.time
    ensures r.1 in {Continue, NoMonsters, Rejected, Crashed}
    ensures r.1 == NoMonsters || r.1 == Rejected ==> r.0 == s
  {
    var n := |s.mobs|;
    if n == 0 then (s, NoMonsters)
    else if IsAlpha(sel) || DigitsValue(sel) > n then (s, Rejected)
    else
      var monster := s.mobs[Pick(DigitsValue(sel), n)];
      match ExpValue(monster)
      case None => (s, Crashed)
      case Some(reward) =>
        var s1 := s.(experience := s.experience + reward);
        match TmValue(monster)
        case None => (s1, Crashed)
        case Some(cost) => (s1.(time := s1.time + cost), Continue)
  }

  /**
   * Choice '2' (game_engine.py:136-169). A move never changes the
   * experience nor lowers the time; every outcome but entering a passage
   * leaves the state as it was.
   */
  function MoveResult(s: Snapshot, sel: string): (r: (Snapshot, Outcome))
    requires Selection(sel) && Consistent(s)
    ensures r.0.experience == s.experience && r.0.remainingTime == s.remainingTime && r.0.time >= s.time
    ensures r.1 in {Continue, OnlyMonsters, DeadEnd, Rejected, NotEnoughExperience, Won, Crashed}
    ensures r.1 != Continue && r.1 != Crashed ==> r.0 == s
  {
    var n := |s.locationToMove|;
    if n == 0 then (s, if s.mobs != [] then OnlyMonsters else DeadEnd)
    else if IsAlpha(sel) || DigitsValue(sel) > n then (s, Rejected)
    else if HasInfix(s.locationToMove[0].1, WinMarker) then
      (s, if s.experience < ExpForWin then NotEnoughExperience else Won)
    else
      var passage := s.locationToMove[Pick(DigitsValue(sel), n)];
      match TmValue(passage.1)
      case None => (s, Crashed)
      case Some(cost) => EnterResult(s, passage.0, passage.1, cost)
  }

  /**
   * Going through the door at `pos` under `key` at the given cost
   * (game_engine.py:161-169). The new lists are the classification of the
   * door's content, the name queue keeps its length, and only an empty name
   * queue makes the row's `location_name[0]` fail.
   */
  function EnterResult(s: Snapshot, pos: nat, key: string, cost: real): (r: (Snapshot, Outcome))
    requires pos < |s.objectInLocation| && s.objectInLocation[pos].Door?
    ensures Classified(r.0) && r.0.objectInLocation == s.objectInLocation[pos].content
    ensures |r.0.locationName| == |s.locationName|
    ensures r.1 == Continue <==> |s.locationName| > 0
    ensures r.1 == Continue || r.1 == Crashed
  {
    var content := s.objectInLocation[pos].content;
    var names := (s.locationName + [key])[1..];
    var s1 := s.(time := s.time + cost, objectInLocation := content, locationName := names,
                 mobs := MobsOf(content), locationToMove := PassagesOf(content));
    if names == [] then (s1, Crashed)
    else
      var row := s.resultTheGame + [LocationField(names[0]), ExperienceField(s.experience), DateField];
      (s1.(log := s.log + [row], resultTheGame := []), Continue)
  }

  /**
   * One pass of the `user_input` loop: record the remaining time, stop when
   * it is spent, show the status (whose `location_name[0]` fails on an empty
   * name queue), then act on the choice.
   */
  function TurnResult(s: Snapshot, choice: string, sel: string): (r: (Snapshot, Outcome))
    requires Selection(sel) && Consistent(s)
    ensures r.0.remainingTime == Some(Budget - s.time)
    ensures r.1 == TimeUp <==> s.time >= Budget
  {
    var remaining := Budget - s.time;
    var s0 := s.(remainingTime := Some(remaining));
    if remaining <= 0.0 then (s0, TimeUp)
    else if s.locationName == [] then (s0, Crashed)
    else if choice == "1" then AttackResult(s0, sel)
    else if choice == "2" then MoveResult(s0, sel)
    else if choice == "3" then (s0, Quit)
    else if !IsAlpha(choice) || !IsDigits(choice) then (s0, UnknownChoice)
    else (s0, Continue)
  }

  /**
   * The turns of `user_input` over a script of (choice, selection) inputs,
   * until one ends the loop. The result names the turn that ended it, which
   * is always an ending outcome, or None when the script ran out first.
   */
  function Play(s: Snapshot, script: seq<(string, string)>): (r: (Snapshot, Option<Outcome>))
    requires Consistent(s)
    requires forall j :: 0 <= j < |script| ==> Selection(script[j].1)
    ensures r.1.Some? ==> Ends(r.1.value)
    ensures r.1.None? ==> script == [] || !Ends(TurnResult(s, script[0].0, script[0].1).1)
    ensures script == [] ==> r == (s, None)
    decreases |script|
  {
    if script == [] then (s, None)
    else
      TurnKeepsConsistent(s, script[0].0, script[0].1);
      var (s1, o) := TurnResult(s, script[0].0, script[0].1);
      if Ends(o) then (s1, Some(o)) else Play(s1, script[1..])
  }

  // -----------------------------------------------------------------------
  // Properties of a turn

  /** Decimal(REMAINING_TIME) is exactly the budget constant. */
  lemma BudgetReadsExactly()
    ensures ReadDecimal(RemainingTimeText) == Some(Budget)
  {
    var frac := "0987654321";
    BudgetWholePart();
    BudgetFractionDigits();
    assert Pow10(10) == 10000000000;
    DigitsRoundTrip(1234567890);
    ReadDigitsFraction("1234567890", frac);
    assert "1234567890" + "." + frac == RemainingTimeText;
  }

  lemma BudgetWholePart()
    ensures NatToDigits(1234567890) == "1234567890"
  {
    assert NatToDigits(1) == "1";
    assert NatToDigits(12) == "12";
    assert NatToDigits(123) == "123";
    assert NatToDigits(1234) == "1234";
    assert NatToDigits(12345) == "12345";
    assert NatToDigits(123456) == "123456";
    assert NatToDigits(1234567) == "1234567";
    assert NatToDigits(12345678) == "12345678";
    assert NatToDigits(123456789) == "123456789";
  }

  lemma BudgetFractionDigits()
    ensures DigitsValue("0987654321") == 987654321
  {
    assert DigitsValue("0") == 0;
    assert "09"[..1] == "0";
    assert DigitsValue("09") == 9;
    assert "098"[..2] == "09";
    assert DigitsValue("098") == 98;
    assert "0987"[..3] == "098";
    assert DigitsValue("0987") == 987;
    assert "09876"[..4] == "0987";
    assert DigitsValue("09876") == 9876;
    assert "098765"[..5] == "09876";
    assert DigitsValue("098765") == 98765;
    assert "0987654"[..6] == "098765";
    assert DigitsValue("0987654") == 987654;
    assert "09876543"[..7] == "0987654";
    assert DigitsValue("09876543") == 9876543;
    assert "098765432"[..8] == "09876543";
    assert DigitsValue("098765432") == 98765432;
    assert "0987654321"[..9] == "098765432";
    assert DigitsValue("0987654321") == 987654321;
  }

  /** Once the budget is spent, every turn ends the loop and changes nothing else. */
  lemma SpentBudgetEndsEveryTurn(s: Snapshot, choice: string, sel: string)
    requires Selection(sel) && Consistent(s)
    ensures TurnResult(s, choice, sel).1 == TimeUp <==> s.time >= Budget
    ensures s.time >= Budget ==> TurnResult(s, choice, sel).0 == s.(remainingTime := Some(Budget - s.time))
  {
  }

  /**
   * With time left, a turn on an empty name queue fails in the status display
   * before reading the choice, changing nothing but the remaining time.
   */
  lemma NamelessTurnCrashes(s: Snapshot, choice: string, sel: string)
    requires Selection(sel) && Consistent(s)
    ensures s.time < Budget && s.locationName == [] ==>
      TurnResult(s, choice, sel) == (s.(remainingTime := Some(Budget - s.time)), Crashed)
    ensures TurnResult(s, choice, sel).1 == Crashed ==> s.locationName == [] || choice == "1" || choice == "2"
  {
  }

  /** Choice '3' ends the loop as Quit, changing nothing but the remaining time. */
  lemma QuitEnds(s: Snapshot, sel: string)
    requires Selection(sel) && Consistent(s) && s.time < Budget
    ensures TurnResult(s, "3", sel) ==
      (s.(remainingTime := Some(Budget - s.time)), if s.locationName == [] then Crashed else Quit)
  {
  }

  /**
   * Any choice other than '1', '2' or '3' ends the loop (the guard at line
   * 172 always holds), unless the status display failed first.
   */
  lemma OtherChoicesEnd(s: Snapshot, choice: string, sel: string)
    requires Selection(sel) && Consistent(s)
    requires s.time < Budget && choice != "1" && choice != "2" && choice != "3"
    ensures TurnResult(s, choice, sel) ==
      (s.(remainingTime := Some(Budget - s.time)), if s.locationName == [] then Crashed else UnknownChoice)
  {
    AlphaAndDigitsExclusive(choice);
  }

  /** A selection is rejected, with no change, exactly when it is alphabetic or above the list's length. */
  lemma RejectedExactly(s: Snapshot, sel: string)
    requires Selection(sel) && Consistent(s)
    ensures |s.mobs| > 0 ==>
      (AttackResult(s, sel).1 == Rejected <==> IsAlpha(sel) || DigitsValue(sel) > |s.mobs|)
    ensures |s.locationToMove| > 0 ==>
      (MoveResult(s, sel).1 == Rejected <==> IsAlpha(sel) || DigitsValue(sel) > |s.locationToMove|)
    ensures AttackResult(s, sel).1 == Rejected ==> AttackResult(s, sel).0 == s
    ensures MoveResult(s, sel).1 == Rejected ==> MoveResult(s, sel).0 == s
  {
  }

  /** Selection "0" attacks the last monster, like selecting the list's length. */
  lemma ZeroAttacksLast(s: Snapshot)
    requires |s.mobs| > 0
    ensures AttackResult(s, "0") == AttackResult(s, NatToDigits(|s.mobs|))
  {
    var t := NatToDigits(|s.mobs|);
    ZeroAndSpelling(|s.mobs|);
    assert Pick(0, |s.mobs|) == Pick(DigitsValue(t), |s.mobs|);
  }

  /** Selection "0" takes the last passage, like selecting the list's length. */
  lemma ZeroMovesLast(s: Snapshot)
    requires Consistent(s) && |s.locationToMove| > 0
    ensures MoveResult(s, "0") == MoveResult(s, NatToDigits(|s.locationToMove|))
  {
    var t := NatToDigits(|s.locationToMove|);
    ZeroAndSpelling(|s.locationToMove|);
    assert Pick(0, |s.locationToMove|) == Pick(DigitsValue(t), |s.locationToMove|);
  }

  lemma ZeroAndSpelling(n: nat)
    ensures IsDigits("0") && !IsAlpha("0") && DigitsValue("0") == 0
    ensures IsDigits(NatToDigits(n)) && !IsAlpha(NatToDigits(n)) && DigitsValue(NatToDigits(n)) == n
  {
    assert !IsLetter("0"[0]);
    assert !IsLetter(NatToDigits(n)[0]);
    DigitsRoundTrip(n);
  }

  /**
   * An accepted attack adds the monster's reward to experience and its cost to
   * time, exactly, and changes nothing else; the monster stays in the list.
   */
  lemma AttackGains(s: Snapshot, sel: string)
    requires Selection(sel) && IsDigits(sel)
    requires 0 < |s.mobs| && DigitsValue(sel) <= |s.mobs|
    ensures var monster := s.mobs[Pick(DigitsValue(sel), |s.mobs|)];
      var (s1, o) := AttackResult(s, sel);
      (o == Continue <==> ExpValue(monster).Some? && TmValue(monster).Some?) &&
      (o == Continue ==>
        s1 == s.(experience := s.experience + ExpValue(monster).value,
                 time := s.time + TmValue(monster).value)) &&
      (ExpValue(monster).None? ==> o == Crashed && s1 == s) &&
      (ExpValue(monster).Some? && TmValue(monster).None? ==>
        o == Crashed && s1 == s.(experience := s.experience + ExpValue(monster).value)) &&
      s1.mobs == s.mobs && s1.locationToMove == s.locationToMove &&
      s1.objectInLocation == s.objectInLocation && s1.locationName == s.locationName
  {
  }

  /** A monster is never consumed: an attack that worked works again, with the same gains. */
  lemma {:induction false} AttackRepeats(s: Snapshot, sel: string)
    requires Selection(sel)
    requires AttackResult(s, sel).1 == Continue
    ensures var s1 := AttackResult(s, sel).0;
      var s2 := AttackResult(s1, sel).0;
      AttackResult(s1, sel).1 == Continue &&
      s2.experience - s1.experience == s1.experience - s.experience &&
      s2.time - s1.time == s1.time - s.time && s2.mobs == s.mobs
  {
    var s1 := AttackResult(s, sel).0;
    assert s1.mobs == s.mobs;
  }

  /** The empty-list cases of the two actions. */
  lemma EmptyLists(s: Snapshot, sel: string)
    requires Selection(sel) && Consistent(s)
    ensures s.mobs == [] ==> AttackResult(s, sel) == (s, NoMonsters)
    ensures s.locationToMove == [] && s.mobs != [] ==> MoveResult(s, sel) == (s, OnlyMonsters)
    ensures MoveResult(s, sel).1 == DeadEnd <==> s.locationToMove == [] && s.mobs == []
  {
  }

  /**
   * When the first passage leads to the win location, every accepted move
   * selection, whichever passage it names, settles the game on experience
   * alone and leaves the state (time included) unchanged.
   */
  lemma WinCheckUsesFirstPassage(s: Snapshot, sel: string)
    requires Selection(sel) && Consistent(s) && IsDigits(sel)
    requires 0 < |s.locationToMove| && DigitsValue(sel) <= |s.locationToMove|
    requires HasInfix(s.locationToMove[0].1, WinMarker)
    ensures MoveResult(s, sel).0 == s
    ensures MoveResult(s, sel).1 == Won <==> s.experience >= ExpForWin
    ensures MoveResult(s, sel).1 == NotEnoughExperience <==> s.experience < ExpForWin
  {
  }

  /**
   * An accepted move through an ordinary passage: when its cost reads and the
   * name queue is not empty, time grows by that cost, the location becomes
   * the door's content and is classified afresh, the destination is appended
   * to the name queue and its front dropped, one row (new front name,
   * experience, date) is logged, and nothing else changes. An unreadable cost
   * changes nothing; an empty name queue fails after the state was updated.
   */
  lemma MoveEnters(s: Snapshot, sel: string)
    requires Selection(sel) && Consistent(s) && IsDigits(sel)
    requires 0 < |s.locationToMove| && DigitsValue(sel) <= |s.locationToMove|
    requires !HasInfix(s.locationToMove[0].1, WinMarker)
    ensures var (pos, key) := s.locationToMove[Pick(DigitsValue(sel), |s.locationToMove|)];
      pos < |s.objectInLocation| && s.objectInLocation[pos].Door? && s.objectInLocation[pos].key == key
    ensures var (pos, key) := s.locationToMove[Pick(DigitsValue(sel), |s.locationToMove|)];
      var (s1, o) := MoveResult(s, sel);
      (o == Continue <==> TmValue(key).Some? && |s.locationName| > 0) &&
      (TmValue(key).None? ==> o == Crashed && s1 == s)
    ensures var (pos, key) := s.locationToMove[Pick(DigitsValue(sel), |s.locationToMove|)];
      var (s1, o) := MoveResult(s, sel);
      TmValue(key).Some? ==>
        var content := s.objectInLocation[pos].content;
        var entered := s.(time := s.time + TmValue(key).value, objectInLocation := content,
                          locationName := (s.locationName + [key])[1..],
                          mobs := MobsOf(content), locationToMove := PassagesOf(content));
        (|s.locationName| > 0 ==>
          s1 == entered.(log := s.log + [[LocationField(entered.locationName[0]), ExperienceField(s.experience), DateField]]) &&
          s1.locationName == s.locationName[1..] + [key] && Classified(s1) && Consistent(s1)) &&
        (s.locationName == [] ==> o == Crashed && s1 == entered && s1.locationName == [])
  {
    var (pos, key) := s.locationToMove[Pick(DigitsValue(sel), |s.locationToMove|)];
    var content := s.objectInLocation[pos].content;
    PassagesAreDoors(content);
    assert s.resultTheGame == [];
    if |s.locationName| > 0 {
      assert (s.locationName + [key])[1..] == s.locationName[1..] + [key];
      assert s.resultTheGame + [LocationField((s.locationName + [key])[1..][0]), ExperienceField(s.experience), DateField]
          == [LocationField((s.locationName + [key])[1..][0]), ExperienceField(s.experience), DateField];
    } else {
      assert (s.locationName + [key])[1..] == [];
    }
  }

  /** Every turn keeps the passage records pointing at doors and leaves no half-built row. */
  lemma TurnKeepsConsistent(s: Snapshot, choice: string, sel: string)
    requires Selection(sel) && Consistent(s)
    ensures Consistent(TurnResult(s, choice, sel).0)
  {
    var s0 := s.(remainingTime := Some(Budget - s.time));
    if s0.locationToMove != [] && !IsAlpha(sel) && DigitsValue(sel) <= |s0.locationToMove| {
      var passage := s0.locationToMove[Pick(DigitsValue(sel), |s0.locationToMove|)];
      PassagesAreDoors(s0.objectInLocation[passage.0].content);
    }
  }

  /** Every turn keeps the monster and passage lists equal to the classification of the current content. */
  lemma TurnKeepsClassified(s: Snapshot, choice: string, sel: string)
    requires Selection(sel) && Consistent(s) && Classified(s)
    ensures Classified(TurnResult(s, choice, sel).0)
  {
  }

  /** Elapsed time never decreases: it only grows by parsed, non-negative costs. */
  lemma TurnTimeGrows(s: Snapshot, choice: string, sel: string)
    requires Selection(sel) && Consistent(s)
    ensures TurnResult(s, choice, sel).0.time >= s.time
    ensures TurnResult(s, choice, sel).0.experience >= s.experience
  {
  }

  /** Over any script of turns, passages stay consistent and time and experience never decrease. */
  lemma {:induction false} PlayMonotone(s: Snapshot, script: seq<(string, string)>)
    requires Consistent(s)
    requires forall j :: 0 <= j < |script| ==> Selection(script[j].1)
    ensures Consistent(Play(s, script).0)
    ensures Play(s, script).0.time >= s.time
    ensures Play(s, script).0.experience >= s.experience
    ensures Classified(s) ==> Classified(Play(s, script).0)
    decreases |script|
  {
    if script != [] {
      var (choice, sel) := script[0];
      TurnKeepsConsistent(s, choice, sel);
      TurnTimeGrows(s, choice, sel);
      if Classified(s) {
        TurnKeepsClassified(s, choice, sel);
      }
      var (s1, o) := TurnResult(s, choice, sel);
      if !Ends(o) {
        PlayMonotone(s1, script[1..]);
      }
    }
  }

  /** A script that starts with the budget spent ends at once on TimeUp. */
  lemma SpentBudgetEndsPlay(s: Snapshot, script: seq<(string, string)>)
    requires Consistent(s) && s.time >= Budget && script != []
    requires forall j :: 0 <= j < |script| ==> Selection(script[j].1)
    ensures Play(s, script) == (s.(remainingTime := Some(Budget - s.time)), Some(TimeUp))
  {
  }
}
