/** The single-game Match of ipx1/roundRobin/models.py and its
    process_match_results, which records how the game was won and applies the
    result to both players' counters. */
module SingleMatch {
  import opened Options
  import opened Stats

  /** The storage steps of the processing, in the order they run: saving the win
      condition, the winner's update and the loser's update. */
  datatype Step = SaveWinCondition | WinnerUpdate | LoserUpdate

  /** Whether, and at which step, the storage fails. A failing player update is
      rolled back by its own transaction; the steps before it stay applied and the
      steps after it do not run. */
  datatype Fault = NoFault | FailAt(step: Step)

  predicate FailsAt(fault: Fault, step: Step)
  {
    fault.FailAt? && fault.step == step
  }

  /** The player table after the processing of a decided game has run up to the
      failing step, if any: both results without a fault, the winner's alone when
      the loser's update fails, and none when an earlier step fails. */
  function AfterProcessing(ps: map<PlayerId, Player>, winner: PlayerId, sides: Sides, duration: Duration,
                           fault: Fault): (r: map<PlayerId, Player>)
    requires winner in ps && sides.loser in ps
    ensures r.Keys == ps.Keys
  {
    match fault
    case NoFault => ApplyOutcome(ps, winner, sides.loser, duration, sides.winnerFarm, sides.loserFarm)
    case FailAt(LoserUpdate) => ps[winner := AfterResult(ps[winner], duration, true, sides.winnerFarm)]
    case FailAt(_) => ps
  }

  /** What each outcome leaves behind, for a winner distinct from the loser: a
      complete processing moves both players by exactly one game; a failure of the
      loser's update credits the winner a win that no player's loss balances; an
      earlier failure changes nobody. Players outside the game never change. */
  lemma FaultEffects(ps: map<PlayerId, Player>, winner: PlayerId, sides: Sides, duration: Duration, fault: Fault)
    requires winner in ps && sides.loser in ps && winner != sides.loser
    ensures var r := AfterProcessing(ps, winner, sides, duration, fault);
      && (forall q :: q in ps && q != winner && q != sides.loser ==> r[q] == ps[q])
      && (fault.NoFault? ==>
            && r[winner] == AfterResult(ps[winner], duration, true, sides.winnerFarm)
            && r[sides.loser] == AfterResult(ps[sides.loser], duration, false, sides.loserFarm))
      && (FailsAt(fault, LoserUpdate) ==>
            && r[winner].wins == ps[winner].wins + 1 && r[winner].losses == ps[winner].losses
            && r[sides.loser] == ps[sides.loser])
      && (fault.FailAt? && fault.step != LoserUpdate ==> r == ps)
  {
  }

  /** A game between two players. The duration is not nullable here. */
  class Match {
    var player1: PlayerId
    var player2: PlayerId
    var winCondition: Option<WinCondition>
    var winner: Option<PlayerId>
    var duration: Duration
    var player1Farm: int
    var player2Farm: int

    /** A match as entered, with no win condition recorded yet. */
    constructor (player1: PlayerId, player2: PlayerId, winner: Option<PlayerId>, duration: Duration,
                 player1Farm: int, player2Farm: int)
      ensures this.player1 == player1 && this.player2 == player2 && this.winner == winner
      ensures this.duration == duration
      ensures this.player1Farm == player1Farm && this.player2Farm == player2Farm
      ensures winCondition.None?
    {
      this.player1 := player1;
      this.player2 := player2;
      this.winner := winner;
      this.duration := duration;
      this.player1Farm := player1Farm;
      this.player2Farm := player2Farm;
      winCondition := None;
    }

    /** The loser and the farm of each side for the recorded winner. */
    function SplitOfWinner(): Sides
      reads this
      requires winner.Some?
    {
      SplitSides(winner.value, player1, player2, player1Farm, player2Farm)
    }

    /** process_match_results. Without a winner nothing happens. Otherwise the win
        condition is set from the duration, then the winner's and the loser's
        results are applied; `failed` reports a storage failure, after which the
        remaining steps do not run. */
    method ProcessMatchResults(table: PlayerTable, fault: Fault) returns (failed: bool)
      requires winner.Some? ==> winner.value in table.players
      requires player1 in table.players && player2 in table.players
      modifies this, table
      ensures player1 == old(player1) && player2 == old(player2) && winner == old(winner)
      ensures duration == old(duration) && player1Farm == old(player1Farm) && player2Farm == old(player2Farm)
      ensures failed <==> winner.Some? && fault.FailAt?
      ensures winner.None? ==> winCondition == old(winCondition) && table.players == old(table.players)
      ensures winner.Some? ==> winCondition == Some(Classify(duration))
      ensures winner.Some? ==>
        table.players == AfterProcessing(old(table.players), winner.value, SplitOfWinner(), duration, fault)
    {
      if winner.None? {
        return false;
      }
      var loser := if winner.value == player1 then player2 else player1;
      var winnerFarm := if winner.value == player1 then player1Farm else player2Farm;
      var loserFarm := if winner.value == player1 then player2Farm else player1Farm;
      if duration >= MatchFarmLimit {
        winCondition := Some(Farm);
      } else {
        winCondition := Some(FirstBlood);
      }
      if FailsAt(fault, SaveWinCondition) {
        return true;
      }
      if FailsAt(fault, WinnerUpdate) {
        return true;
      }
      table.AddMatchResult(winner.value, duration, true, winnerFarm);
      if FailsAt(fault, LoserUpdate) {
        return true;
      }
      table.AddMatchResult(loser, duration, false, loserFarm);
      return false;
    }
  }

  /** A completed processing gives the winner exactly one win-side result and the
      loser exactly one loss-side result, both with the game's duration; with two
      distinct players and a winner among them, the loser is the other player and
      each takes the farm of their own side. */
  lemma ProcessedOutcome(ps: map<PlayerId, Player>, winner: PlayerId, player1: PlayerId, player2: PlayerId,
                         duration: Duration, player1Farm: int, player2Farm: int)
    requires player1 in ps && player2 in ps && player1 != player2
    requires winner == player1 || winner == player2
    ensures var s := SplitSides(winner, player1, player2, player1Farm, player2Farm);
      var r := ApplyOutcome(ps, winner, s.loser, duration, s.winnerFarm, s.loserFarm);
      var loser := if winner == player1 then player2 else player1;
      && s.loser == loser
      && r[winner] == AfterResult(ps[winner], duration, true, if winner == player1 then player1Farm else player2Farm)
      && r[loser] == AfterResult(ps[loser], duration, false, if winner == player1 then player2Farm else player1Farm)
      && forall q :: q in ps && q != player1 && q != player2 ==> r[q] == ps[q]
  {
    SidesOfParticipant(winner, player1, player2, player1Farm, player2Farm);
  }

  /** One complete processing between the players with keys 1 and 2. */
  lemma OutcomeOfTwo(a: Player, b: Player, winner: PlayerId, sides: Sides, duration: Duration)
    requires (winner == 1 && sides.loser == 2) || (winner == 2 && sides.loser == 1)
    ensures AfterProcessing(map[1 := a, 2 := b], winner, sides, duration, NoFault) ==
      if winner == 1 then
        map[1 := AfterResult(a, duration, true, sides.winnerFarm), 2 := AfterResult(b, duration, false, sides.loserFarm)]
      else
        map[1 := AfterResult(a, duration, false, sides.loserFarm), 2 := AfterResult(b, duration, true, sides.winnerFarm)]
  {
  }

  /** A's record through the full test: a quick win, a slow loss, a slow win with
      player2's farm. */
  lemma FullTestRecordA(nameA: string)
    ensures var a1 := AfterResult(NewPlayer(nameA), 10 * Minute, true, 50);
      var a2 := AfterResult(a1, 15 * Minute, false, 100);
      && a1 == Player(nameA, 1, 0, 1, 0, 50, 1, 0, 10 * Minute)
      && a2 == Player(nameA, 1, 1, 1, 0, 150, 1, 0, 10 * Minute)
      && AfterResult(a2, 20 * Minute, true, 200) == Player(nameA, 2, 1, 1, 1, 350, 1, 0, 30 * Minute)
  {
  }

  /** B's record through the full test: a quick loss, a slow win, a slow loss with
      player1's farm. */
  lemma FullTestRecordB(nameB: string)
    ensures var b1 := AfterResult(NewPlayer(nameB), 10 * Minute, false, 30);
      var b2 := AfterResult(b1, 15 * Minute, true, 150);
      && b1 == Player(nameB, 0, 1, 0, 0, 30, 0, 1, 0)
      && b2 == Player(nameB, 1, 1, 0, 1, 180, 0, 1, 15 * Minute)
      && AfterResult(b2, 20 * Minute, false, 130) == Player(nameB, 1, 2, 0, 1, 310, 0, 1, 15 * Minute)
  {
  }

  /** Match.objects.create followed by process_match_results, for a decided game. */
  method CreateAndProcess(table: PlayerTable, player1: PlayerId, player2: PlayerId, winner: PlayerId,
                          duration: Duration, player1Farm: int, player2Farm: int)
    returns (condition: Option<WinCondition>)
    requires player1 in table.players && player2 in table.players && winner in table.players
    modifies table
    ensures condition == Some(Classify(duration))
    ensures table.players == AfterProcessing(old(table.players), winner,
      SplitSides(winner, player1, player2, player1Farm, player2Farm), duration, NoFault)
  {
    var m := new Match(player1, player2, Some(winner), duration, player1Farm, player2Farm);
    var failed := m.ProcessMatchResults(table, NoFault);
    condition := m.winCondition;
  }

  /** The full-test command: three games between players A (key 1) and B (key 2),
      each created and then processed. A wins a ten-minute game 50 to 30, B wins a
      fifteen-minute game, and A, entered as player 2, wins a twenty-minute game. */
  method FullTestScenario(nameA: string, nameB: string) returns (a1: Player, b1: Player, a2: Player, b2: Player, a3: Player, b3: Player,
                                     conditions: seq<Option<WinCondition>>)
    ensures a1.wins == 1 && a1.firstBloodWins == 1 && a1.totalKills == 1 && a1.totalFarm == 50
    ensures b1.losses == 1 && b1.totalDeaths == 1 && b1.totalFarm == 30
    ensures a2.losses == 1 && a2.totalDeaths == 0
    ensures b2.wins == 1 && b2.farmWins == 1 && b2.totalKills == 0
    ensures a3.wins == 2 && a3.farmWins == 1 && a3.totalFarm == 50 + 100 + 200
    ensures b3.losses == 2 && b3.totalDeaths == 1 && b3.totalFarm == 30 + 150 + 130
    ensures conditions == [Some(FirstBlood), Some(Farm), Some(Farm)]
  {
    FullTestRecordA(nameA);
    FullTestRecordB(nameB);
    var a0, b0 := NewPlayer(nameA), NewPlayer(nameB);
    var table := new PlayerTable(map[1 := a0, 2 := b0]);
    var c1 := CreateAndProcess(table, 1, 2, 1, 10 * Minute, 50, 30);
    OutcomeOfTwo(a0, b0, 1, SplitSides(1, 1, 2, 50, 30), 10 * Minute);
    a1, b1 := table.players[1], table.players[2];
    var c2 := CreateAndProcess(table, 1, 2, 2, 15 * Minute, 100, 150);
    OutcomeOfTwo(a1, b1, 2, SplitSides(2, 1, 2, 100, 150), 15 * Minute);
    a2, b2 := table.players[1], table.players[2];
    var c3 := CreateAndProcess(table, 2, 1, 1, 20 * Minute, 130, 200);
    OutcomeOfTwo(a2, b2, 1, SplitSides(1, 2, 1, 130, 200), 20 * Minute);
    a3, b3 := table.players[1], table.players[2];
    conditions := [c1, c2, c3];
  }

  /** The player-test command: four results applied to one fresh player. */
  method PlayerTestScenario(name: string) returns (p2: Player, p3: Player, p4: Player)
    ensures p2.totalFarm == 170 && AverageWinTime(p2) == 12 * Minute + 30 * MicrosPerSecond
    ensures p2.firstBloodWins == 1 && p2.farmWins == 1 && p2.totalKills == 1
    ensures p3.totalFarm == 200 && p3.totalDeaths == 1 && WinRate(p3) * 3.0 == 200.0
    ensures AverageWinTime(p3) == AverageWinTime(p2)
    ensures p4.totalFarm == 350 && p4.totalDeaths == 1 && WinRate(p4) == 50.0
    ensures AverageWinTime(p4) == AverageWinTime(p2)
  {
    var table := new PlayerTable(map[7 := NewPlayer(name)]);
    table.AddMatchResult(7, 10 * Minute, true, 50);
    assert table.players[7] == Player(name, 1, 0, 1, 0, 50, 1, 0, 10 * Minute);
    table.AddMatchResult(7, 15 * Minute, true, 120);
    p2 := table.players[7];
    assert p2 == Player(name, 2, 0, 1, 1, 170, 1, 0, 25 * Minute);
    table.AddMatchResult(7, 5 * Minute, false, 30);
    p3 := table.players[7];
    assert p3 == Player(name, 2, 1, 1, 1, 200, 1, 1, 25 * Minute);
    table.AddMatchResult(7, 20 * Minute, false, 150);
    p4 := table.players[7];
    assert p4 == Player(name, 2, 2, 1, 1, 350, 1, 1, 25 * Minute);
    assert AverageWinTime(p2) == 12 * Minute + 30 * MicrosPerSecond by {
      assert DivideAndRound(25 * Minute, 2) == 750_000_000;
    }
  }
}
