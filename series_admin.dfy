/** The series processing of roundRobin/admin.py: MatchAdmin.save_related, which
    applies every newly decided game of a best-of-three series to both players'
    counters exactly once and then recomputes the series winner, and
    MatchAdmin.get_readonly_fields. */
module SeriesAdmin {
  import opened Options
  import opened Stats
  import opened Series

  /** A game save_related picks up: it has a winner and was not processed yet. */
  predicate Pending(g: Game)
  {
    g.winner.Some? && !g.isProcessed
  }

  predicate NonePending(games: seq<Game>)
  {
    forall i :: 0 <= i < |games| ==> !Pending(games[i])
  }

  /** What processing needs of the stored rows: every pending game has a duration
      (the column is nullable, but the processing compares it with the farm limit)
      and its winner is a stored player. */
  predicate Processable(games: seq<Game>, ps: map<PlayerId, Player>)
  {
    && Durations(games)
    && forall i :: 0 <= i < |games| && Pending(games[i]) ==> games[i].winner.value in ps
  }

  /** Every pending game has a duration. */
  predicate Durations(games: seq<Game>)
  {
    forall i :: 0 <= i < |games| && Pending(games[i]) ==> games[i].duration.Some?
  }

  /** One game as the processing leaves it. */
  function Settle(g: Game): (r: Game)
    requires Pending(g) ==> g.duration.Some?
    ensures !Pending(r)
    ensures r.winner == g.winner && r.gameNumber == g.gameNumber && r.duration == g.duration
    ensures r.player1Farm == g.player1Farm && r.player2Farm == g.player2Farm
    ensures Pending(g) ==> r.isProcessed && r.winCondition == Some(Classify(g.duration.value))
    ensures !Pending(g) ==> r == g
  {
    if Pending(g) then g.(winCondition := Some(Classify(g.duration.value)), isProcessed := true) else g
  }

  /** The games after processing: each pending game has its win condition recorded
      from its duration and is marked processed; the other games are untouched and
      no game keeps or changes its winner, number, duration or farms. */
  function SettleAll(games: seq<Game>): (r: seq<Game>)
    requires Durations(games)
    ensures |r| == |games| && NonePending(r)
    ensures forall i :: 0 <= i < |games| ==>
      && r[i].winner == games[i].winner && r[i].gameNumber == games[i].gameNumber
      && r[i].duration == games[i].duration
      && r[i].player1Farm == games[i].player1Farm && r[i].player2Farm == games[i].player2Farm
    ensures forall i :: 0 <= i < |games| && Pending(games[i]) ==>
      r[i].isProcessed && r[i].winCondition == Some(Classify(games[i].duration.value))
    ensures forall i :: 0 <= i < |games| && !Pending(games[i]) ==> r[i] == games[i]
    decreases |games|
  {
    if games == [] then []
    else SettleAll(games[..|games| - 1]) + [Settle(games[|games| - 1])]
  }

  /** One pending game applied to the player table: the winner's result with the
      farm of the winner's side, then the loser's with the other side's farm. */
  function ApplyGame(ps: map<PlayerId, Player>, g: Game, player1: PlayerId, player2: PlayerId): (r: map<PlayerId, Player>)
    requires Pending(g) && g.duration.Some? && g.winner.value in ps
    requires player1 in ps && player2 in ps
  {
    var sides := SplitSides(g.winner.value, player1, player2, g.player1Farm, g.player2Farm);
    ApplyOutcome(ps, g.winner.value, sides.loser, g.duration.value, sides.winnerFarm, sides.loserFarm)
  }

  /** The player table after every pending game, in order, has been applied. */
  function ApplyPending(ps: map<PlayerId, Player>, games: seq<Game>, player1: PlayerId, player2: PlayerId): (r: map<PlayerId, Player>)
    requires player1 in ps && player2 in ps && Processable(games, ps)
    ensures r.Keys == ps.Keys
    decreases |games|
  {
    if games == [] then ps
    else
      var before := ApplyPending(ps, games[..|games| - 1], player1, player2);
      var g := games[|games| - 1];
      if Pending(g) then ApplyGame(before, g, player1, player2) else before
  }

  /** Settling one more game of the series extends the settled prefix by it. */
  lemma SettleNext(games: seq<Game>, i: int, current: seq<Game>)
    requires Durations(games) && 0 <= i < |games|
    requires current == SettleAll(games[..i]) + games[i..]
    ensures Durations(games[..i + 1])
    ensures current[i := Settle(games[i])] == SettleAll(games[..i + 1]) + games[i + 1..]
    ensures !Pending(games[i]) ==> current == SettleAll(games[..i + 1]) + games[i + 1..]
  {
    assert games[..i + 1][..i] == games[..i];
  }

  /** Applying one more game of the series extends the applied prefix by it. */
  lemma ApplyNext(ps: map<PlayerId, Player>, games: seq<Game>, i: int, player1: PlayerId, player2: PlayerId)
    requires player1 in ps && player2 in ps && Processable(games, ps) && 0 <= i < |games|
    ensures Processable(games[..i], ps) && Processable(games[..i + 1], ps)
    ensures ApplyPending(ps, games[..i + 1], player1, player2)
      == if Pending(games[i]) then ApplyGame(ApplyPending(ps, games[..i], player1, player2), games[i], player1, player2)
         else ApplyPending(ps, games[..i], player1, player2)
  {
    assert games[..i + 1][..i] == games[..i];
  }

  /** Applying a list with one more game at its end applies that game last. */
  lemma ApplyPendingSnoc(ps: map<PlayerId, Player>, init: seq<Game>, g: Game, player1: PlayerId, player2: PlayerId)
    requires player1 in ps && player2 in ps && Processable(init + [g], ps)
    ensures Processable(init, ps)
    ensures Pending(g) ==> g.duration.Some? && g.winner.value in ps
    ensures ApplyPending(ps, init + [g], player1, player2)
      == if Pending(g) then ApplyGame(ApplyPending(ps, init, player1, player2), g, player1, player2)
         else ApplyPending(ps, init, player1, player2)
  {
    var gs := init + [g];
    assert gs[..|gs| - 1] == init && gs[|gs| - 1] == g;
    assert forall i :: 0 <= i < |init| ==> init[i] == gs[i];
  }

  /** The number of pending games the player wins. */
  function PendingWins(games: seq<Game>, q: PlayerId): nat
    decreases |games|
  {
    if games == [] then 0
    else
      var g := games[|games| - 1];
      PendingWins(games[..|games| - 1], q) + (if Pending(g) && g.winner.value == q then 1 else 0)
  }

  /** The number of pending games the player loses. */
  function PendingLosses(games: seq<Game>, q: PlayerId, player1: PlayerId, player2: PlayerId): nat
    decreases |games|
  {
    if games == [] then 0
    else
      var g := games[|games| - 1];
      PendingLosses(games[..|games| - 1], q, player1, player2)
        + (if Pending(g) && SplitSides(g.winner.value, player1, player2, g.player1Farm, g.player2Farm).loser == q then 1 else 0)
  }

  /** The number of games of the series the player won (processed or not). */
  function GameWins(games: seq<Game>, q: PlayerId): (n: nat)
    ensures n <= |games|
    decreases |games|
  {
    if games == [] then 0
    else GameWins(games[..|games| - 1], q) + (if games[|games| - 1].winner == Some(q) then 1 else 0)
  }

  /** The series winner rule: player1 with two game wins, else player2 with two,
      else nobody. */
  function SeriesWinner(games: seq<Game>, player1: PlayerId, player2: PlayerId): (w: Option<PlayerId>)
    ensures w.Some? ==> (w.value == player1 || w.value == player2) && GameWins(games, w.value) >= 2
    ensures w.None? ==> GameWins(games, player1) < 2 && GameWins(games, player2) < 2
    ensures w == Some(player2) && player1 != player2 ==> GameWins(games, player1) < 2
  {
    if GameWins(games, player1) >= 2 then Some(player1)
    else if GameWins(games, player2) >= 2 then Some(player2)
    else None
  }

  /** The body of the processing loop for one pending game: record its win
      condition, apply the result to the winner and then to the loser, and mark
      it processed. */
  method ProcessGame(obj: Match, table: PlayerTable, i: int)
    requires 0 <= i < |obj.games| && Pending(obj.games[i])
    requires obj.games[i].duration.Some? && obj.games[i].winner.value in table.players
    requires obj.player1 in table.players && obj.player2 in table.players
    modifies obj, table
    ensures obj.status == old(obj.status) && obj.roundNumber == old(obj.roundNumber)
    ensures obj.player1 == old(obj.player1) && obj.player2 == old(obj.player2)
    ensures obj.scheduledTime == old(obj.scheduledTime) && obj.seriesWinner == old(obj.seriesWinner)
    ensures obj.games == old(obj.games)[i := Settle(old(obj.games[i]))]
    ensures table.players == ApplyGame(old(table.players), old(obj.games[i]), obj.player1, obj.player2)
  {
    var game := obj.games[i];
    var winner := game.winner.value;
    var duration := game.duration.value;
    var sides := SplitSides(winner, obj.player1, obj.player2, game.player1Farm, game.player2Farm);
    if duration >= MatchFarmLimit {
      game := game.(winCondition := Some(Farm));
    } else {
      game := game.(winCondition := Some(FirstBlood));
    }
    table.AddMatchResult(winner, duration, true, sides.winnerFarm);
    table.AddMatchResult(sides.loser, duration, false, sides.loserFarm);
    game := game.(isProcessed := true);
    obj.games := obj.games[i := game];
  }

  /** The processing loop: every pending game, in order. */
  method ProcessAll(obj: Match, table: PlayerTable)
    requires obj.player1 in table.players && obj.player2 in table.players
    requires Processable(obj.games, table.players)
    modifies obj, table
    ensures obj.status == old(obj.status) && obj.roundNumber == old(obj.roundNumber)
    ensures obj.player1 == old(obj.player1) && obj.player2 == old(obj.player2)
    ensures obj.scheduledTime == old(obj.scheduledTime) && obj.seriesWinner == old(obj.seriesWinner)
    ensures obj.games == SettleAll(old(obj.games))
    ensures table.players == ApplyPending(old(table.players), old(obj.games), obj.player1, obj.player2)
  {
    ghost var games0, players0 := obj.games, table.players;
    var i := 0;
    while i < |obj.games|
      invariant 0 <= i <= |obj.games| == |games0|
      invariant obj.status == old(obj.status) && obj.roundNumber == old(obj.roundNumber)
      invariant obj.player1 == old(obj.player1) && obj.player2 == old(obj.player2)
      invariant obj.scheduledTime == old(obj.scheduledTime)
      invariant obj.seriesWinner == old(obj.seriesWinner)
      invariant Durations(games0[..i]) && Processable(games0[..i], players0)
      invariant obj.games == SettleAll(games0[..i]) + games0[i..]
      invariant table.players == ApplyPending(players0, games0[..i], obj.player1, obj.player2)
    {
      SettleNext(games0, i, obj.games);
      ApplyNext(players0, games0, i, obj.player1, obj.player2);
      if obj.games[i].winner.Some? && !obj.games[i].isProcessed {
        ProcessGame(obj, table, i);
      }
      i := i + 1;
    }
    assert games0[..|games0|] == games0;
  }

  /** save_related. Returns at once unless the series is completed, and for a
      newly created series also when no game is pending; otherwise applies every
      pending game to both players, marks it processed, and sets the series winner
      from the game wins of all games. */
  method SaveRelated(obj: Match, table: PlayerTable, change: bool)
    requires obj.player1 in table.players && obj.player2 in table.players
    requires obj.status == Completed ==> Processable(obj.games, table.players)
    modifies obj, table
    ensures obj.status == old(obj.status) && obj.roundNumber == old(obj.roundNumber)
    ensures obj.player1 == old(obj.player1) && obj.player2 == old(obj.player2)
    ensures obj.scheduledTime == old(obj.scheduledTime)
    ensures if old(obj.status) != Completed || (!change && NonePending(old(obj.games))) then
        && obj.games == old(obj.games) && obj.seriesWinner == old(obj.seriesWinner)
        && table.players == old(table.players)
      else
        && obj.games == SettleAll(old(obj.games))
        && table.players == ApplyPending(old(table.players), old(obj.games), obj.player1, obj.player2)
        && obj.seriesWinner == SeriesWinner(obj.games, obj.player1, obj.player2)
  {
    if obj.status != Completed {
      return;
    }
    var anyPending := exists i :: 0 <= i < |obj.games| && Pending(obj.games[i]);
    if !anyPending && !change {
      return;
    }
    ProcessAll(obj, table);
    var p1Wins := GameWins(obj.games, obj.player1);
    var p2Wins := GameWins(obj.games, obj.player2);
    if p1Wins >= 2 {
      obj.seriesWinner := Some(obj.player1);
    } else if p2Wins >= 2 {
      obj.seriesWinner := Some(obj.player2);
    } else {
      obj.seriesWinner := None;
    }
  }

  // ---- what the processing guarantees ----

  /** Every pending game was won by one of the two players of the series. */
  predicate WinnersPlay(games: seq<Game>, player1: PlayerId, player2: PlayerId)
  {
    forall i :: 0 <= i < |games| && Pending(games[i]) ==>
      games[i].winner.value == player1 || games[i].winner.value == player2
  }

  /** Each player ends with one more win per pending game they won and one more
      loss per pending game they lost. */
  lemma {:induction false} ApplyPendingTally(ps: map<PlayerId, Player>, games: seq<Game>, player1: PlayerId, player2: PlayerId)
    requires player1 in ps && player2 in ps && Processable(games, ps)
    ensures forall q :: q in ps ==>
      && ApplyPending(ps, games, player1, player2)[q].wins == ps[q].wins + PendingWins(games, q)
      && ApplyPending(ps, games, player1, player2)[q].losses == ps[q].losses + PendingLosses(games, q, player1, player2)
    decreases |games|
  {
    if games != [] {
      var init, g := games[..|games| - 1], games[|games| - 1];
      assert games == init + [g];
      ApplyPendingSnoc(ps, init, g, player1, player2);
      ApplyPendingTally(ps, init, player1, player2);
      if Pending(g) {
        var before := ApplyPending(ps, init, player1, player2);
        var sides := SplitSides(g.winner.value, player1, player2, g.player1Farm, g.player2Farm);
        assert ApplyPending(ps, games, player1, player2)
          == ApplyOutcome(before, g.winner.value, sides.loser, g.duration.value, sides.winnerFarm, sides.loserFarm);
      }
    }
  }

  /** The processing keeps every player record consistent, and when every pending
      game was won by one of the two players nobody else's record changes. */
  lemma {:induction false} ApplyPendingFrame(ps: map<PlayerId, Player>, games: seq<Game>, player1: PlayerId, player2: PlayerId)
    requires player1 in ps && player2 in ps && Processable(games, ps)
    ensures forall q :: q in ps && Consistent(ps[q]) ==> Consistent(ApplyPending(ps, games, player1, player2)[q])
    ensures WinnersPlay(games, player1, player2) ==>
      forall q :: q in ps && q != player1 && q != player2 ==> ApplyPending(ps, games, player1, player2)[q] == ps[q]
    decreases |games|
  {
    if games != [] {
      var init, g := games[..|games| - 1], games[|games| - 1];
      assert games == init + [g];
      ApplyPendingSnoc(ps, init, g, player1, player2);
      ApplyPendingFrame(ps, init, player1, player2);
      if WinnersPlay(games, player1, player2) {
        assert WinnersPlay(init, player1, player2) by {
          forall i | 0 <= i < |init| && Pending(init[i])
            ensures init[i].winner.value == player1 || init[i].winner.value == player2
          {
            assert init[i] == games[i];
          }
        }
      }
    }
  }

  /** Without pending games the processing changes neither the games nor any
      player. */
  lemma {:induction false} NothingPendingNothingChanges(ps: map<PlayerId, Player>, games: seq<Game>, player1: PlayerId, player2: PlayerId)
    requires player1 in ps && player2 in ps && NonePending(games)
    ensures SettleAll(games) == games
    ensures ApplyPending(ps, games, player1, player2) == ps
    decreases |games|
  {
    if games != [] {
      var init := games[..|games| - 1];
      assert NonePending(init) by {
        forall i | 0 <= i < |init|
          ensures !Pending(init[i])
        {
          assert init[i] == games[i];
        }
      }
      NothingPendingNothingChanges(ps, init, player1, player2);
      assert games == init + [games[|games| - 1]];
    }
  }

  /** Every game is counted once: processing the settled games a second time
      settles nothing further and changes no player. */
  lemma ProcessedOnce(ps: map<PlayerId, Player>, games: seq<Game>, player1: PlayerId, player2: PlayerId)
    requires player1 in ps && player2 in ps && Durations(games)
    ensures SettleAll(SettleAll(games)) == SettleAll(games)
    ensures ApplyPending(ps, SettleAll(games), player1, player2) == ps
  {
    NothingPendingNothingChanges(ps, SettleAll(games), player1, player2);
  }

  /** Game wins depend on the winners alone. */
  lemma {:induction false} SameWinnersSameWins(a: seq<Game>, b: seq<Game>, q: PlayerId)
    requires |a| == |b| && forall i :: 0 <= i < |a| ==> a[i].winner == b[i].winner
    ensures GameWins(a, q) == GameWins(b, q)
    decreases |a|
  {
    if a != [] {
      var n := |a| - 1;
      assert forall i :: 0 <= i < n ==> a[..n][i] == a[i] && b[..n][i] == b[i];
      SameWinnersSameWins(a[..n], b[..n], q);
    }
  }

  /** Processing keeps the game winners, so the series winner is decided the same
      on the settled games as on the games as entered. */
  lemma SettleKeepsWinner(games: seq<Game>, player1: PlayerId, player2: PlayerId)
    requires Durations(games)
    ensures SeriesWinner(SettleAll(games), player1, player2) == SeriesWinner(games, player1, player2)
  {
    SameWinnersSameWins(SettleAll(games), games, player1);
    SameWinnersSameWins(SettleAll(games), games, player2);
  }

  /** A game has one winner, so two distinct players win no more games together
      than there are. */
  lemma {:induction false} GameWinsDisjoint(games: seq<Game>, player1: PlayerId, player2: PlayerId)
    requires player1 != player2
    ensures GameWins(games, player1) + GameWins(games, player2) <= |games|
    decreases |games|
  {
    if games != [] {
      GameWinsDisjoint(games[..|games| - 1], player1, player2);
    }
  }

  /** In a series of at most three numbered games between two players, the series
      winner is player1 exactly when they won two or more games, player2 exactly
      when they did, and nobody exactly when neither did. */
  lemma SeriesWinnerRule(games: seq<Game>, player1: PlayerId, player2: PlayerId)
    requires WellNumbered(games) && player1 != player2
    ensures SeriesWinner(games, player1, player2) == Some(player1) <==> GameWins(games, player1) >= 2
    ensures SeriesWinner(games, player1, player2) == Some(player2) <==> GameWins(games, player2) >= 2
    ensures SeriesWinner(games, player1, player2).None? <==> GameWins(games, player1) < 2 && GameWins(games, player2) < 2
  {
    AtMostThreeGames(games);
    GameWinsDisjoint(games, player1, player2);
  }

  /** The win condition recorded on a game agrees with the win kind credited to its
      winner, and the loser takes a death exactly for a first-blood game. */
  lemma RecordedConditionAgreesWithStats(ps: map<PlayerId, Player>, g: Game, player1: PlayerId, player2: PlayerId)
    requires Pending(g) && g.duration.Some? && g.winner.value in ps
    requires player1 in ps && player2 in ps && player1 != player2
    ensures var r, w := ApplyGame(ps, g, player1, player2), g.winner.value;
      var loser := SplitSides(w, player1, player2, g.player1Farm, g.player2Farm).loser;
      && (Settle(g).winCondition == Some(Farm) <==> r[w].farmWins == ps[w].farmWins + 1)
      && (Settle(g).winCondition == Some(FirstBlood) <==> r[w].firstBloodWins == ps[w].firstBloodWins + 1)
      && (Settle(g).winCondition == Some(FirstBlood) <==> r[loser].totalDeaths == ps[loser].totalDeaths + 1)
  {
    var w, d := g.winner.value, g.duration.value;
    var sides := SplitSides(w, player1, player2, g.player1Farm, g.player2Farm);
    WinEffect(ps[w], d, sides.winnerFarm);
    var afterWin := ps[w := AfterResult(ps[w], d, true, sides.winnerFarm)];
    LossEffect(afterWin[sides.loser], d, sides.loserFarm);
  }

  // ---- get_readonly_fields ----

  /** The read-only fields of the series editor, given the status of the series
      being edited (None while creating one): the schedule, the players and the
      series winner once the series is completed, otherwise the series winner
      alone. */
  function ReadonlyFields(edited: Option<Status>): (fields: seq<string>)
    ensures "series_winner" in fields
    ensures "player1" in fields <==> edited == Some(Completed)
    ensures "player2" in fields <==> edited == Some(Completed)
    ensures "round_number" in fields <==> edited == Some(Completed)
    ensures "scheduled_time" in fields <==> edited == Some(Completed)
    ensures "status" !in fields
  {
    if edited.Some? && edited.value == Completed then
      ["player1", "player2", "round_number", "scheduled_time", "series_winner"]
    else
      ["series_winner"]
  }

  /** get_readonly_fields as written: the completed-status comparison reads
      STATUS_COMPLETED as an attribute of the Match class, which it is not. */
  function ReadonlyFieldsAsWritten(edited: Option<Status>): Lookup<seq<string>>
  {
    if edited.None? then Found(["series_winner"])
    else match MatchClassStatusConstant("STATUS_COMPLETED")
      case AttributeError(name) => AttributeError(name)
      case Found(completed) =>
        Found(if edited.value == completed
          then ["player1", "player2", "round_number", "scheduled_time", "series_winner"]
          else ["series_winner"])
  }

  /** As written, the editor can be opened to create a series, but opening any
      existing series raises; the intended comparison against the module constant
      gives the corrected fields. */
  lemma EditingRaisesAsWritten(edited: Option<Status>)
    ensures ReadonlyFieldsAsWritten(edited).AttributeError? <==> edited.Some?
    ensures edited.None? ==> ReadonlyFieldsAsWritten(edited) == Found(ReadonlyFields(edited))
    ensures StatusConstant("STATUS_COMPLETED") == Some(Completed)
  {
  }

  /** save_related as written: the completed-status guard reads STATUS_COMPLETED as
      an attribute of the Match class and raises AttributeError for every series, so
      the surrounding transaction is rolled back and no game or player changes. */
  method SaveRelatedAsWritten(obj: Match, table: PlayerTable, change: bool) returns (raised: Option<string>)
    ensures raised == Some("STATUS_COMPLETED")
  {
    match MatchClassStatusConstant("STATUS_COMPLETED")
    case AttributeError(name) =>
      raised := Some(name);
    case Found(_) =>
      raised := None;
  }

  // ---- a series played out ----

  /** The games of a best-of-three between A (key 1) and B (key 2): A wins a
      ten-minute first game, B a fifteen-minute second game and A a twenty-minute
      third game. */
  function BestOfThreeGames(): seq<Game>
  {
    [NewGame(1, Some(1), Some(10 * Minute), 40, 20),
     NewGame(2, Some(2), Some(15 * Minute), 90, 120),
     NewGame(3, Some(1), Some(20 * Minute), 150, 100)]
  }

  /** Three pending games are applied one after the other, in order. */
  lemma ThreeInOrder(ps: map<PlayerId, Player>, g0: Game, g1: Game, g2: Game, player1: PlayerId, player2: PlayerId)
    requires player1 in ps && player2 in ps && Processable([g0, g1, g2], ps)
    requires Pending(g0) && Pending(g1) && Pending(g2)
    ensures g0.duration.Some? && g0.winner.value in ps
    ensures g1.duration.Some? && g1.winner.value in ps
    ensures g2.duration.Some? && g2.winner.value in ps
    ensures ApplyPending(ps, [g0, g1, g2], player1, player2) ==
      ApplyGame(ApplyGame(ApplyGame(ps, g0, player1, player2), g1, player1, player2), g2, player1, player2)
  {
    assert [g0, g1, g2] == [g0, g1] + [g2];
    ApplyPendingSnoc(ps, [g0, g1], g2, player1, player2);
    assert [g0, g1] == [g0] + [g1];
    ApplyPendingSnoc(ps, [g0], g1, player1, player2);
    assert [g0] == [] + [g0];
    ApplyPendingSnoc(ps, [], g0, player1, player2);
  }

  /** One pending game between the players with keys 1 and 2. */
  lemma TwoPlayerGame(a: Player, b: Player, g: Game)
    requires Pending(g) && g.duration.Some? && (g.winner.value == 1 || g.winner.value == 2)
    ensures ApplyGame(map[1 := a, 2 := b], g, 1, 2) ==
      if g.winner.value == 1 then
        map[1 := AfterResult(a, g.duration.value, true, g.player1Farm),
            2 := AfterResult(b, g.duration.value, false, g.player2Farm)]
      else
        map[1 := AfterResult(a, g.duration.value, false, g.player1Farm),
            2 := AfterResult(b, g.duration.value, true, g.player2Farm)]
  {
  }

  /** The first game: A wins in ten minutes. */
  lemma BestOfThreeFirst(a: Player, b: Player)
    ensures ApplyGame(map[1 := a, 2 := b], BestOfThreeGames()[0], 1, 2)
      == map[1 := AfterResult(a, 10 * Minute, true, 40), 2 := AfterResult(b, 10 * Minute, false, 20)]
  {
    TwoPlayerGame(a, b, BestOfThreeGames()[0]);
  }

  /** The second game: B wins in fifteen minutes. */
  lemma BestOfThreeSecond(a: Player, b: Player)
    ensures ApplyGame(map[1 := a, 2 := b], BestOfThreeGames()[1], 1, 2)
      == map[1 := AfterResult(a, 15 * Minute, false, 90), 2 := AfterResult(b, 15 * Minute, true, 120)]
  {
    TwoPlayerGame(a, b, BestOfThreeGames()[1]);
  }

  /** The third game: A wins in twenty minutes. */
  lemma BestOfThreeThird(a: Player, b: Player)
    ensures ApplyGame(map[1 := a, 2 := b], BestOfThreeGames()[2], 1, 2)
      == map[1 := AfterResult(a, 20 * Minute, true, 150), 2 := AfterResult(b, 20 * Minute, false, 100)]
  {
    TwoPlayerGame(a, b, BestOfThreeGames()[2]);
  }

  /** A's record through the series: a quick win, a slow loss, a slow win. */
  lemma BestOfThreeRecordA(nameA: string)
    ensures AfterResult(AfterResult(AfterResult(NewPlayer(nameA), 10 * Minute, true, 40), 15 * Minute, false, 90),
                        20 * Minute, true, 150)
         == Player(nameA, 2, 1, 1, 1, 40 + 90 + 150, 1, 0, 30 * Minute)
  {
    assert AfterResult(NewPlayer(nameA), 10 * Minute, true, 40) == Player(nameA, 1, 0, 1, 0, 40, 1, 0, 10 * Minute);
  }

  /** B's record through the series: a quick loss, a slow win, a slow loss. */
  lemma BestOfThreeRecordB(nameB: string)
    ensures AfterResult(AfterResult(AfterResult(NewPlayer(nameB), 10 * Minute, false, 20), 15 * Minute, true, 120),
                        20 * Minute, false, 100)
         == Player(nameB, 1, 2, 0, 1, 20 + 120 + 100, 0, 1, 15 * Minute)
  {
    assert AfterResult(NewPlayer(nameB), 10 * Minute, false, 20) == Player(nameB, 0, 1, 0, 0, 20, 0, 1, 0);
  }

  /** Processing those games from fresh players: A ends with two wins (one quick,
      one farm) and one slow loss, B with one farm win and two losses, one of them
      quick. */
  lemma BestOfThreeStats(nameA: string, nameB: string)
    ensures var r := ApplyPending(map[1 := NewPlayer(nameA), 2 := NewPlayer(nameB)], BestOfThreeGames(), 1, 2);
      && r[1] == Player(nameA, 2, 1, 1, 1, 40 + 90 + 150, 1, 0, 30 * Minute)
      && r[2] == Player(nameB, 1, 2, 0, 1, 20 + 120 + 100, 0, 1, 15 * Minute)
  {
    var gs := BestOfThreeGames();
    var a0, b0 := NewPlayer(nameA), NewPlayer(nameB);
    assert gs == [gs[0], gs[1], gs[2]];
    ThreeInOrder(map[1 := a0, 2 := b0], gs[0], gs[1], gs[2], 1, 2);
    var a1, b1 := AfterResult(a0, 10 * Minute, true, 40), AfterResult(b0, 10 * Minute, false, 20);
    BestOfThreeFirst(a0, b0);
    var a2, b2 := AfterResult(a1, 15 * Minute, false, 90), AfterResult(b1, 15 * Minute, true, 120);
    BestOfThreeSecond(a1, b1);
    BestOfThreeThird(a2, b2);
    BestOfThreeRecordA(nameA);
    BestOfThreeRecordB(nameB);
  }

  /** Those games make A the series winner, and processing marks all three. */
  lemma BestOfThreeWinner()
    ensures SeriesWinner(SettleAll(BestOfThreeGames()), 1, 2) == Some(1)
    ensures forall i :: 0 <= i < 3 ==> SettleAll(BestOfThreeGames())[i].isProcessed
  {
    var gs := BestOfThreeGames();
    SettleKeepsWinner(gs, 1, 2);
    assert gs[..2][..1] == gs[..1] && gs[..1][..0] == [];
    assert GameWins(gs[..1], 1) == 1;
    assert GameWins(gs[..2], 1) == 1;
    assert GameWins(gs, 1) == 2;
  }

  /** The series saved as completed: all three games are processed once and A is
      the series winner; saving it again leaves the games, the series winner and
      both players' rows as they were. */
  method BestOfThreeScenario(nameA: string, nameB: string)
    returns (winner: Option<PlayerId>, a: Player, b: Player, games: seq<Game>, processed: seq<bool>,
             againWinner: Option<PlayerId>, againA: Player, againB: Player, againGames: seq<Game>)
    ensures winner == Some(1)
    ensures a.wins == 2 && a.losses == 1 && a.firstBloodWins == 1 && a.farmWins == 1 && a.totalDeaths == 0
    ensures b.wins == 1 && b.losses == 2 && b.farmWins == 1 && b.totalDeaths == 1
    ensures processed == [true, true, true]
    ensures againWinner == winner && againA == a && againB == b && againGames == games
  {
    var table := new PlayerTable(map[1 := NewPlayer(nameA), 2 := NewPlayer(nameB)]);
    var series := new Match(1, 2, 1, None);
    series.status := Completed;
    series.games := BestOfThreeGames();
    SaveRelated(series, table, true);
    BestOfThreeStats(nameA, nameB);
    BestOfThreeWinner();
    winner := series.seriesWinner;
    a, b := table.players[1], table.players[2];
    games := series.games;
    processed := [games[0].isProcessed, games[1].isProcessed, games[2].isProcessed];
    ProcessedOnce(table.players, BestOfThreeGames(), 1, 2);
    SaveRelated(series, table, true);
    againWinner := series.seriesWinner;
    againA, againB := table.players[1], table.players[2];
    againGames := series.games;
  }
}
