/** The player counters and the statistics derived from them: the Player model of
    roundRobin/models.py. The Player model of ipx1/roundRobin/models.py declares the
    same counters, the same derivations and the same add_match_result, and has no
    series counts; this one module models both. */
module Stats {

  /** A duration in whole microseconds, the resolution of Python's timedelta. */
  type Duration = int

  const MicrosPerSecond: int := 1_000_000

  const Minute: Duration := 60 * MicrosPerSecond

  /** MATCH_FARM_LIMIT: a game of at least twelve minutes is a "farm" game. */
  const MatchFarmLimit: Duration := 12 * 60 * MicrosPerSecond

  /** A player's primary key. */
  type PlayerId = nat

  datatype WinCondition = FirstBlood | Farm

  /** The win condition a game of the given duration is recorded with. */
  function Classify(duration: Duration): (c: WinCondition)
    ensures c == Farm <==> duration >= MatchFarmLimit
    ensures c == FirstBlood <==> duration < MatchFarmLimit
  {
    if duration >= MatchFarmLimit then Farm else FirstBlood
  }

  /** One row of the player table. The counters that count games are taken as
      natural numbers: they start at zero and add_match_result only increments
      them (counters edited by hand in the player editor are not modelled). The
      farm and the win time add caller-supplied values. */
  datatype Player = Player(
    username: string,
    wins: nat,
    losses: nat,
    firstBloodWins: nat,
    farmWins: nat,
    totalFarm: int,
    totalKills: nat,
    totalDeaths: nat,
    totalWinTime: Duration)

  /** A freshly created player: every counter at its default of zero. */
  function NewPlayer(username: string): (p: Player)
    ensures p.username == username
    ensures MatchesPlayed(p) == 0 && Consistent(p)
  {
    Player(username, 0, 0, 0, 0, 0, 0, 0, 0)
  }

  /** The relations between the counters that hold from the all-zero defaults on:
      every win is either a first-blood win or a farm win, a kill is counted for
      every first-blood win, and a death only for some of the losses. */
  predicate Consistent(p: Player)
  {
    && p.firstBloodWins + p.farmWins == p.wins
    && p.totalKills == p.firstBloodWins
    && p.totalDeaths <= p.losses
  }

  /** total_matches_played */
  function MatchesPlayed(p: Player): (n: nat)
    ensures p.wins <= n && p.losses <= n
    ensures n == 0 <==> p.wins == 0 && p.losses == 0
  {
    p.wins + p.losses
  }

  /** kill_death_balance: for consistent counters it lies between minus the
      losses and the wins. */
  function KillDeathBalance(p: Player): (balance: int)
    ensures Consistent(p) ==> -(p.losses as int) <= balance <= p.wins
    ensures balance > 0 <==> p.totalKills > p.totalDeaths
  {
    p.totalKills - p.totalDeaths
  }

  /** `timedelta / int` for a positive divisor: the quotient of the microsecond
      counts, rounded to the nearest integer with ties going to the even one. */
  function DivideAndRound(a: int, b: int): (q: int)
    requires b > 0
    ensures -b <= 2 * (a - q * b) <= b
    ensures 2 * (a - q * b) == b || 2 * (a - q * b) == -b ==> q % 2 == 0
  {
    var q0, r := a / b, a % b;
    assert a - q0 * b == r;
    assert a - (q0 + 1) * b == r - b;
    if 2 * r > b || (2 * r == b && q0 % 2 == 1) then q0 + 1 else q0
  }

  /** average_win_time: zero without wins, otherwise the total win time divided
      by the number of wins, to the nearest microsecond. */
  function AverageWinTime(p: Player): (average: Duration)
    ensures p.wins == 0 ==> average == 0
    ensures p.wins > 0 ==> -(p.wins as int) <= 2 * (p.totalWinTime - average * p.wins) <= p.wins
    ensures p.totalWinTime >= 0 ==> average >= 0
  {
    if p.wins == 0 then 0 else DivideAndRound(p.totalWinTime, p.wins)
  }

  /** winrate, as an exact ratio: the percentage of played matches that were won,
      zero when none were played. */
  function WinRate(p: Player): (rate: real)
    ensures 0.0 <= rate <= 100.0
    ensures rate == 0.0 <==> p.wins == 0
    ensures rate == 100.0 <==> p.wins > 0 && p.losses == 0
    ensures MatchesPlayed(p) > 0 ==> rate * (MatchesPlayed(p) as real) == 100.0 * (p.wins as real)
  {
    var total := MatchesPlayed(p);
    if total == 0 then 0.0
    else
      var ratio := p.wins as real / total as real;
      RatioBounds(p.wins as real, total as real);
      ratio * 100.0
  }

  /** A part over a positive whole is a ratio in 0..1. */
  lemma RatioBounds(part: real, whole: real)
    requires 0.0 <= part <= whole && whole > 0.0
    ensures 0.0 <= part / whole <= 1.0
    ensures part / whole * whole == part
  {
    var q := part / whole;
    assert q * whole == part;
    assert (q - 1.0) * whole == part - whole;
  }

  /** A new player has a zero win rate, a zero average win time and an even
      kill/death balance. */
  lemma NewPlayerStats(username: string)
    ensures WinRate(NewPlayer(username)) == 0.0
    ensures AverageWinTime(NewPlayer(username)) == 0
    ensures KillDeathBalance(NewPlayer(username)) == 0
  {
  }

  /** The player record after one game result, as add_match_result leaves it. */
  function AfterResult(p: Player, duration: Duration, didWin: bool, farm: int): (r: Player)
    ensures r.username == p.username
    ensures MatchesPlayed(r) == MatchesPlayed(p) + 1
    ensures Consistent(p) ==> Consistent(r)
  {
    if didWin then
      var fast := duration < MatchFarmLimit;
      p.(wins := p.wins + 1,
         totalWinTime := p.totalWinTime + duration,
         farmWins := if fast then p.farmWins else p.farmWins + 1,
         firstBloodWins := if fast then p.firstBloodWins + 1 else p.firstBloodWins,
         totalKills := if fast then p.totalKills + 1 else p.totalKills,
         totalFarm := p.totalFarm + farm)
    else
      p.(losses := p.losses + 1,
         totalFarm := p.totalFarm + farm,
         totalDeaths := if duration < MatchFarmLimit then p.totalDeaths + 1 else p.totalDeaths)
  }

  /** A win: one more win, the duration added to the win time, the farm added, and
      a first-blood win plus a kill or a farm win, as the duration classifies the
      game; the losses and deaths stay. */
  lemma WinEffect(p: Player, duration: Duration, farm: int)
    ensures var r := AfterResult(p, duration, true, farm);
      && r.wins == p.wins + 1
      && r.totalWinTime == p.totalWinTime + duration
      && r.totalFarm == p.totalFarm + farm
      && r.firstBloodWins == p.firstBloodWins + (if Classify(duration) == FirstBlood then 1 else 0)
      && r.totalKills == p.totalKills + (if Classify(duration) == FirstBlood then 1 else 0)
      && r.farmWins == p.farmWins + (if Classify(duration) == Farm then 1 else 0)
      && r.losses == p.losses && r.totalDeaths == p.totalDeaths
  {
  }

  /** A loss: one more loss, the farm added, and a death only when the game was a
      first-blood game; wins, win time, kills and win kinds stay. */
  lemma LossEffect(p: Player, duration: Duration, farm: int)
    ensures var r := AfterResult(p, duration, false, farm);
      && r.losses == p.losses + 1
      && r.totalFarm == p.totalFarm + farm
      && r.totalDeaths == p.totalDeaths + (if Classify(duration) == FirstBlood then 1 else 0)
      && r.wins == p.wins && r.totalWinTime == p.totalWinTime
      && r.firstBloodWins == p.firstBloodWins && r.farmWins == p.farmWins
      && r.totalKills == p.totalKills
  {
  }

  /** The kill/death balance moves by one only in a first-blood game: up for the
      winner, down for the loser. */
  lemma KillDeathBalanceEffect(p: Player, duration: Duration, didWin: bool, farm: int)
    ensures KillDeathBalance(AfterResult(p, duration, didWin, farm)) ==
      KillDeathBalance(p) + (if Classify(duration) == Farm then 0 else if didWin then 1 else -1)
  {
  }

  /** The updates are increments, so two results give the same record in either
      order. */
  lemma ResultsCommute(p: Player, d1: Duration, won1: bool, farm1: int, d2: Duration, won2: bool, farm2: int)
    ensures AfterResult(AfterResult(p, d1, won1, farm1), d2, won2, farm2)
         == AfterResult(AfterResult(p, d2, won2, farm2), d1, won1, farm1)
  {
  }

  /** Who lost, and which farm each side brings, given the recorded winner:
      player1's side when the winner is player1, player2's side otherwise (so a
      winner that is neither player is credited player2's farm and player1 takes
      the loss). */
  datatype Sides = Sides(loser: PlayerId, winnerFarm: int, loserFarm: int)

  function SplitSides(winner: PlayerId, player1: PlayerId, player2: PlayerId, player1Farm: int, player2Farm: int): (s: Sides)
    ensures s.loser == player1 || s.loser == player2
    ensures multiset{s.winnerFarm, s.loserFarm} == multiset{player1Farm, player2Farm}
    ensures winner == player1 ==> s.winnerFarm == player1Farm
    ensures winner != player1 ==> s.winnerFarm == player2Farm
  {
    if winner == player1 then Sides(player2, player1Farm, player2Farm)
    else Sides(player1, player2Farm, player1Farm)
  }

  /** With two distinct players and a winner among them, the loser is the other
      player and each side brings its own farm. */
  lemma SidesOfParticipant(winner: PlayerId, player1: PlayerId, player2: PlayerId, player1Farm: int, player2Farm: int)
    requires player1 != player2 && (winner == player1 || winner == player2)
    ensures var s := SplitSides(winner, player1, player2, player1Farm, player2Farm);
      && s.loser != winner
      && {winner, s.loser} == {player1, player2}
      && s.winnerFarm == (if winner == player1 then player1Farm else player2Farm)
      && s.loserFarm == (if s.loser == player1 then player1Farm else player2Farm)
  {
  }

  /** A winner that is neither player is treated as player2's side. */
  lemma SidesOfOutsider(winner: PlayerId, player1: PlayerId, player2: PlayerId, player1Farm: int, player2Farm: int)
    requires winner != player1 && winner != player2
    ensures SplitSides(winner, player1, player2, player1Farm, player2Farm) == Sides(player1, player2Farm, player1Farm)
  {
  }

  /** One decided game applied to the table: the winner's result, then the
      loser's (the two add_match_result calls, by primary key). */
  function ApplyOutcome(ps: map<PlayerId, Player>, winner: PlayerId, loser: PlayerId,
                        duration: Duration, winnerFarm: int, loserFarm: int): (r: map<PlayerId, Player>)
    requires winner in ps && loser in ps
    ensures r.Keys == ps.Keys
    ensures forall q :: q in ps && q != winner && q != loser ==> r[q] == ps[q]
    ensures forall q :: q in r ==>
      && r[q].wins == ps[q].wins + (if q == winner then 1 else 0)
      && r[q].losses == ps[q].losses + (if q == loser then 1 else 0)
    ensures forall q :: q in ps && Consistent(ps[q]) ==> Consistent(r[q])
  {
    var afterWin := ps[winner := AfterResult(ps[winner], duration, true, winnerFarm)];
    afterWin[loser := AfterResult(afterWin[loser], duration, false, loserFarm)]
  }

  /** The stored counters an update can increment (the keys of update_fields). */
  datatype Counter = Wins | Losses | FirstBloodWins | FarmWins | TotalFarm | TotalKills | TotalDeaths | TotalWinTime

  /** update_fields: the amount to add to each counter it names. */
  type Update = map<Counter, int>

  function Delta(u: Update, c: Counter): int
  {
    if c in u then u[c] else 0
  }

  /** The counters that count games may only be incremented. */
  predicate CountsGrow(u: Update)
  {
    && Delta(u, Wins) >= 0 && Delta(u, Losses) >= 0
    && Delta(u, FirstBloodWins) >= 0 && Delta(u, FarmWins) >= 0
    && Delta(u, TotalKills) >= 0 && Delta(u, TotalDeaths) >= 0
  }

  /** The row after `UPDATE ... SET c = c + delta` for every counter of the update. */
  function Increment(p: Player, u: Update): Player
    requires CountsGrow(u)
  {
    p.(wins := p.wins + Delta(u, Wins),
       losses := p.losses + Delta(u, Losses),
       firstBloodWins := p.firstBloodWins + Delta(u, FirstBloodWins),
       farmWins := p.farmWins + Delta(u, FarmWins),
       totalFarm := p.totalFarm + Delta(u, TotalFarm),
       totalKills := p.totalKills + Delta(u, TotalKills),
       totalDeaths := p.totalDeaths + Delta(u, TotalDeaths),
       totalWinTime := p.totalWinTime + Delta(u, TotalWinTime))
  }

  /** The player table, keyed by primary key. */
  class PlayerTable {

    var players: map<PlayerId, Player>

    constructor (players: map<PlayerId, Player>)
      ensures this.players == players
    {
      this.players := players;
    }

    /** add_match_result: collects the increments of one game result in an
        update, then applies it to the player's row in one statement. */
    method AddMatchResult(id: PlayerId, matchDuration: Duration, didWin: bool, farm: int)
      requires id in players
      modifies this
      ensures players == old(players)[id := AfterResult(old(players)[id], matchDuration, didWin, farm)]
    {
      var updateFields: Update := map[];
      if didWin {
        updateFields := updateFields[Wins := 1];
        updateFields := updateFields[TotalWinTime := matchDuration];
        if matchDuration >= MatchFarmLimit {
          updateFields := updateFields[FarmWins := 1];
        } else {
          updateFields := updateFields[FirstBloodWins := 1];
          updateFields := updateFields[TotalKills := 1];
        }
        updateFields := updateFields[TotalFarm := farm];
      } else {
        updateFields := updateFields[Losses := 1];
        updateFields := updateFields[TotalFarm := farm];
        if matchDuration < MatchFarmLimit {
          updateFields := updateFields[TotalDeaths := 1];
        }
      }
      players := players[id := Increment(players[id], updateFields)];
    }
  }
}
