/** The best-of-three records of roundRobin/models.py: a Match (a series between
    two players, made of up to three Games), its status constants, and the series
    counts the Player model derives from the matches. */
module Series {
  import opened Options
  import opened Stats

  /** TOTAL_ROUNDS: the rounds a match can be scheduled in are 1..TOTAL_ROUNDS. */
  const TotalRounds: int := 10

  /** STATUS_SCHEDULED, STATUS_LIVE and STATUS_COMPLETED. */
  datatype Status = Scheduled | Live | Completed

  /** The result of looking a name up: the value found, or the AttributeError
      Python raises for a missing attribute. */
  datatype Lookup<T> = Found(value: T) | AttributeError(name: string)

  /** The module-level status constants: STATUS_SCHEDULED, STATUS_LIVE and
      STATUS_COMPLETED. */
  function StatusConstant(name: string): Option<Status>
  {
    if name == "STATUS_SCHEDULED" then Some(Scheduled)
    else if name == "STATUS_LIVE" then Some(Live)
    else if name == "STATUS_COMPLETED" then Some(Completed)
    else None
  }

  /** A status constant read as an attribute of the Match class. The class defines
      no status constants (they live at module level), so every such lookup raises. */
  function MatchClassStatusConstant(name: string): Lookup<Status>
  {
    AttributeError(name)
  }

  /** One game of a series. The win condition and the processed flag are not
      editable: only the series processing sets them. */
  datatype Game = Game(
    gameNumber: int,
    winner: Option<PlayerId>,
    duration: Option<Duration>,
    player1Farm: int,
    player2Farm: int,
    winCondition: Option<WinCondition>,
    isProcessed: bool)

  /** A new game row, as the games editor creates it. */
  function NewGame(gameNumber: int, winner: Option<PlayerId>, duration: Option<Duration>,
                   player1Farm: int, player2Farm: int): (g: Game)
    ensures !g.isProcessed && g.winCondition.None?
  {
    Game(gameNumber, winner, duration, player1Farm, player2Farm, None, false)
  }

  /** The game numbers are 1, 2 or 3 and unique within the series. */
  predicate WellNumbered(games: seq<Game>)
  {
    && (forall i :: 0 <= i < |games| ==> 1 <= games[i].gameNumber <= 3)
    && (forall i, j :: 0 <= i < j < |games| ==> games[i].gameNumber != games[j].gameNumber)
  }

  /** Distinct game numbers drawn from a set are no more than the set has. */
  lemma {:induction false} NumbersFit(games: seq<Game>, numbers: set<int>)
    requires forall i :: 0 <= i < |games| ==> games[i].gameNumber in numbers
    requires forall i, j :: 0 <= i < j < |games| ==> games[i].gameNumber != games[j].gameNumber
    ensures |games| <= |numbers|
    decreases |games|
  {
    if games != [] {
      var last := games[|games| - 1].gameNumber;
      var init := games[..|games| - 1];
      assert forall i :: 0 <= i < |init| ==> init[i] == games[i];
      NumbersFit(init, numbers - {last});
    }
  }

  /** A series has at most three games. */
  lemma AtMostThreeGames(games: seq<Game>)
    requires WellNumbered(games)
    ensures |games| <= 3
  {
    NumbersFit(games, {1, 2, 3});
  }

  /** A series. Its games are held in game-number order. */
  class Match {
    var status: Status
    var player1: PlayerId
    var player2: PlayerId
    var roundNumber: int
    var scheduledTime: Option<int>
    var seriesWinner: Option<PlayerId>
    var games: seq<Game>

    /** A newly scheduled series, with no games and no winner. */
    constructor (player1: PlayerId, player2: PlayerId, roundNumber: int, scheduledTime: Option<int>)
      ensures this.player1 == player1 && this.player2 == player2
      ensures this.roundNumber == roundNumber && this.scheduledTime == scheduledTime
      ensures status == Scheduled && seriesWinner.None? && games == []
    {
      this.player1 := player1;
      this.player2 := player2;
      this.roundNumber := roundNumber;
      this.scheduledTime := scheduledTime;
      status := Scheduled;
      seriesWinner := None;
      games := [];
    }
  }

  /** The three ways a player can be tied to a series. */
  datatype Role = AsPlayer1 | AsPlayer2 | AsSeriesWinner

  predicate Fills(m: Match, q: PlayerId, role: Role)
    reads m
  {
    match role
    case AsPlayer1 => m.player1 == q
    case AsPlayer2 => m.player2 == q
    case AsSeriesWinner => m.seriesWinner == Some(q)
  }

  /** The number of completed series in which the player has the given role. */
  function CountCompleted(ms: seq<Match>, q: PlayerId, role: Role): nat
    reads ms
    decreases |ms|
  {
    if ms == [] then 0
    else
      var last := ms[|ms| - 1];
      CountCompleted(ms[..|ms| - 1], q, role) + (if last.status == Completed && Fills(last, q, role) then 1 else 0)
  }

  /** series_played: completed series as player1 plus completed series as player2. */
  function SeriesPlayed(ms: seq<Match>, q: PlayerId): nat
    reads ms
  {
    CountCompleted(ms, q, AsPlayer1) + CountCompleted(ms, q, AsPlayer2)
  }

  /** series_wins: completed series the player won. */
  function SeriesWins(ms: seq<Match>, q: PlayerId): nat
    reads ms
  {
    CountCompleted(ms, q, AsSeriesWinner)
  }

  /** series_losses */
  function SeriesLosses(ms: seq<Match>, q: PlayerId): int
    reads ms
  {
    SeriesPlayed(ms, q) - SeriesWins(ms, q)
  }

  /** series_winrate, as an exact ratio; zero when no series was played. */
  function SeriesWinRate(ms: seq<Match>, q: PlayerId): (rate: real)
    reads ms
    ensures SeriesPlayed(ms, q) == 0 ==> rate == 0.0
    ensures SeriesPlayed(ms, q) > 0 ==> rate * (SeriesPlayed(ms, q) as real) == 100.0 * (SeriesWins(ms, q) as real)
  {
    var total := SeriesPlayed(ms, q);
    if total == 0 then 0.0 else (SeriesWins(ms, q) as real / total as real) * 100.0
  }

  /** Every completed series that has a winner was won by one of its own players. */
  predicate WinnersTakePart(ms: seq<Match>)
    reads ms
  {
    forall i :: 0 <= i < |ms| && ms[i].status == Completed && ms[i].seriesWinner.Some? ==>
      ms[i].seriesWinner.value == ms[i].player1 || ms[i].seriesWinner.value == ms[i].player2
  }

  /** Series not yet completed do not count. */
  lemma {:induction false} UncompletedDoNotCount(ms: seq<Match>, m: Match, q: PlayerId, role: Role)
    requires m.status != Completed
    ensures CountCompleted(ms + [m], q, role) == CountCompleted(ms, q, role)
  {
    assert (ms + [m])[..|ms + [m]| - 1] == ms;
  }

  /** When winners take part, a player cannot win more series than they played,
      so the series losses are never negative and the series win rate lies in
      0..100. */
  lemma {:induction false} SeriesWinsWithinPlayed(ms: seq<Match>, q: PlayerId)
    requires WinnersTakePart(ms)
    ensures SeriesWins(ms, q) <= SeriesPlayed(ms, q)
    ensures SeriesLosses(ms, q) >= 0
    ensures 0.0 <= SeriesWinRate(ms, q) <= 100.0
    decreases |ms|
  {
    if ms != [] {
      var init := ms[..|ms| - 1];
      assert WinnersTakePart(init) by {
        forall i | 0 <= i < |init| && init[i].status == Completed && init[i].seriesWinner.Some?
          ensures init[i].seriesWinner.value == init[i].player1 || init[i].seriesWinner.value == init[i].player2
        {
          assert init[i] == ms[i];
        }
      }
      SeriesWinsWithinPlayed(init, q);
    }
    var total := SeriesPlayed(ms, q);
    if total > 0 {
      RatioBounds(SeriesWins(ms, q) as real, total as real);
    }
  }
}
