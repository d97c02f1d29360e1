/** The two views of roundRobin/views.py that compute something: the leaderboard
    (every player, sorted by a tie-breaking key) and the match list (the matches
    grouped by round). */
module Views {
  import opened Options
  import opened Stats
  import opened Series

  // ---- leaderboard_view ----

  /** The sort key of a player: most wins first, then the lowest average win time,
      then the highest kill/death balance. */
  datatype SortKey = SortKey(negatedWins: int, averageWinTime: int, negatedBalance: int)

  function Key(p: Player): SortKey
  {
    SortKey(-(p.wins as int), AverageWinTime(p), -KillDeathBalance(p))
  }

  /** Python's tuple comparison: lexicographic on the three components. */
  predicate KeyLe(a: SortKey, b: SortKey)
  {
    || a.negatedWins < b.negatedWins
    || (a.negatedWins == b.negatedWins && a.averageWinTime < b.averageWinTime)
    || (a.negatedWins == b.negatedWins && a.averageWinTime == b.averageWinTime && a.negatedBalance <= b.negatedBalance)
  }

  /** Any two keys are ordered one way or the other, and the order is transitive. */
  lemma KeyLeTotal(a: SortKey, b: SortKey, c: SortKey)
    ensures KeyLe(a, b) || KeyLe(b, a)
    ensures KeyLe(a, b) && KeyLe(b, c) ==> KeyLe(a, c)
  {
  }

  // The sort is written for any key function; the leaderboard uses Key.

  predicate SortedBy(key: Player -> SortKey, s: seq<Player>)
  {
    forall i, j :: 0 <= i < j < |s| ==> KeyLe(key(s[i]), key(s[j]))
  }

  /** The players with the given key, in the order of the sequence. */
  function WithKey(key: Player -> SortKey, s: seq<Player>, k: SortKey): seq<Player>
  {
    if s == [] then []
    else (if key(s[0]) == k then [s[0]] else []) + WithKey(key, s[1..], k)
  }

  /** Places a player before the first player whose key is not smaller. */
  function Insert(key: Player -> SortKey, x: Player, s: seq<Player>): seq<Player>
  {
    if s == [] || KeyLe(key(x), key(s[0])) then [x] + s
    else [s[0]] + Insert(key, x, s[1..])
  }

  /** `sorted(players, key=key)`: a stable sort on the key. */
  function SortBy(key: Player -> SortKey, players: seq<Player>): seq<Player>
  {
    if players == [] then [] else Insert(key, players[0], SortBy(key, players[1..]))
  }

  /** The leaderboard: every player, sorted by Key. */
  function Leaderboard(players: seq<Player>): seq<Player>
  {
    SortBy(Key, players)
  }

  lemma {:induction false} InsertPermutes(key: Player -> SortKey, x: Player, s: seq<Player>)
    ensures multiset(Insert(key, x, s)) == multiset(s) + multiset{x}
    decreases |s|
  {
    if s != [] && !KeyLe(key(x), key(s[0])) {
      InsertPermutes(key, x, s[1..]);
      assert s == [s[0]] + s[1..];
    }
  }

  /** Every player of the sequence has a key no smaller than `b`. */
  predicate LowerBound(key: Player -> SortKey, b: SortKey, s: seq<Player>)
  {
    forall i :: 0 <= i < |s| ==> KeyLe(b, key(s[i]))
  }

  /** A player no greater than any of a sorted sequence can be put in front. */
  lemma ConsSorted(key: Player -> SortKey, a: Player, r: seq<Player>)
    requires SortedBy(key, r) && LowerBound(key, key(a), r)
    ensures SortedBy(key, [a] + r)
  {
    var u := [a] + r;
    forall i, j | 0 <= i < j < |u|
      ensures KeyLe(key(u[i]), key(u[j]))
    {
      assert u[j] == r[j - 1];
      if i > 0 {
        assert u[i] == r[i - 1];
      }
    }
  }

  /** Inserting a player above a lower bound keeps the bound. */
  lemma {:induction false} InsertBound(key: Player -> SortKey, b: SortKey, x: Player, s: seq<Player>)
    requires LowerBound(key, b, s) && KeyLe(b, key(x))
    ensures LowerBound(key, b, Insert(key, x, s))
    decreases |s|
  {
    if s != [] && !KeyLe(key(x), key(s[0])) {
      assert LowerBound(key, b, s[1..]) by {
        forall i | 0 <= i < |s[1..]|
          ensures KeyLe(b, key(s[1..][i]))
        {
          assert s[1..][i] == s[i + 1];
        }
      }
      InsertBound(key, b, x, s[1..]);
      var u := [s[0]] + Insert(key, x, s[1..]);
      forall i | 0 <= i < |u|
        ensures KeyLe(b, key(u[i]))
      {
        if i > 0 {
          assert u[i] == Insert(key, x, s[1..])[i - 1];
        }
      }
    } else {
      var u := [x] + s;
      forall i | 0 <= i < |u|
        ensures KeyLe(b, key(u[i]))
      {
        if i > 0 {
          assert u[i] == s[i - 1];
        }
      }
    }
  }

  lemma {:induction false} InsertSorted(key: Player -> SortKey, x: Player, s: seq<Player>)
    requires SortedBy(key, s)
    ensures SortedBy(key, Insert(key, x, s))
    decreases |s|
  {
    if s == [] {
      assert Insert(key, x, s) == [x];
    } else if KeyLe(key(x), key(s[0])) {
      forall i | 0 <= i < |s|
        ensures KeyLe(key(x), key(s[i]))
      {
        KeyLeTotal(key(x), key(s[0]), key(s[i]));
      }
      ConsSorted(key, x, s);
    } else {
      var t := s[1..];
      assert SortedBy(key, t) by {
        forall i, j | 0 <= i < j < |t|
          ensures KeyLe(key(t[i]), key(t[j]))
        {
          assert t[i] == s[i + 1] && t[j] == s[j + 1];
        }
      }
      assert LowerBound(key, key(s[0]), t) by {
        forall i | 0 <= i < |t|
          ensures KeyLe(key(s[0]), key(t[i]))
        {
          assert t[i] == s[i + 1];
        }
      }
      KeyLeTotal(key(x), key(s[0]), key(s[0]));
      InsertBound(key, key(s[0]), x, t);
      InsertSorted(key, x, t);
      ConsSorted(key, s[0], Insert(key, x, t));
    }
  }

  /** Inserting keeps, for every key, the players with that key in order, the new
      one first among its equals. */
  lemma {:induction false} InsertStable(key: Player -> SortKey, x: Player, s: seq<Player>, k: SortKey)
    ensures WithKey(key, Insert(key, x, s), k) == (if key(x) == k then [x] else []) + WithKey(key, s, k)
    decreases |s|
  {
    if s != [] && !KeyLe(key(x), key(s[0])) {
      InsertStable(key, x, s[1..], k);
      assert ([s[0]] + Insert(key, x, s[1..]))[1..] == Insert(key, x, s[1..]);
    } else {
      assert ([x] + s)[1..] == s;
    }
  }

  lemma {:induction false} SortByPermutes(key: Player -> SortKey, players: seq<Player>)
    ensures multiset(SortBy(key, players)) == multiset(players)
    decreases |players|
  {
    if players != [] {
      SortByPermutes(key, players[1..]);
      InsertPermutes(key, players[0], SortBy(key, players[1..]));
      assert players == [players[0]] + players[1..];
    }
  }

  lemma {:induction false} SortBySorted(key: Player -> SortKey, players: seq<Player>)
    ensures SortedBy(key, SortBy(key, players))
    decreases |players|
  {
    if players != [] {
      SortBySorted(key, players[1..]);
      InsertSorted(key, players[0], SortBy(key, players[1..]));
    }
  }

  lemma {:induction false} SortByStable(key: Player -> SortKey, players: seq<Player>, k: SortKey)
    ensures WithKey(key, SortBy(key, players), k) == WithKey(key, players, k)
    decreases |players|
  {
    if players != [] {
      SortByStable(key, players[1..], k);
      InsertStable(key, players[0], SortBy(key, players[1..]), k);
    }
  }

  /** The sort lists every player exactly once, sorted by the key, and players
      with the same key keep their input order. */
  lemma SortByIsStableSort(key: Player -> SortKey, players: seq<Player>)
    ensures multiset(SortBy(key, players)) == multiset(players)
    ensures SortedBy(key, SortBy(key, players))
    ensures forall k :: WithKey(key, SortBy(key, players), k) == WithKey(key, players, k)
  {
    SortByPermutes(key, players);
    SortBySorted(key, players);
    forall k
      ensures WithKey(key, SortBy(key, players), k) == WithKey(key, players, k)
    {
      SortByStable(key, players, k);
    }
  }

  /** The leaderboard lists every player exactly once, sorted by Key, and players
      with the same key keep their input order. */
  lemma LeaderboardIsStableSort(players: seq<Player>)
    ensures multiset(Leaderboard(players)) == multiset(players)
    ensures SortedBy(Key, Leaderboard(players))
    ensures forall k :: WithKey(Key, Leaderboard(players), k) == WithKey(Key, players, k)
  {
    SortByIsStableSort(Key, players);
  }

  /** Read down the leaderboard: wins never increase; among equal wins the average
      win time never decreases; among equal wins and average, the kill/death
      balance never increases. */
  lemma LeaderboardOrder(players: seq<Player>, i: int, j: int)
    requires 0 <= i < j < |Leaderboard(players)|
    ensures var r := Leaderboard(players);
      && r[i].wins >= r[j].wins
      && (r[i].wins == r[j].wins ==> AverageWinTime(r[i]) <= AverageWinTime(r[j]))
      && (r[i].wins == r[j].wins && AverageWinTime(r[i]) == AverageWinTime(r[j]) ==>
            KillDeathBalance(r[i]) >= KillDeathBalance(r[j]))
  {
    SortByIsStableSort(Key, players);
    var r := Leaderboard(players);
    assert KeyLe(Key(r[i]), Key(r[j]));
  }

  // ---- match_list_view ----

  /** One entry of the match list: a round and its matches. */
  datatype RoundEntry = RoundEntry(roundNumber: int, matches: seq<Match>)

  /** The matches of one round, in their order in the list. */
  function InRound(all: seq<Match>, round: int): (r: seq<Match>)
    reads all
    ensures |r| <= |all|
    decreases |all|
  {
    if all == [] then []
    else (if all[0].roundNumber == round then [all[0]] else []) + InRound(all[1..], round)
  }

  /** The list has an entry for the round. */
  predicate Listed(rounds: seq<RoundEntry>, round: int)
  {
    exists i :: 0 <= i < |rounds| && rounds[i].roundNumber == round
  }

  /** The entries for rounds 1 to `last`: each round with a match, in order. */
  function GroupRounds(all: seq<Match>, last: int): seq<RoundEntry>
    reads all
    decreases last
  {
    if last < 1 then []
    else
      var matchesInRound := InRound(all, last);
      GroupRounds(all, last - 1) + (if matchesInRound != [] then [RoundEntry(last, matchesInRound)] else [])
  }

  /** Each entry of the grouping is a round from 1 to `last` holding exactly that
      round's matches, of which there are some. */
  lemma {:induction false} GroupRoundsEntries(all: seq<Match>, last: int)
    ensures forall i :: 0 <= i < |GroupRounds(all, last)| ==>
      && 1 <= GroupRounds(all, last)[i].roundNumber <= last
      && GroupRounds(all, last)[i].matches == InRound(all, GroupRounds(all, last)[i].roundNumber)
      && GroupRounds(all, last)[i].matches != []
    decreases last
  {
    if last >= 1 {
      GroupRoundsEntries(all, last - 1);
      var before := GroupRounds(all, last - 1);
      var rounds := GroupRounds(all, last);
      forall i | 0 <= i < |rounds|
        ensures 1 <= rounds[i].roundNumber <= last
        ensures rounds[i].matches == InRound(all, rounds[i].roundNumber) && rounds[i].matches != []
      {
        if i < |before| {
          assert rounds[i] == before[i];
        } else {
          assert rounds[i] == RoundEntry(last, InRound(all, last));
        }
      }
    }
  }

  /** The rounds of the grouping strictly increase. */
  lemma {:induction false} GroupRoundsIncreasing(all: seq<Match>, last: int)
    ensures forall i, j :: 0 <= i < j < |GroupRounds(all, last)| ==>
      GroupRounds(all, last)[i].roundNumber < GroupRounds(all, last)[j].roundNumber
    decreases last
  {
    if last >= 1 {
      GroupRoundsIncreasing(all, last - 1);
      GroupRoundsEntries(all, last - 1);
      var before := GroupRounds(all, last - 1);
      var rounds := GroupRounds(all, last);
      forall i, j | 0 <= i < j < |rounds|
        ensures rounds[i].roundNumber < rounds[j].roundNumber
      {
        assert rounds[i] == before[i];
        if j < |before| {
          assert rounds[j] == before[j];
        } else {
          assert rounds[j] == RoundEntry(last, InRound(all, last));
        }
      }
    }
  }

  /** Every round from 1 to `last` with a match has an entry. */
  lemma {:induction false} GroupRoundsComplete(all: seq<Match>, last: int)
    ensures forall round :: 1 <= round <= last && InRound(all, round) != [] ==> Listed(GroupRounds(all, last), round)
    decreases last
  {
    if last >= 1 {
      GroupRoundsComplete(all, last - 1);
      var before := GroupRounds(all, last - 1);
      var rounds := GroupRounds(all, last);
      forall round | 1 <= round <= last && InRound(all, round) != []
        ensures Listed(rounds, round)
      {
        if round < last {
          var i :| 0 <= i < |before| && before[i].roundNumber == round;
          assert rounds[i] == before[i];
        } else {
          assert rounds[|rounds| - 1].roundNumber == last;
        }
      }
    }
  }

  /** The grouping lists the rounds from 1 to `last` that have matches, each once,
      in increasing order, with exactly that round's matches. */
  lemma GroupRoundsSpec(all: seq<Match>, last: int)
    ensures var rounds := GroupRounds(all, last);
      && (forall i :: 0 <= i < |rounds| ==> 1 <= rounds[i].roundNumber <= last)
      && (forall i, j :: 0 <= i < j < |rounds| ==> rounds[i].roundNumber < rounds[j].roundNumber)
      && (forall i :: 0 <= i < |rounds| ==>
            rounds[i].matches == InRound(all, rounds[i].roundNumber) && rounds[i].matches != [])
      && (forall round :: 1 <= round <= last && InRound(all, round) != [] ==> Listed(rounds, round))
  {
    GroupRoundsEntries(all, last);
    GroupRoundsIncreasing(all, last);
    GroupRoundsComplete(all, last);
  }

  /** match_list_view's grouping loop: one entry per round from 1 to TOTAL_ROUNDS
      that has a match, in round order, holding that round's matches in list
      order. */
  method MatchList(all: seq<Match>) returns (rounds: seq<RoundEntry>)
    ensures rounds == GroupRounds(all, TotalRounds)
    ensures forall i :: 0 <= i < |rounds| ==> 1 <= rounds[i].roundNumber <= TotalRounds
    ensures forall i, j :: 0 <= i < j < |rounds| ==> rounds[i].roundNumber < rounds[j].roundNumber
    ensures forall i :: 0 <= i < |rounds| ==>
      rounds[i].matches == InRound(all, rounds[i].roundNumber) && rounds[i].matches != []
    ensures forall round :: 1 <= round <= TotalRounds && InRound(all, round) != [] ==> Listed(rounds, round)
  {
    rounds := [];
    for round := 1 to TotalRounds + 1
      invariant rounds == GroupRounds(all, round - 1)
    {
      var matchesInRound := InRound(all, round);
      if matchesInRound != [] {
        rounds := rounds + [RoundEntry(round, matchesInRound)];
      }
    }
    GroupRoundsSpec(all, TotalRounds);
  }

  /** The matches of a round are matches of the list from that round, and there
      are some exactly when the list has a match from that round. */
  lemma {:induction false} InRoundSpec(all: seq<Match>, round: int)
    ensures forall i :: 0 <= i < |InRound(all, round)| ==>
      InRound(all, round)[i] in all && InRound(all, round)[i].roundNumber == round
    ensures (exists i :: 0 <= i < |all| && all[i].roundNumber == round) <==> InRound(all, round) != []
    decreases |all|
  {
    if all != [] {
      InRoundSpec(all[1..], round);
      if all[0].roundNumber != round && InRound(all, round) != [] {
        var i :| 0 <= i < |all[1..]| && all[1..][i].roundNumber == round;
        assert all[i + 1].roundNumber == round;
      }
    }
  }

  /** Every match of a round from 1 to TOTAL_ROUNDS is listed, under its round. */
  lemma MatchListComplete(all: seq<Match>, rounds: seq<RoundEntry>, m: Match)
    requires forall i :: 0 <= i < |rounds| ==> rounds[i].matches == InRound(all, rounds[i].roundNumber)
    requires forall round :: 1 <= round <= TotalRounds && InRound(all, round) != [] ==> Listed(rounds, round)
    requires m in all && 1 <= m.roundNumber <= TotalRounds
    ensures exists i :: 0 <= i < |rounds| && rounds[i].roundNumber == m.roundNumber && m in rounds[i].matches
  {
    InRoundHas(all, m);
  }

  /** A match of the list is among the matches of its round. */
  lemma {:induction false} InRoundHas(all: seq<Match>, m: Match)
    requires m in all
    ensures m in InRound(all, m.roundNumber)
    decreases |all|
  {
    if all[0] != m {
      InRoundHas(all[1..], m);
    }
  }

  /** match_list_view as written: after grouping, it reads the status constants
      as attributes of the Match class for the template, which raises
      AttributeError whatever the matches are. */
  method MatchListViewAsWritten(all: seq<Match>) returns (rounds: seq<RoundEntry>, raised: Option<string>)
    ensures raised == Some("STATUS_COMPLETED")
  {
    rounds := MatchList(all);
    match MatchClassStatusConstant("STATUS_COMPLETED")
    case AttributeError(name) =>
      raised := Some(name);
    case Found(_) =>
      raised := None;
  }

  /** The status constants the match list passes to its template, read from the
      module as intended: completed, live and scheduled. */
  function TemplateStatuses(): (statuses: seq<Option<Status>>)
    ensures statuses == [Some(Completed), Some(Live), Some(Scheduled)]
  {
    [StatusConstant("STATUS_COMPLETED"), StatusConstant("STATUS_LIVE"), StatusConstant("STATUS_SCHEDULED")]
  }
}
