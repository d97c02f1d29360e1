/** The match editor of ipx1/roundRobin/admin.py: save_model, which processes a
    match once, when it is saved with a winner and no recorded win condition, and
    reports a failure instead of raising it; and get_readonly_fields, which locks a
    match once it has a winner. */
module SingleMatchAdmin {
  import opened Options
  import opened Stats
  import opened SingleMatch

  /** The notice shown after processing: success, or the error that was caught. */
  datatype Message = Success | Error

  /** The process-once guard: a winner is set and no win condition is recorded. */
  predicate DueForProcessing(winner: Option<PlayerId>, winCondition: Option<WinCondition>)
  {
    winner.Some? && winCondition.None?
  }

  /** save_model, after the match itself is stored. A match due for processing is
      processed; a storage failure during processing is caught and reported. A
      match that is not due is left as it is and nothing is reported. */
  method SaveModel(obj: Match, table: PlayerTable, fault: Fault) returns (message: Option<Message>)
    requires obj.winner.Some? ==> obj.winner.value in table.players
    requires obj.player1 in table.players && obj.player2 in table.players
    modifies obj, table
    ensures obj.player1 == old(obj.player1) && obj.player2 == old(obj.player2) && obj.winner == old(obj.winner)
    ensures obj.duration == old(obj.duration)
    ensures obj.player1Farm == old(obj.player1Farm) && obj.player2Farm == old(obj.player2Farm)
    ensures !DueForProcessing(old(obj.winner), old(obj.winCondition)) ==>
      && message.None? && obj.winCondition == old(obj.winCondition) && table.players == old(table.players)
    ensures DueForProcessing(old(obj.winner), old(obj.winCondition)) ==>
      && message == Some(if fault.FailAt? then Error else Success)
      && obj.winCondition == Some(Classify(obj.duration))
      && table.players == AfterProcessing(old(table.players), obj.winner.value, obj.SplitOfWinner(), obj.duration, fault)
    ensures obj.winner.Some? ==> !DueForProcessing(obj.winner, obj.winCondition)
  {
    message := None;
    if obj.winner.Some? && obj.winCondition.None? {
      var failed := obj.ProcessMatchResults(table, fault);
      if failed {
        message := Some(Error);
      } else {
        message := Some(Success);
      }
    }
  }

  /** Saving the same match twice: whatever happened the first time, the second
      save finds the win condition recorded and changes nothing. */
  method SaveTwice(obj: Match, table: PlayerTable, first: Fault, second: Fault)
    returns (firstMessage: Option<Message>, secondMessage: Option<Message>)
    requires obj.winner.Some? ==> obj.winner.value in table.players
    requires obj.player1 in table.players && obj.player2 in table.players
    modifies obj, table
    ensures obj.player1 == old(obj.player1) && obj.player2 == old(obj.player2) && obj.winner == old(obj.winner)
    ensures obj.duration == old(obj.duration)
    ensures obj.player1Farm == old(obj.player1Farm) && obj.player2Farm == old(obj.player2Farm)
    ensures obj.winCondition == if DueForProcessing(old(obj.winner), old(obj.winCondition))
      then Some(Classify(obj.duration)) else old(obj.winCondition)
    ensures obj.winner.Some? ==> !DueForProcessing(obj.winner, obj.winCondition)
    ensures obj.winner.Some? ==> secondMessage.None?
    ensures DueForProcessing(old(obj.winner), old(obj.winCondition)) ==>
      table.players == AfterProcessing(old(table.players), obj.winner.value, obj.SplitOfWinner(), obj.duration, first)
    ensures !DueForProcessing(old(obj.winner), old(obj.winCondition)) ==>
      && firstMessage.None? && secondMessage.None? && table.players == old(table.players)
  {
    firstMessage := SaveModel(obj, table, first);
    ghost var afterFirst := table.players;
    secondMessage := SaveModel(obj, table, second);
    assert obj.winner.Some? ==> table.players == afterFirst;
  }

  /** The concrete fields of the match model, in declaration order. */
  const MatchFields: seq<string> :=
    ["id", "player1", "player2", "win_condition", "winner", "duration", "player1_farm", "player2_farm", "created_at"]

  /** get_readonly_fields, given whether an existing match is being edited and its
      winner: every field once the edited match has a winner, otherwise only the
      automatic ones. */
  function ReadonlyFields(editing: bool, winner: Option<PlayerId>): (fields: seq<string>)
    ensures "created_at" in fields && "win_condition" in fields
    ensures editing && winner.Some? ==> forall f :: f in MatchFields ==> f in fields
    ensures "winner" in fields <==> editing && winner.Some?
    ensures "duration" in fields <==> editing && winner.Some?
    ensures !(editing && winner.Some?) ==> |fields| == 2
  {
    if editing && winner.Some? then MatchFields else ["created_at", "win_condition"]
  }
}
