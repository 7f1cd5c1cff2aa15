/** `Server`: the state of one game session and the two operations of a round. */
module Session {
  import opened Rules
  import opened History
  import opened Policy

  /** The history capacity `Server` creates its `Moves` with (the default `max_length`). */
  const MaxLength: nat := 30

  /** Number of times `o` occurs in `rounds`. */
  function Occurrences(rounds: seq<Outcome>, o: Outcome): (n: nat)
    ensures n <= |rounds|
  {
    if rounds == [] then 0
    else Occurrences(rounds[..|rounds| - 1], o) + (if rounds[|rounds| - 1] == o then 1 else 0)
  }

  /** Every round has exactly one outcome. */
  lemma {:induction false} OccurrencesPartition(rounds: seq<Outcome>)
    ensures Occurrences(rounds, UserWin) + Occurrences(rounds, ComputerWin) + Occurrences(rounds, Draw) == |rounds|
  {
    if rounds != [] {
      OccurrencesPartition(rounds[..|rounds| - 1]);
    }
  }

  /** `count[m] += 1` on a dictionary that has the key `m`. */
  function Inc(count: map<Move, nat>, m: Move): map<Move, nat>
    requires m in count
  {
    count[m := count[m] + 1]
  }

  /** Sum of the three per-move counters. */
  function Total(count: map<Move, nat>): nat
    requires Rock in count && Paper in count && Scissors in count
  {
    count[Rock] + count[Paper] + count[Scissors]
  }

  /** The bookkeeping that holds in every state a session reaches: `result[k]`
      is the number of rounds with code `k`, and `count_moves` has counted two
      moves per round. */
  predicate Tallied(rounds: seq<Outcome>, result: seq<nat>, countMoves: map<Move, nat>)
  {
    && |result| == 3
    && Rock in countMoves && Paper in countMoves && Scissors in countMoves
    && result[Code(UserWin)] == Occurrences(rounds, UserWin)
    && result[Code(ComputerWin)] == Occurrences(rounds, ComputerWin)
    && result[Code(Draw)] == Occurrences(rounds, Draw)
    && Total(countMoves) == 2 * |rounds|
  }

  /** Tallied counters add up: the score triple sums to the number of rounds. */
  lemma TalliedScores(rounds: seq<Outcome>, result: seq<nat>, countMoves: map<Move, nat>)
    requires Tallied(rounds, result, countMoves)
    ensures result[0] + result[1] + result[2] == |rounds|
  {
    OccurrencesPartition(rounds);
  }

  /** What `get_result` does to the counters for the pair `p` keeps them tallied:
      one more round, one more point in the slot of its outcome, two more moves counted. */
  lemma {:induction false} RecordKeepsTallied(rounds: seq<Outcome>, result: seq<nat>, countMoves: map<Move, nat>, p: Pair)
    requires Tallied(rounds, result, countMoves)
    ensures var o := Classify(p);
      Tallied(rounds + [o], result[Code(o) := result[Code(o)] + 1],
              Inc(Inc(countMoves, p.user), p.computer))
  {
    var o := Classify(p);
    var rounds' := rounds + [o];
    assert rounds'[..|rounds'| - 1] == rounds;
    assert Occurrences(rounds', UserWin) == Occurrences(rounds, UserWin) + (if o == UserWin then 1 else 0);
    assert Occurrences(rounds', ComputerWin) == Occurrences(rounds, ComputerWin) + (if o == ComputerWin then 1 else 0);
    assert Occurrences(rounds', Draw) == Occurrences(rounds, Draw) + (if o == Draw then 1 else 0);
    var c1 := Inc(countMoves, p.user);
    assert Total(c1) == Total(countMoves) + 1;
    assert Total(Inc(c1, p.computer)) == Total(c1) + 1;
  }

  class Server {
    /** `self.moves`: the bounded history (never replaced, only updated). */
    const history: Moves
    /** `self.rounds`: the outcome of every completed round, oldest first. */
    var rounds: seq<Outcome>
    /** `self.result`: [user wins, computer wins, draws]. */
    var result: seq<nat>
    /** `self.count_moves`: moves of both players counted over the whole session. */
    var countMoves: map<Move, nat>

    ghost predicate Valid()
      reads this, history
    {
      && history.Valid()
      && history.maxLength == MaxLength
      && |result| == 3
      && forall m :: m in countMoves
    }

    /** Every state the interactive loop reaches: the counters are tallied,
        and once a round has been scored the history is not empty. */
    ghost predicate Reachable()
      reads this, history
    {
      && Tallied(rounds, result, countMoves)
      && (rounds != [] ==> history.movesList != [])
    }

    /** `Server()`: an empty history of capacity 30, no rounds, zero counters. */
    constructor ()
      ensures Valid() && Reachable()
      ensures fresh(history) && history.movesList == []
      ensures rounds == [] && result == [0, 0, 0]
      ensures countMoves == map[Rock := 0, Paper := 0, Scissors := 0]
    {
      history := new Moves(MaxLength);
      rounds := [];
      result := [0, 0, 0];
      countMoves := map[Rock := 0, Paper := 0, Scissors := 0];
      new;
      forall m ensures m in countMoves {
        MoveCases(m);
      }
    }

    /** `get_less_common_user_move()`: over the retained history, the first move
        (in the order rock, paper, scissors) whose count as the pair's SECOND
        component is minimal; on an empty history the move `random.choice`
        draws at index `choice`. */
    method GetLessCommonUserMove(choice: nat) returns (m: Move)
      requires choice < |AllMoves|
      ensures m == LeastCommon(history.movesList, choice)
    {
      var moves := history.GetAllMoves();
      if |moves| == 0 {
        return AllMoves[choice];
      }
      var count := map[Rock := 0, Paper := 0, Scissors := 0];
      for i := 0 to |moves|
        invariant count.Keys == {Rock, Paper, Scissors}
        invariant count[Rock] == Count(moves[..i], Rock)
        invariant count[Paper] == Count(moves[..i], Paper)
        invariant count[Scissors] == Count(moves[..i], Scissors)
      {
        assert moves[..i + 1][..i] == moves[..i];
        var move := moves[i];
        MoveCases(move.computer);
        count := count[move.computer := count[move.computer] + 1];
      }
      assert moves[..|moves|] == moves;
      m := FirstMinimum(count);
      assert count == Tally(moves);
    }

    /** `make_turn(user_move)`: picks the computer's move from the last outcome
        and the draws `r` (`randint(1, 10)`), `choice3` (`random.choice` over
        three moves) and `choice2` (over `other_moves`), and appends the pair(s).
        Fails, changing nothing, when `rounds` is non-empty but the history is
        empty (`get_last_move` raises). */
    method MakeTurn(userMove: Move, r: int, choice3: nat, choice2: nat) returns (status: Status)
      requires Valid()
      requires 1 <= r <= 10 && choice3 < 3 && choice2 < 2
      modifies history
      ensures Valid()
      ensures old(rounds) != [] && old(history.movesList) == [] ==>
        status == Failed(EmptyHistory) && history.movesList == old(history.movesList)
      ensures old(rounds) == [] || old(history.movesList) != [] ==>
        && status == Done
        && history.movesList == Keep(old(history.movesList)
             + Reply(userMove, LastOutcome(old(rounds)), old(history.movesList), r, choice3, choice2), MaxLength)
    {
      ghost var h := history.movesList;
      ghost var lo := LastOutcome(rounds);
      if |rounds| == 0 {
        AnswerFirst(userMove, choice3);
        assert Reply(userMove, lo, h, r, choice3, choice2) == [Pair(userMove, AllMoves[choice3])];
        return Done;
      }
      var lastMove := history.GetLastMove();
      if lastMove.Err? {
        return Failed(lastMove.error);
      }
      var last := rounds[|rounds| - 1];
      Answer(last, userMove, lastMove.value.user, r, choice3, choice2);
      assert lo == Some(last);
      status := Done;
    }

    /** The first-round branch of `make_turn`: a move drawn from all three. */
    method AnswerFirst(userMove: Move, choice3: nat)
      requires history.Valid() && history.maxLength == MaxLength
      requires choice3 < 3
      modifies history
      ensures history.Valid()
      ensures history.movesList == Keep(old(history.movesList) + [Pair(userMove, AllMoves[choice3])], MaxLength)
    {
      ghost var h := history.movesList;
      var possibleMoves := AllMoves;
      var computerMove := possibleMoves[choice3];
      history.AddMove(userMove, computerMove);
    }

    /** The body of `make_turn` after `get_last_move`: the branch on the last outcome. */
    method Answer(last: Outcome, userMove: Move, prev: Move, r: int, choice3: nat, choice2: nat)
      requires history.Valid() && history.maxLength == MaxLength
      requires history.movesList != [] && prev == history.movesList[|history.movesList| - 1].user
      requires 1 <= r <= 10 && choice3 < 3 && choice2 < 2
      modifies history
      ensures history.Valid()
      ensures history.movesList == Keep(old(history.movesList)
        + Reply(userMove, Some(last), old(history.movesList), r, choice3, choice2), MaxLength)
    {
      ghost var h := history.movesList;
      ghost var ps := Reply(userMove, Some(last), h, r, choice3, choice2);
      if last == UserWin {
        AnswerUserWin(userMove, prev, r, choice3, choice2);
      } else if last == ComputerWin {
        AnswerComputerWin(userMove, prev, r, choice3, choice2);
      } else {
        AnswerDraw(userMove, r, choice3);
      }
    }

    /** The user-win branch of `make_turn`, `prev` being the user's move in the newest pair. */
    method AnswerUserWin(userMove: Move, prev: Move, r: int, choice3: nat, choice2: nat)
      requires history.Valid() && history.maxLength == MaxLength
      requires 1 <= r <= 10 && choice3 < 3 && choice2 < 2
      modifies history
      ensures history.Valid()
      ensures history.movesList == Keep(old(history.movesList)
        + UserWinReply(userMove, prev, old(history.movesList), r, choice3, choice2), MaxLength)
    {
      ghost var h := history.movesList;
      var possibleMoves := AllMoves;
      var generatedMove := WinOf(prev);
      UserWinReplyCases(userMove, prev, h, r, choice3, choice2);
      ghost var first := if r < 5 then [Pair(userMove, generatedMove)] else [];
      if r < 5 {
        history.AddMove(userMove, generatedMove);
      }
      assert history.movesList == Keep(h + first, MaxLength) && |h| <= MaxLength;
      ghost var h1 := history.movesList;
      if r == 5 {
        var possibleUserMove := GetLessCommonUserMove(choice3);
        history.AddMove(userMove, WinOf(possibleUserMove));
      } else {
        var otherMoves := RemoveFirst(possibleMoves, generatedMove);
        history.AddMove(userMove, otherMoves[choice2]);
        ghost var p1 := Pair(userMove, otherMoves[choice2]);
        KeepAppend(h + first, p1, MaxLength);
        assert h + first + [p1] == h + (first + [p1]);
      }
    }

    /** The computer-win branch of `make_turn`, `prev` being the user's move in the newest pair. */
    method AnswerComputerWin(userMove: Move, prev: Move, r: int, choice3: nat, choice2: nat)
      requires history.Valid() && history.maxLength == MaxLength
      requires 1 <= r <= 10 && choice3 < 3 && choice2 < 2
      modifies history
      ensures history.Valid()
      ensures history.movesList == Keep(old(history.movesList)
        + ComputerWinReply(userMove, prev, old(history.movesList), r, choice3, choice2), MaxLength)
    {
      var possibleMoves := AllMoves;
      var generatedMove := WinOf(WinOf(prev));
      if r < 5 {
        history.AddMove(userMove, generatedMove);
      } else if r == 5 {
        var possibleUserMove := GetLessCommonUserMove(choice3);
        var computerMove := WinOf(possibleUserMove);
        history.AddMove(userMove, computerMove);
      } else {
        var otherMoves := RemoveFirst(possibleMoves, generatedMove);
        var computerMove := otherMoves[choice2];
        history.AddMove(userMove, computerMove);
      }
    }

    /** The draw branch of `make_turn`. */
    method AnswerDraw(userMove: Move, r: int, choice3: nat)
      requires history.Valid() && history.maxLength == MaxLength
      requires 1 <= r <= 10 && choice3 < 3
      modifies history
      ensures history.Valid()
      ensures history.movesList == Keep(old(history.movesList)
        + DrawReply(userMove, old(history.movesList), r, choice3), MaxLength)
    {
      var possibleMoves := AllMoves;
      if r <= 5 {
        var computerMove := possibleMoves[choice3];
        history.AddMove(userMove, computerMove);
      } else {
        var possibleUserMove := GetLessCommonUserMove(choice3);
        var computerMove := WinOf(possibleUserMove);
        history.AddMove(userMove, computerMove);
      }
    }

    /** `get_result()`: counts both moves of the newest pair, classifies it, and
        records the outcome in `rounds` and in its slot of `result`. Fails,
        changing nothing, on an empty history (`get_last_move` raises). */
    method GetResult() returns (status: Status)
      requires Valid()
      modifies this
      ensures Valid()
      ensures history.movesList == old(history.movesList)
      ensures old(history.movesList) == [] ==>
        status == Failed(EmptyHistory)
        && rounds == old(rounds) && result == old(result) && countMoves == old(countMoves)
      ensures old(history.movesList) != [] ==>
        var p := old(history.movesList)[|old(history.movesList)| - 1];
        var o := Classify(p);
        && status == Done
        && rounds == old(rounds) + [o]
        && result == old(result)[Code(o) := old(result)[Code(o)] + 1]
        && countMoves == Inc(Inc(old(countMoves), p.user), p.computer)
      ensures old(Reachable()) ==> Reachable()
    {
      var lastMove := history.GetLastMove();
      if lastMove.Err? {
        return Failed(lastMove.error);
      }
      var p := lastMove.value;
      ghost var rounds0, result0, countMoves0 := rounds, result, countMoves;
      countMoves := Inc(countMoves, p.user);
      countMoves := Inc(countMoves, p.computer);
      // Each of the three branches appends its code to `rounds` and
      // increments the slot of `result` with that code.
      var outcome;
      if p.user == p.computer {
        outcome := Draw;
      } else if p.computer == WinOf(p.user) {
        outcome := ComputerWin;
      } else {
        outcome := UserWin;
      }
      rounds := rounds + [outcome];
      result := result[Code(outcome) := result[Code(outcome)] + 1];
      assert outcome == Classify(p);
      if Tallied(rounds0, result0, countMoves0) {
        RecordKeepsTallied(rounds0, result0, countMoves0, p);
      }
      status := Done;
    }

    /** One pass of the interactive loop for a valid move: `make_turn` then `get_result`. */
    method PlayRound(userMove: Move, r: int, choice3: nat, choice2: nat) returns (status: Status)
      requires Valid() && Reachable()
      requires 1 <= r <= 10 && choice3 < 3 && choice2 < 2
      modifies this, history
      ensures Valid() && Reachable() && status == Done
      ensures history.movesList == Keep(old(history.movesList)
        + Reply(userMove, LastOutcome(old(rounds)), old(history.movesList), r, choice3, choice2), MaxLength)
      ensures history.movesList != []
      ensures var p := history.movesList[|history.movesList| - 1];
        var o := Classify(p);
        && p.user == userMove
        && rounds == old(rounds) + [o]
        && result == old(result)[Code(o) := old(result)[Code(o)] + 1]
        && countMoves == Inc(Inc(old(countMoves), p.user), p.computer)
    {
      ghost var h, rounds0, result0, countMoves0 := history.movesList, rounds, result, countMoves;
      ghost var turn := Reply(userMove, LastOutcome(rounds0), h, r, choice3, choice2);
      status := MakeTurn(userMove, r, choice3, choice2);
      ghost var h1 := history.movesList;
      assert h1 == Keep(h + turn, MaxLength);
      assert rounds == rounds0 && result == result0 && countMoves == countMoves0;
      ReplyNewest(userMove, LastOutcome(rounds0), h, r, choice3, choice2, MaxLength);
      assert Valid() && Reachable();
      status := GetResult();
    }
  }
}
