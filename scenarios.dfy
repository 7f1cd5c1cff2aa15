/** The unit tests of `Moves` and `Server`, replayed on the model with the
    draws the tests patch in fixed as arguments. */
module Scenarios {
  import opened Rules
  import opened History
  import opened Policy
  import opened Session

  /** `test_add_move` and `test_add_move_overflow`: with capacity 3, the fourth
      append evicts the oldest pair. */
  method AddMoveOverflow() returns (three: seq<Pair>, four: seq<Pair>)
    ensures three == [Pair(Rock, Paper), Pair(Scissors, Rock), Pair(Paper, Scissors)]
    ensures four == [Pair(Scissors, Rock), Pair(Paper, Scissors), Pair(Rock, Rock)]
  {
    var moves := new Moves(3);
    moves.AddMove(Rock, Paper);
    moves.AddMove(Scissors, Rock);
    moves.AddMove(Paper, Scissors);
    three := moves.GetAllMoves();
    moves.AddMove(Rock, Rock);
    four := moves.GetAllMoves();
  }

  /** `test_get_last_move`: the newest pair, user move first. */
  method LastMove() returns (first: Result<Pair>, second: Result<Pair>)
    ensures first == Ok(Pair(Rock, Paper)) && second == Ok(Pair(Scissors, Rock))
  {
    var moves := new Moves(3);
    moves.AddMove(Rock, Paper);
    first := moves.GetLastMove();
    moves.AddMove(Scissors, Rock);
    second := moves.GetLastMove();
  }

  /** `get_last_move` on a fresh history is the error `make_turn` and `get_result` report. */
  method LastMoveEmpty() returns (r: Result<Pair>)
    ensures r == Err(EmptyHistory)
  {
    var moves := new Moves(3);
    r := moves.GetLastMove();
  }

  /** The history `test_get_less_common_user_move_with_moves` builds. */
  const FourRounds: seq<Pair> := [Pair(Rock, Scissors), Pair(Paper, Rock), Pair(Scissors, Paper), Pair(Rock, Rock)]

  /** Its computer components: rock twice, paper and scissors once each. */
  lemma FourRoundsCounts()
    ensures Count(FourRounds, Rock) == 2 && Count(FourRounds, Paper) == 1 && Count(FourRounds, Scissors) == 1
  {
    var l1 := FourRounds[..1];
    var l2 := FourRounds[..2];
    var l3 := FourRounds[..3];
    assert l1[..0] == [] && l2[..1] == l1 && l3[..2] == l2 && FourRounds[..3] == l3;
    assert Count(l1, Rock) == 0 && Count(l1, Paper) == 0 && Count(l1, Scissors) == 1;
    assert Count(l2, Rock) == 1 && Count(l2, Paper) == 0 && Count(l2, Scissors) == 1;
    assert Count(l3, Rock) == 1 && Count(l3, Paper) == 1 && Count(l3, Scissors) == 1;
  }

  /** `test_get_less_common_user_move_with_moves`: the computer components are
      scissors, rock, paper, rock, so paper is the first least common one. */
  method LessCommonWithMoves() returns (m: Move)
    ensures m == Paper
  {
    var s := new Server();
    s.history.AddMove(Rock, Scissors);
    s.history.AddMove(Paper, Rock);
    s.history.AddMove(Scissors, Paper);
    s.history.AddMove(Rock, Rock);
    m := s.GetLessCommonUserMove(0);
    assert s.history.movesList == FourRounds;
    FourRoundsCounts();
  }

  /** `test_make_move_first_move`: `random.choice` patched to rock (index 0). */
  method FirstTurn() returns (status: Status, last: Result<Pair>)
    ensures status == Done && last == Ok(Pair(Paper, Rock))
  {
    var s := new Server();
    status := s.MakeTurn(Paper, 1, 0, 0);
    last := s.history.GetLastMove();
  }

  /** `test_make_move_user_wins` with `randint` patched to 3: the counter rock is
      appended and then a move drawn from paper and scissors, so the newest
      pair is never `[scissors, rock]`. */
  method TurnAfterUserWin(choice2: nat) returns (all: seq<Pair>)
    requires choice2 < 2
    ensures |all| == 3 && all[..2] == [Pair(Scissors, Paper), Pair(Scissors, Rock)]
    ensures all[2].user == Scissors && all[2].computer != Rock
    ensures all[2] == Pair(Scissors, [Paper, Scissors][choice2])
  {
    var s := new Server();
    s.rounds := [UserWin];
    s.history.AddMove(Scissors, Paper);
    var status := s.MakeTurn(Scissors, 3, 0, choice2);
    all := s.history.GetAllMoves();
    assert AllMoves[..2] == [Rock, Paper] && AllMoves[3..] == [];
    assert RemoveFirst(AllMoves, Rock) == [Paper, Scissors];
  }

  /** `test_make_move_computer_wins` with `randint` patched to 3: the user, having
      lost with rock, is expected to play paper, and scissors beats it. */
  method TurnAfterComputerWin() returns (last: Result<Pair>)
    ensures last == Ok(Pair(Paper, Scissors))
  {
    var s := new Server();
    s.rounds := [ComputerWin];
    s.history.AddMove(Rock, Paper);
    var status := s.MakeTurn(Paper, 3, 0, 0);
    last := s.history.GetLastMove();
  }

  /** `test_make_move_draw` with `randint` patched to 3 and `random.choice` to rock. */
  method TurnAfterDraw() returns (last: Result<Pair>)
    ensures last == Ok(Pair(Rock, Rock))
  {
    var s := new Server();
    s.rounds := [Draw];
    s.history.AddMove(Rock, Rock);
    var status := s.MakeTurn(Rock, 3, 0, 0);
    last := s.history.GetLastMove();
  }

  /** `test_get_result_user_wins`: rock beats scissors, so the computer wins (code 1). */
  method ResultAfterRock() returns (rounds: seq<Outcome>)
    ensures rounds == [ComputerWin]
  {
    var s := new Server();
    s.history.AddMove(Scissors, Rock);
    var status := s.GetResult();
    rounds := s.rounds;
  }

  /** `test_get_result_computer_wins`: paper beats rock; one point in slot 1. */
  method ResultAfterPaper() returns (result: seq<nat>)
    ensures result == [0, 1, 0]
  {
    var s := new Server();
    s.history.AddMove(Rock, Paper);
    var status := s.GetResult();
    result := s.result;
  }

  /** `test_get_result_draw`: equal moves draw; one point in slot 2. */
  method ResultAfterDraw() returns (result: seq<nat>)
    ensures result == [0, 0, 1]
  {
    var s := new Server();
    s.history.AddMove(Rock, Rock);
    var status := s.GetResult();
    result := s.result;
  }

  /** One pass of the loop on a fresh session: rock against the drawn rock
      is a draw, and both rocks are counted. */
  method FirstRound() returns (all: seq<Pair>, rounds: seq<Outcome>, result: seq<nat>, counted: map<Move, nat>)
    ensures all == [Pair(Rock, Rock)] && rounds == [Draw] && result == [0, 0, 1]
    ensures counted == map[Rock := 2, Paper := 0, Scissors := 0]
  {
    var s := new Server();
    var status := s.PlayRound(Rock, 1, 0, 0);
    all := s.history.GetAllMoves();
    rounds, result, counted := s.rounds, s.result, s.countMoves;
  }

  /** Two rounds of play from a fresh session, each with its own draws, keep
      every counter consistent. */
  method TwoRounds(u1: Move, u2: Move, r1: int, r2: int, c1: nat, c2: nat, d1: nat, d2: nat)
    returns (scores: nat, counted: nat)
    requires 1 <= r1 <= 10 && 1 <= r2 <= 10 && c1 < 3 && c2 < 3 && d1 < 2 && d2 < 2
    ensures scores == 2 && counted == 4
  {
    var s := new Server();
    var st1 := s.PlayRound(u1, r1, c1, d1);
    var st2 := s.PlayRound(u2, r2, c2, d2);
    TalliedScores(s.rounds, s.result, s.countMoves);
    scores := s.result[0] + s.result[1] + s.result[2];
    counted := Total(s.countMoves);
  }
}
