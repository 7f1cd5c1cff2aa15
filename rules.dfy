/** The three gestures, the table of which gesture beats which, and the
    classification of one round. */
module Rules {

  datatype Move = Rock | Paper | Scissors

  /** `possible_moves` and the key order of every count dictionary:
      rock, paper, scissors. */
  const AllMoves: seq<Move> := [Rock, Paper, Scissors]

  /** A move is one of the three gestures. */
  lemma MoveCases(m: Move)
    ensures m == Rock || m == Paper || m == Scissors
  {
  }

  /** Position of a move in `AllMoves`. */
  function Index(m: Move): (i: nat)
    ensures i < |AllMoves| && AllMoves[i] == m
  {
    match m
    case Rock => 0
    case Paper => 1
    case Scissors => 2
  }

  /** The rules of the game, written independently of the lookup table:
      paper beats rock, scissors beats paper, rock beats scissors. */
  predicate Beats(a: Move, b: Move) {
    (a == Paper && b == Rock) || (a == Scissors && b == Paper) || (a == Rock && b == Scissors)
  }

  /** `get_win_of(m)`, i.e. `loses[m]`: the move that beats `m`. */
  function WinOf(m: Move): (w: Move)
    ensures Beats(w, m)
  {
    match m
    case Scissors => Rock
    case Paper => Scissors
    case Rock => Paper
  }

  /** `WinOf(m)` is the only move that beats `m`. */
  lemma WinOfUnique(m: Move, x: Move)
    ensures Beats(x, m) <==> x == WinOf(m)
  {
  }

  /** Between two different moves exactly one beats the other; no move beats itself. */
  lemma BeatsTrichotomy(a: Move, b: Move)
    ensures !Beats(a, a)
    ensures a != b ==> (Beats(a, b) <==> !Beats(b, a))
  {
  }

  /** `WinOf` is a permutation of the three moves without a fixed point. */
  lemma WinOfPermutation(a: Move, b: Move)
    ensures WinOf(a) != a
    ensures WinOf(a) == WinOf(b) ==> a == b
    ensures exists x :: WinOf(x) == a
  {
    assert WinOf(WinOf(WinOf(a))) == a;
  }

  /** Applying `WinOf` three times returns the argument; twice does not,
      and twice gives the move that the argument beats. */
  lemma WinOfCycle(m: Move)
    ensures WinOf(WinOf(WinOf(m))) == m
    ensures WinOf(WinOf(m)) != m
    ensures Beats(m, WinOf(WinOf(m)))
  {
  }

  /** One round as the history stores it: `[user_move, computer_move]`. */
  datatype Pair = Pair(user: Move, computer: Move)

  /** The outcome codes kept in `rounds`. */
  datatype Outcome = UserWin | ComputerWin | Draw

  /** The integer code of an outcome: 0 user won, 1 computer won, 2 draw;
      also the slot of `result` that counts it. */
  function Code(o: Outcome): (c: nat)
    ensures c < 3
  {
    match o
    case UserWin => 0
    case ComputerWin => 1
    case Draw => 2
  }

  /** Different outcomes occupy different slots of `result`. */
  lemma CodeInjective(o: Outcome, o': Outcome)
    ensures Code(o) == Code(o') ==> o == o'
  {
  }

  /** The test `get_result` applies to the newest pair: equal moves are a
      draw, the computer wins with `loses[user]`, the user wins otherwise. */
  function Classify(p: Pair): (o: Outcome)
    ensures o == Draw <==> p.user == p.computer
    ensures o == ComputerWin <==> Beats(p.computer, p.user)
    ensures o == UserWin <==> Beats(p.user, p.computer)
  {
    if p.user == p.computer then Draw
    else if p.computer == WinOf(p.user) then ComputerWin
    else UserWin
  }

  datatype Option<T> = None | Some(value: T)

  /** The one failure of the core: `deque[-1]` on an empty history. */
  datatype Error = EmptyHistory

  datatype Result<T> = Ok(value: T) | Err(error: Error)

  /** What a state-changing operation reports: done, or raised before
      changing anything. */
  datatype Status = Done | Failed(error: Error)
}
