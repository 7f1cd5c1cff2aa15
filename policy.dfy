/** The move-selection policy of `Server`, as functions of the history, the
    last outcome and the random draws. */
module Policy {
  import opened Rules
  import opened History

  /** How often `m` occurs as the SECOND component (`move[1]`, the computer's
      move) of the pairs in `h`: the tally of `get_less_common_user_move`. */
  function Count(h: seq<Pair>, m: Move): (n: nat)
    ensures n <= |h|
  {
    if h == [] then 0
    else Count(h[..|h| - 1], m) + (if h[|h| - 1].computer == m then 1 else 0)
  }

  /** Every pair is counted under exactly one move. */
  lemma {:induction false} CountsPartition(h: seq<Pair>)
    ensures Count(h, Rock) + Count(h, Paper) + Count(h, Scissors) == |h|
  {
    if h != [] {
      CountsPartition(h[..|h| - 1]);
    }
  }

  /** The count dictionary `{"rock": .., "paper": .., "scissors": ..}` after the loop. */
  function Tally(h: seq<Pair>): (count: map<Move, nat>)
    ensures Rock in count && Paper in count && Scissors in count
    ensures forall x :: x in count ==> count[x] == Count(h, x)
  {
    map[Rock := Count(h, Rock), Paper := Count(h, Paper), Scissors := Count(h, Scissors)]
  }

  /** `min(count, key=count.get)`: scans rock, paper, scissors and replaces the
      candidate only on a strictly smaller count, so ties go to the earlier key. */
  function FirstMinimum(count: map<Move, nat>): (m: Move)
    requires Rock in count && Paper in count && Scissors in count
    ensures m in count
    ensures forall j :: 0 <= j < |AllMoves| ==> count[m] <= count[AllMoves[j]]
    ensures forall j :: 0 <= j < Index(m) ==> count[m] < count[AllMoves[j]]
  {
    var best := if count[Paper] < count[Rock] then Paper else Rock;
    if count[Scissors] < count[best] then Scissors else best
  }

  /** `get_less_common_user_move()` on history `h`, with `fallback` the index
      `random.choice` draws on an empty history. */
  function LeastCommon(h: seq<Pair>, fallback: nat): (m: Move)
    requires fallback < |AllMoves|
    ensures h == [] ==> m == AllMoves[fallback]
    ensures h != [] ==> forall j :: 0 <= j < |AllMoves| ==> Count(h, m) <= Count(h, AllMoves[j])
    ensures h != [] ==> forall j :: 0 <= j < Index(m) ==> Count(h, m) < Count(h, AllMoves[j])
  {
    if h == [] then AllMoves[fallback] else FirstMinimum(Tally(h))
  }

  /** A move is least common in the order rock, paper, scissors exactly when
      it is what `LeastCommon` returns: no move is counted less often, and
      every move before it is counted more often. */
  lemma LeastCommonUnique(h: seq<Pair>, fallback: nat, x: Move)
    requires h != [] && fallback < |AllMoves|
    ensures x == LeastCommon(h, fallback) <==>
      && (forall j :: 0 <= j < |AllMoves| ==> Count(h, x) <= Count(h, AllMoves[j]))
      && (forall j :: 0 <= j < Index(x) ==> Count(h, x) < Count(h, AllMoves[j]))
  {
    var m := LeastCommon(h, fallback);
    assert AllMoves[Index(m)] == m && AllMoves[Index(x)] == x;
  }

  /** Position of the first occurrence of `x` in `s`. */
  function FirstIndex(s: seq<Move>, x: Move): (k: nat)
    requires x in s
    ensures k < |s| && s[k] == x && x !in s[..k]
  {
    if s[0] == x then 0 else 1 + FirstIndex(s[1..], x)
  }

  /** `list.remove(x)`: drops the first occurrence of `x`, keeping the order of the rest. */
  function RemoveFirst(s: seq<Move>, x: Move): (r: seq<Move>)
    requires x in s
    ensures r == s[..FirstIndex(s, x)] + s[FirstIndex(s, x) + 1..]
  {
    if s[0] == x then s[1..] else [s[0]] + RemoveFirst(s[1..], x)
  }

  /** `other_moves` after removing `m` from `possible_moves`: the other two moves. */
  lemma OtherMoves(m: Move)
    ensures |RemoveFirst(AllMoves, m)| == 2
    ensures m !in RemoveFirst(AllMoves, m)
    ensures forall x :: x != m ==> x in RemoveFirst(AllMoves, m)
    ensures RemoveFirst(AllMoves, m)[0] != RemoveFirst(AllMoves, m)[1]
  {
    assert AllMoves[1..] == [Paper, Scissors] && AllMoves[1..][1..] == [Scissors];
    match m
    case Rock =>
      assert RemoveFirst(AllMoves, m) == [Paper, Scissors];
    case Paper =>
      assert RemoveFirst(AllMoves[1..], m) == [Scissors];
      assert RemoveFirst(AllMoves, m) == [Rock, Scissors];
    case Scissors =>
      assert RemoveFirst(AllMoves[1..][1..], m) == [];
      assert RemoveFirst(AllMoves[1..], m) == [Paper];
      assert RemoveFirst(AllMoves, m) == [Rock, Paper];
  }

  /** The pairs `make_turn(u)` appends after a user win, `prev` being the
      user's move in the newest pair. `if random_number < 5` is followed by a
      separate `if ... == 5 / else`, so a draw below 5 appends the counter AND
      a move from the other two. */
  function UserWinReply(u: Move, prev: Move, h: seq<Pair>, r: int, choice3: nat, choice2: nat): seq<Pair>
    requires 1 <= r <= 10 && choice3 < 3 && choice2 < 2
  {
    var counter := WinOf(prev);
    (if r < 5 then [Pair(u, counter)] else [])
    + (if r == 5 then [Pair(u, WinOf(LeastCommon(h, choice3)))]
       else [Pair(u, RemoveFirst(AllMoves, counter)[choice2])])
  }

  /** `UserWinReply` by cases of the draw `r`. */
  lemma UserWinReplyCases(u: Move, prev: Move, h: seq<Pair>, r: int, choice3: nat, choice2: nat)
    requires 1 <= r <= 10 && choice3 < 3 && choice2 < 2
    ensures var others := RemoveFirst(AllMoves, WinOf(prev));
      && (r < 5 ==> UserWinReply(u, prev, h, r, choice3, choice2) == [Pair(u, WinOf(prev)), Pair(u, others[choice2])])
      && (r == 5 ==> UserWinReply(u, prev, h, r, choice3, choice2) == [Pair(u, WinOf(LeastCommon(h, choice3)))])
      && (r > 5 ==> UserWinReply(u, prev, h, r, choice3, choice2) == [Pair(u, others[choice2])])
  {
  }

  /** The pair `make_turn(u)` appends after a computer win. */
  function ComputerWinReply(u: Move, prev: Move, h: seq<Pair>, r: int, choice3: nat, choice2: nat): seq<Pair>
    requires 1 <= r <= 10 && choice3 < 3 && choice2 < 2
  {
    var double := WinOf(WinOf(prev));
    if r < 5 then [Pair(u, double)]
    else if r == 5 then [Pair(u, WinOf(LeastCommon(h, choice3)))]
    else [Pair(u, RemoveFirst(AllMoves, double)[choice2])]
  }

  /** The pair `make_turn(u)` appends after a draw. */
  function DrawReply(u: Move, h: seq<Pair>, r: int, choice3: nat): seq<Pair>
    requires 1 <= r <= 10 && choice3 < 3
  {
    if r <= 5 then [Pair(u, AllMoves[choice3])]
    else [Pair(u, WinOf(LeastCommon(h, choice3)))]
  }

  /** The pairs `make_turn(u)` appends, in order. `last` is `rounds[-1]`
      (`None` when `rounds` is empty), `h` the history at the call, `r` the
      `randint(1, 10)` draw, `choice3` the index drawn by `random.choice` from
      three moves, `choice2` the index drawn from `other_moves`. */
  function Reply(u: Move, last: Option<Outcome>, h: seq<Pair>, r: int, choice3: nat, choice2: nat): seq<Pair>
    requires last.Some? ==> h != []
    requires 1 <= r <= 10 && choice3 < 3 && choice2 < 2
  {
    match last
    case None => [Pair(u, AllMoves[choice3])]
    case Some(UserWin) => UserWinReply(u, h[|h| - 1].user, h, r, choice3, choice2)
    case Some(ComputerWin) => ComputerWinReply(u, h[|h| - 1].user, h, r, choice3, choice2)
    case Some(Draw) => DrawReply(u, h, r, choice3)
  }

  /** The last outcome `make_turn` branches on. */
  function LastOutcome(rounds: seq<Outcome>): Option<Outcome> {
    if rounds == [] then None else Some(rounds[|rounds| - 1])
  }

  /** Every turn appends pairs whose first component is the user's move: one
      pair, except after a user win with a draw below 5, which appends two. */
  lemma ReplyShape(u: Move, last: Option<Outcome>, h: seq<Pair>, r: int, choice3: nat, choice2: nat)
    requires last.Some? ==> h != []
    requires 1 <= r <= 10 && choice3 < 3 && choice2 < 2
    ensures |Reply(u, last, h, r, choice3, choice2)| == if last == Some(UserWin) && r < 5 then 2 else 1
    ensures forall i :: 0 <= i < |Reply(u, last, h, r, choice3, choice2)| ==> Reply(u, last, h, r, choice3, choice2)[i].user == u
  {
    var ps := Reply(u, last, h, r, choice3, choice2);
    match last
    case None =>
    case Some(UserWin) =>
      if r < 5 {
        assert ps[0].user == u && ps[1].user == u;
      }
    case Some(ComputerWin) =>
    case Some(Draw) =>
  }

  /** Whatever the window was, after a turn its newest pair carries the user's move. */
  lemma ReplyNewest(u: Move, last: Option<Outcome>, h: seq<Pair>, r: int, choice3: nat, choice2: nat, n: nat)
    requires last.Some? ==> h != []
    requires 1 <= r <= 10 && choice3 < 3 && choice2 < 2 && n > 0
    ensures var w := Keep(h + Reply(u, last, h, r, choice3, choice2), n);
      w != [] && w[|w| - 1].user == u
  {
    var ps := Reply(u, last, h, r, choice3, choice2);
    ReplyShape(u, last, h, r, choice3, choice2);
    KeepLast(h + ps, n);
    assert (h + ps)[|h + ps| - 1] == ps[|ps| - 1];
  }

  /** First round (`rounds` empty): the move `random.choice` draws, and every
      move is some draw. */
  lemma ReplyFirstRound(u: Move, h: seq<Pair>, r: int, choice3: nat, choice2: nat)
    requires 1 <= r <= 10 && choice3 < 3 && choice2 < 2
    ensures Reply(u, None, h, r, choice3, choice2) == [Pair(u, AllMoves[choice3])]
    ensures forall x :: exists c :: 0 <= c < 3 && Reply(u, None, h, r, c, choice2) == [Pair(u, x)]
  {
    forall x ensures exists c :: 0 <= c < 3 && Reply(u, None, h, r, c, choice2) == [Pair(u, x)] {
      assert Reply(u, None, h, r, Index(x), choice2) == [Pair(u, x)];
    }
  }

  /** After a user win, with `prev` the user's last move and `counter` the move beating it. */
  lemma ReplyAfterUserWin(u: Move, h: seq<Pair>, r: int, choice3: nat, choice2: nat)
    requires h != []
    requires 1 <= r <= 10 && choice3 < 3 && choice2 < 2
    ensures var ps, counter := Reply(u, Some(UserWin), h, r, choice3, choice2), WinOf(h[|h| - 1].user);
      && Beats(counter, h[|h| - 1].user)
      && (r < 5 ==> |ps| == 2 && ps[0] == Pair(u, counter) && ps[1].user == u && ps[1].computer != counter)
      && (r == 5 ==> ps == [Pair(u, WinOf(LeastCommon(h, choice3)))] && Beats(ps[0].computer, LeastCommon(h, choice3)))
      && (r > 5 ==> |ps| == 1 && ps[0].user == u && ps[0].computer != counter)
  {
    OtherMoves(WinOf(h[|h| - 1].user));
  }

  /** After a user win and a draw other than 5, the move drawn from `other_moves`
      ranges over exactly the two moves other than the counter. */
  lemma UserWinOthersCover(u: Move, h: seq<Pair>, r: int, choice3: nat, x: Move)
    requires h != []
    requires 1 <= r <= 10 && r != 5 && choice3 < 3
    requires x != WinOf(h[|h| - 1].user)
    ensures exists c :: 0 <= c < 2 && Reply(u, Some(UserWin), h, r, choice3, c)[|Reply(u, Some(UserWin), h, r, choice3, c)| - 1] == Pair(u, x)
  {
    var others := RemoveFirst(AllMoves, WinOf(h[|h| - 1].user));
    OtherMoves(WinOf(h[|h| - 1].user));
    var c := if others[0] == x then 0 else 1;
    var ps := Reply(u, Some(UserWin), h, r, choice3, c);
    assert ps[|ps| - 1] == Pair(u, others[c]);
  }

  /** After a computer win, with `double` = `get_win_of(get_win_of(prev))`: the
      move that `prev` beats, never `prev` itself. */
  lemma ReplyAfterComputerWin(u: Move, h: seq<Pair>, r: int, choice3: nat, choice2: nat)
    requires h != []
    requires 1 <= r <= 10 && choice3 < 3 && choice2 < 2
    ensures var ps, prev := Reply(u, Some(ComputerWin), h, r, choice3, choice2), h[|h| - 1].user;
      && |ps| == 1 && ps[0].user == u
      && (r < 5 ==> Beats(prev, ps[0].computer) && ps[0].computer != prev)
      && (r == 5 ==> Beats(ps[0].computer, LeastCommon(h, choice3)))
      && (r > 5 ==> !Beats(prev, ps[0].computer))
  {
    var double := WinOf(WinOf(h[|h| - 1].user));
    WinOfCycle(h[|h| - 1].user);
    OtherMoves(double);
  }

  /** After a computer win and a draw above 5, the move drawn from `other_moves`
      ranges over exactly the two moves other than the double counter. */
  lemma ComputerWinOthersCover(u: Move, h: seq<Pair>, r: int, choice3: nat, x: Move)
    requires h != []
    requires 5 < r <= 10 && choice3 < 3
    requires x != WinOf(WinOf(h[|h| - 1].user))
    ensures exists c :: 0 <= c < 2 && Reply(u, Some(ComputerWin), h, r, choice3, c) == [Pair(u, x)]
  {
    var others := RemoveFirst(AllMoves, WinOf(WinOf(h[|h| - 1].user)));
    OtherMoves(WinOf(WinOf(h[|h| - 1].user)));
    var c := if others[0] == x then 0 else 1;
    assert Reply(u, Some(ComputerWin), h, r, choice3, c) == [Pair(u, others[c])];
  }

  /** After a draw: a uniformly drawn move up to 5, else the move beating the least common one. */
  lemma ReplyAfterDraw(u: Move, h: seq<Pair>, r: int, choice3: nat, choice2: nat)
    requires h != []
    requires 1 <= r <= 10 && choice3 < 3 && choice2 < 2
    ensures var ps := Reply(u, Some(Draw), h, r, choice3, choice2);
      && |ps| == 1 && ps[0].user == u
      && (r <= 5 ==> ps[0].computer == AllMoves[choice3])
      && (r > 5 ==> Beats(ps[0].computer, LeastCommon(h, choice3)))
  {
  }
}
