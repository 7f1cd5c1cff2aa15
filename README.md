# Rock-paper-scissors server, modelled in Dafny

This project models the game logic of `application/server.py`: a
rock-paper-scissors opponent that remembers recent play and picks its move
from the outcome of the previous round.

- `rules.dfy` (module `Rules`) holds the three moves and the `loses` table
  (`WinOf`). It also holds an independent statement of the rules (`Beats`),
  the outcome codes 0/1/2 that `rounds` stores, and the classification
  `get_result` applies to a pair.
- `history.dfy` (module `History`) holds the class `Moves`: the bounded
  `deque(maxlen=max_length)` of `[user_move, computer_move]` pairs, a
  `seq<Pair>` field that `AddMove` updates in place. The list is specified by
  `Keep(s, n)`, the last `n` elements of everything appended, and the lemmas
  show that it behaves as a FIFO window.
- `policy.dfy` (module `Policy`) holds the least-common-move query
  (`Count`, `Tally`, `FirstMinimum`, `LeastCommon`) and `list.remove`
  (`RemoveFirst`). `Reply` is the sequence of pairs one `make_turn` call
  appends, as a function of the last outcome, the history and the random
  draws. The lemmas state what each branch of the policy chooses.
- `session.dfy` (module `Session`) holds the class `Server` with fields
  `history`, `rounds`, `result` and `countMoves`. Its methods
  `GetLessCommonUserMove` (a loop that fills the count dictionary),
  `MakeTurn` and `GetResult` follow the source's branches and updates in
  order. The differences in form are listed under "Left out". Each method
  is proved against the functions above. `Tallied` is the invariant
  that ties `result` and `count_moves` to `rounds`, and `GetResult` and
  `PlayRound` preserve it.
- `scenarios.dfy` (module `Scenarios`) replays the unit tests of
  `application/tests/test_server.py`. The draws that the tests patch with
  `unittest.mock` become fixed arguments.

Randomness is passed in as arguments:

- `r` stands for `random.randint(1, 10)`, with `1 <= r <= 10`.
- `choice3 < 3` is the index `random.choice` draws from the three moves. It
  is also the draw `get_less_common_user_move` makes on an empty history.
- `choice2 < 2` is the index drawn from `other_moves`.

`deque[-1]` raises on an empty history. The model returns this as the error
`EmptyHistory`: `GetLastMove` returns `Err(EmptyHistory)`, and `MakeTurn`
and `GetResult` return `Failed(EmptyHistory)`. In that case nothing has
changed, because the source raises before it mutates anything.

The model follows the code where the code and its comments disagree:

- The docstring at `server.py:18` says pairs are `[computer_move,
  user_move]`, but line 21 stores `[user_move, computer_move]`. The model's
  `Pair(user, computer)` follows line 21.
- `get_less_common_user_move` is named and documented as being about the
  user's moves. Line 70 counts `move[1]`, which is the computer's move, and
  `Count` counts that component.
- After a user win, line 86 is `if`, not `elif`. So for `r < 5` the move
  beating the user's last move is appended, and then a second pair drawn
  from the other two moves. `ReplyShape` and `ReplyAfterUserWin` state
  this. The comments' 40/10/50 split does not describe this behaviour.
- Every `make_turn` test calls `make_move`, which `Server` does not define.
  The scenarios call `MakeTurn` instead.
- `test_make_move_user_wins` expects the newest pair to be
  `['scissors', 'rock']`. `Scenarios.TurnAfterUserWin` shows that on that
  input the newest pair's computer move is paper or scissors, never rock.
- `test_get_result_user_wins` is named for a user win. Its pair
  `['scissors', 'rock']` is a computer win (code 1), which is also what the
  test asserts.

## Model

| member | source | states |
|---|---|---|
| Rules.WinOf | application/server.py:5-9 | `loses[m]` beats `m` under the rules of the game |
| Rules.WinOfUnique | application/server.py:155-160 | `get_win_of(m)` is the one and only move that beats `m` |
| Rules.WinOfPermutation | application/server.py:5-9 | the `loses` table is a permutation of the three moves with no fixed point: injective, onto and never the identity |
| Rules.WinOfCycle | application/server.py:97 | applying `get_win_of` three times returns the move, applying it twice does not, and twice gives the move that the argument beats |
| Rules.BeatsTrichotomy | application/server.py:125-136 | no move beats itself, and of two different moves exactly one beats the other, so the three-way classification is exhaustive |
| Rules.Code | application/server.py:38 | the outcome codes are 0, 1 and 2 |
| Rules.CodeInjective | application/server.py:40 | different outcomes count in different slots of `result` |
| Rules.Classify | application/server.py:125-136 | a draw exactly when the moves are equal; a computer win exactly when the computer's move beats the user's; a user win exactly when the user's move beats the computer's |
| History.Keep | application/server.py:15 | definition of what `deque(maxlen=n)` retains of a run of appends: the last `n` elements, or all of them when there are fewer; its properties are the `Keep*` and `ReplayIsWindow` lemmas |
| History.KeepBounded | application/server.py:15 | the retained window never exceeds the capacity and is a suffix of everything appended |
| History.KeepConcat | application/server.py:21 | trimming to the capacity before further appends does not change the window that results |
| History.KeepAppend | application/server.py:21 | appending to a trimmed window gives the same result as trimming once after the append |
| History.ReplayIsWindow | application/server.py:13-21 | FIFO law: after any run of single appends, each of which evicts the oldest pair when the window is full, the window holds exactly the newest `n` pairs in order |
| History.KeepLast | application/server.py:27-29 | after appends with a positive capacity the window is non-empty and its newest element is the one appended last |
| History.Moves.constructor | application/server.py:13-15 | a new history is empty with the given capacity |
| History.Moves.AddMove | application/server.py:17-21 | the list becomes the window of the old list plus `[user_move, computer_move]`, and stays within capacity |
| History.Moves.GetAllMoves | application/server.py:23-25 | returns the retained pairs, oldest first |
| History.Moves.GetLastMove | application/server.py:27-29 | returns the newest pair, user move first; fails exactly when the history is empty |
| Policy.Count | application/server.py:68-70 | a move's count never exceeds the number of pairs |
| Policy.CountsPartition | application/server.py:68-70 | each pair is counted under exactly one move, so the three counts sum to the number of pairs |
| Policy.Tally | application/server.py:68-70 | the count dictionary has the three keys, each mapped to its count of second components |
| Policy.FirstMinimum | application/server.py:71 | `min(count, key=count.get)` returns a key whose count is no larger than any other key's, and every key before it in the order rock, paper, scissors has a strictly larger count |
| Policy.LeastCommon | application/server.py:60-71 | on an empty history, the drawn move; otherwise the first move, in the order rock, paper, scissors, with the smallest count of second components |
| Policy.LeastCommonUnique | application/server.py:71 | a move is the result exactly when it has minimal count and every earlier move has a larger count, so the two conditions determine the result |
| Policy.FirstIndex | application/server.py:92 | the position of the first occurrence of the removed element |
| Policy.RemoveFirst | application/server.py:92 | `list.remove(x)` drops exactly the first occurrence of `x` and keeps the rest in order |
| Policy.OtherMoves | application/server.py:91-93 | `other_moves` holds the two moves other than the removed one, once each |
| Policy.UserWinReply | application/server.py:80-94 | definition of the pairs appended after a user win: the counter for `r < 5`, followed by one more pair, which is the move beating the least common move for `r == 5` and otherwise the `choice2` entry of `other_moves`; its properties are `UserWinReplyCases`, `ReplyAfterUserWin` and `UserWinOthersCover` |
| Policy.UserWinReplyCases | application/server.py:84-94 | after a user win, the pairs appended for draws below 5, equal to 5 and above 5 |
| Policy.ComputerWinReply | application/server.py:95-109 | definition of the one pair appended after a computer win: the double counter for `r < 5`, the move beating the least common move for `r == 5`, otherwise the `choice2` entry of the other two moves; its properties are `ReplyAfterComputerWin` and `ComputerWinOthersCover` |
| Policy.DrawReply | application/server.py:110-118 | definition of the one pair appended after a draw: the `choice3` move for `r <= 5`, otherwise the move beating the least common move; its properties are `ReplyAfterDraw` |
| Policy.LastOutcome | application/server.py:75-80 | definition of the outcome `make_turn` branches on: none for an empty `rounds`, otherwise `rounds[-1]` |
| Policy.Reply | application/server.py:73-118 | definition of the pairs one `make_turn` call appends, chosen by the last outcome; `MakeTurn` is proved to append exactly these, and `ReplyShape`, `ReplyNewest`, `ReplyFirstRound` and the `ReplyAfter*` lemmas state its properties |
| Policy.ReplyShape | application/server.py:73-118 | every turn appends one pair, or two after a user win with a draw below 5, and each appended pair carries the user's move first |
| Policy.ReplyNewest | application/server.py:73-118 | after any turn the history is non-empty and its newest pair is the user's move paired with the computer's |
| Policy.ReplyFirstRound | application/server.py:75-78 | in the first round exactly one pair is appended, carrying the drawn move, and every move is drawn by some choice |
| Policy.ReplyAfterUserWin | application/server.py:80-94 | after a user win: for `r < 5`, the counter to the user's last move and then a different move; for `r == 5`, a single move beating the least common one; for `r > 5`, a single move other than the counter |
| Policy.UserWinOthersCover | application/server.py:90-94 | after a user win with `r != 5`, the choice from `other_moves` reaches each move other than the counter |
| Policy.ReplyAfterComputerWin | application/server.py:95-109 | after a computer win one pair is appended: for `r < 5`, a move that the user's last move beats; for `r == 5`, a move beating the least common one; for `r > 5`, a move that the user's last move does not beat |
| Policy.ComputerWinOthersCover | application/server.py:105-109 | after a computer win with `r > 5`, the choice from `other_moves` reaches each move other than the double counter |
| Policy.ReplyAfterDraw | application/server.py:110-118 | after a draw one pair is appended: the drawn move for `r <= 5`, otherwise a move beating the least common one |
| Session.Occurrences | application/server.py:38 | the number of rounds with a given outcome never exceeds the number of rounds |
| Session.OccurrencesPartition | application/server.py:38 | every round has exactly one outcome |
| Session.TalliedScores | application/server.py:40 | in a tallied state the three scores sum to the number of rounds |
| Session.RecordKeepsTallied | application/server.py:120-136 | recording a pair (one more outcome, one point in its slot, two more counted moves) keeps the scores and move counts consistent with `rounds` |
| Session.Server.constructor | application/server.py:36-45 | a new server has an empty history of capacity 30, no rounds and zero counters, and is in a reachable state |
| Session.Server.GetLessCommonUserMove | application/server.py:60-71 | the counting loop returns the least common second component of the current history, or the drawn move when the history is empty |
| Session.Server.MakeTurn | application/server.py:73-118 | fails without change exactly when `rounds` is non-empty and the history is empty; otherwise the history becomes the window of the old history plus `Reply` for the last outcome and draws |
| Session.Server.AnswerFirst | application/server.py:75-78 | the first round appends the pair with the drawn move |
| Session.Server.Answer | application/server.py:79-118 | the branch on `rounds[-1]` appends the pairs `Reply` specifies |
| Session.Server.AnswerUserWin | application/server.py:80-94 | the user-win branch, with its `if` / `if-else` sequence, appends the pairs `UserWinReply` specifies |
| Session.Server.AnswerComputerWin | application/server.py:95-109 | the computer-win branch appends the pair `ComputerWinReply` specifies |
| Session.Server.AnswerDraw | application/server.py:110-118 | the draw branch appends the pair `DrawReply` specifies |
| Session.Server.GetResult | application/server.py:120-136 | fails without change on an empty history; otherwise it appends the code of the newest pair to `rounds`, increments only that slot of `result`, counts both moves, and keeps the state reachable |
| Session.Server.PlayRound | application/server.py:57-58 | from a reachable state, one pass of the loop succeeds: the history becomes the window of the old history plus `Reply` for the last outcome and the draws; the newest pair carries the user's move; its outcome is appended to `rounds` and scored in its slot of `result`; both of its moves are counted; and the state stays reachable |
| Scenarios.AddMoveOverflow | application/tests/test_server.py:16-22 | with capacity 3, the fourth append evicts the oldest pair |
| Scenarios.LastMove | application/tests/test_server.py:24-30 | `get_last_move` returns the pair added last |
| Scenarios.LastMoveEmpty | application/server.py:27-29 | `get_last_move` on an empty history is the `EmptyHistory` error |
| Scenarios.FourRoundsCounts | application/tests/test_server.py:64-68 | in that test's history rock occurs twice as second component, and paper and scissors once each |
| Scenarios.LessCommonWithMoves | application/tests/test_server.py:64-69 | the least common move of that history is paper |
| Scenarios.FirstTurn | application/tests/test_server.py:71-75 | the first turn with `random.choice` returning rock appends `[paper, rock]` |
| Scenarios.TurnAfterUserWin | application/tests/test_server.py:77-83 | with `randint` returning 3, the turn appends `[scissors, rock]` and then `[scissors, paper]` or `[scissors, scissors]`, so the newest pair is never the `['scissors', 'rock']` the test expects |
| Scenarios.TurnAfterComputerWin | application/tests/test_server.py:85-91 | with `randint` returning 3, the turn appends `[paper, scissors]` |
| Scenarios.TurnAfterDraw | application/tests/test_server.py:93-100 | with `randint` returning 3 and `random.choice` returning rock, the turn appends `[rock, rock]` |
| Scenarios.ResultAfterRock | application/tests/test_server.py:102-105 | `[scissors, rock]` is recorded as a computer win |
| Scenarios.ResultAfterPaper | application/tests/test_server.py:107-112 | `[rock, paper]` puts one point in the computer's slot |
| Scenarios.ResultAfterDraw | application/tests/test_server.py:114-119 | `[rock, rock]` puts one point in the draw slot |
| Scenarios.FirstRound | application/server.py:57-58 | on a fresh server, one pass of the loop with user rock and drawn rock leaves the history `[[rock, rock]]`, scores a draw and counts rock twice |
| Scenarios.TwoRounds | application/server.py:51-58 | after two rounds from a fresh server, each with its own draws, the scores sum to 2 and four moves have been counted |

## Left out

- `Server.start` and `Server.get_user_move` (`server.py:47-58`,
  `139-153`) are terminal input and output. This includes the lower-casing,
  the re-prompting on a wrong word, and the `stop` and `stats` commands.
  `PlayRound` models one pass of the loop for a valid move.
- The `print` calls in `get_result` and `start` produce output only. Their
  state updates are modelled.
- The random generator and its distribution are not modelled. The draws
  are arguments, and the 40/10/50 percentages in the comments are not
  stated.
- `Moves.__repr__` (`server.py:31-32`) depends on Python's `str()` of a list.
- The `computer_move` field (`server.py:39`) is set to `None` and never
  read or written again.
- Strings other than the three moves are refused by `get_user_move` before
  they reach the core. The `KeyError` that `loses[m]` or `count_moves[m]`
  would raise on them is excluded by the type `Move`.
- `rounds` only ever holds 0, 1 or 2, since `get_result` appends nothing
  else. The branch chain at `server.py:80`, `95` and `110` has no final
  `else`, so any other `rounds[-1]` would append nothing. The type
  `Outcome` excludes that case.
- `other_moves = possible_moves` aliases the local list that `remove`
  then mutates. `possible_moves` is never read again after the `remove`,
  so the model treats `RemoveFirst` as a new value.
- `make_turn` is one method in the source. The model splits its branches
  into the helper methods `AnswerFirst`, `Answer`, `AnswerUserWin`,
  `AnswerComputerWin` and `AnswerDraw`. Each branch calls `AddMove` where
  the source calls `add_move`, in the same order.
- The classification in `get_result` is an `if`/`elif`/`else` in the
  source, and each branch appends its own code. The model assigns the code
  once and then does the two updates. Within `result` and `rounds` the
  effect is the same.
- Python integers are unbounded, and the Dafny `nat` counters match them.
