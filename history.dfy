/** The bounded history of rounds: a `deque(maxlen=max_length)` of pairs. */
module History {
  import opened Rules

  /** What a deque of capacity `n` retains of the sequence `s` of appends:
      its last `n` elements, or all of `s` when it is shorter. */
  function Keep<T>(s: seq<T>, n: nat): seq<T> {
    if |s| <= n then s else s[|s| - n..]
  }

  /** The retained window is bounded by the capacity, and is a suffix of what was appended. */
  lemma KeepBounded<T>(s: seq<T>, n: nat)
    ensures |Keep(s, n)| <= n && |Keep(s, n)| <= |s|
    ensures Keep(s, n) == s[|s| - |Keep(s, n)|..]
  {
  }

  /** Appending to an already trimmed window is the same as trimming once. */
  lemma KeepAppend<T>(s: seq<T>, x: T, n: nat)
    ensures Keep(Keep(s, n) + [x], n) == Keep(s + [x], n)
  {
    KeepConcat(s, [x], n);
  }

  /** The window after appending `xs` one by one, each append evicting the
      oldest element when the window is full. */
  function Replay<T>(s: seq<T>, xs: seq<T>, n: nat): seq<T>
    decreases |xs|
  {
    if xs == [] then s else Replay(Keep(s + [xs[0]], n), xs[1..], n)
  }

  /** FIFO eviction law: after any sequence of appends to a window within
      capacity, the window holds exactly the `n` most recent elements, in order. */
  lemma {:induction false} ReplayIsWindow<T>(s: seq<T>, xs: seq<T>, n: nat)
    requires |s| <= n
    ensures Replay(s, xs, n) == Keep(s + xs, n)
    ensures |Replay(s, xs, n)| <= n
    decreases |xs|
  {
    if xs == [] {
      assert s + xs == s;
    } else {
      var s' := Keep(s + [xs[0]], n);
      KeepBounded(s + [xs[0]], n);
      ReplayIsWindow(s', xs[1..], n);
      KeepConcat(s + [xs[0]], xs[1..], n);
      assert s + [xs[0]] + xs[1..] == s + xs;
    }
  }

  /** Trimming before a further concatenation does not change the final window. */
  lemma KeepConcat<T>(s: seq<T>, t: seq<T>, n: nat)
    ensures Keep(Keep(s, n) + t, n) == Keep(s + t, n)
  {
    if |s| > n {
      var k := s[|s| - n..];
      if t == [] {
        assert k + t == k && s + t == s;
      } else {
        var a, b := (k + t)[|t|..], (s + t)[|s| + |t| - n..];
        assert |a| == n == |b|;
        forall i | 0 <= i < n
          ensures a[i] == b[i]
        {
          if i < n - |t| {
            assert a[i] == k[|t| + i] == s[|s| - n + |t| + i] == b[i];
          } else {
            assert a[i] == t[i - (n - |t|)] == b[i];
          }
        }
      }
    }
  }

  /** With a positive capacity a non-empty run of appends leaves the window
      non-empty, its newest element being the last one appended. */
  lemma KeepLast<T>(s: seq<T>, n: nat)
    requires n > 0 && s != []
    ensures Keep(s, n) != [] && Keep(s, n)[|Keep(s, n)| - 1] == s[|s| - 1]
  {
  }

  /** `Moves`: the history buffer, updated in place. */
  class Moves {
    /** `max_length`, the deque's capacity. */
    const maxLength: nat
    /** The deque's contents, oldest first. */
    var movesList: seq<Pair>

    ghost predicate Valid()
      reads this
    {
      |movesList| <= maxLength
    }

    /** `Moves(max_length)`: an empty history (the source's default capacity is 30). */
    constructor (maxLength: nat)
      ensures Valid()
      ensures this.maxLength == maxLength && movesList == []
    {
      this.maxLength := maxLength;
      movesList := [];
    }

    /** `add_move(user_move, computer_move)`: appends `[user_move, computer_move]`;
        a full deque first drops its oldest pair. */
    method AddMove(userMove: Move, computerMove: Move)
      requires Valid()
      modifies this
      ensures Valid()
      ensures movesList == Keep(old(movesList) + [Pair(userMove, computerMove)], maxLength)
    {
      var extended := movesList + [Pair(userMove, computerMove)];
      if |extended| > maxLength {
        extended := extended[1..];
      }
      movesList := extended;
    }

    /** `get_all_moves()`: every retained pair, oldest first. */
    method GetAllMoves() returns (all: seq<Pair>)
      ensures all == movesList
    {
      all := movesList;
    }

    /** `get_last_move()`: the newest pair; `deque[-1]` raises on an empty deque. */
    method GetLastMove() returns (r: Result<Pair>)
      ensures movesList == [] <==> r.Err?
      ensures r.Err? ==> r.error == EmptyHistory
      ensures r.Ok? ==> r.value == movesList[|movesList| - 1]
    {
      if |movesList| == 0 {
        return Err(EmptyHistory);
      }
      r := Ok(movesList[|movesList| - 1]);
    }
  }
}
