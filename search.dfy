/**
 * The depth-bounded minimax search of the AI opponent. "O" maximises and
 * scores +10 for a win, "X" minimises and scores -10; a drawn or
 * depth-exhausted position scores 0. Ties go to the first free cell reached.
 */
module Search {
  import opened Wrappers
  import opened Board

  /** The source's `{ score, index? }` result. */
  datatype Outcome = Outcome(score: int, index: Option<nat>)

  /** The player to move after `p`: "O" hands over to "X", anything else to "O". */
  function Other(p: Mark): (q: Mark)
    ensures q != p
  {
    if p == O then X else O
  }

  predicate Beats(a: int, b: int, maximize: bool)
  {
    if maximize then a > b else a < b
  }

  /** The position of the first best score: nothing beats it and it beats everything before it. */
  function BestPos(s: seq<int>, maximize: bool): (k: nat)
    requires |s| > 0
    ensures k < |s|
    ensures forall j :: 0 <= j < |s| ==> !Beats(s[j], s[k], maximize)
    ensures forall j :: 0 <= j < k ==> Beats(s[k], s[j], maximize)
  {
    if |s| == 1 then 0
    else
      var k := BestPos(s[..|s| - 1], maximize);
      if Beats(s[|s| - 1], s[k], maximize) then |s| - 1 else k
  }

  /** Only one position is the first best one. */
  lemma BestPosUnique(s: seq<int>, maximize: bool, k: nat)
    requires k < |s|
    requires forall j :: 0 <= j < |s| ==> !Beats(s[j], s[k], maximize)
    requires forall j :: 0 <= j < k ==> Beats(s[k], s[j], maximize)
    ensures BestPos(s, maximize) == k
  {
  }

  predicate IsScore(v: int)
  {
    v == -10 || v == 0 || v == 10
  }

  /** The score of trying each spot in turn, with the opponent to move and one ply less. */
  function MoveScores(b: seq<Cell>, p: Mark, n: nat, depth: nat, spots: seq<nat>): (s: seq<int>)
    requires Shaped(b, n) && depth > 0
    requires forall j :: 0 <= j < |spots| ==> spots[j] < |b|
    ensures |s| == |spots|
    ensures forall j :: 0 <= j < |s| ==> IsScore(s[j])
    decreases depth, 0, |spots|
  {
    if spots == [] then []
    else [MinimaxValue(b[spots[0] := p], Other(p), n, depth - 1).score] + MoveScores(b, p, n, depth, spots[1..])
  }

  lemma {:induction false} MoveScoresAt(b: seq<Cell>, p: Mark, n: nat, depth: nat, spots: seq<nat>, j: nat)
    requires Shaped(b, n) && depth > 0
    requires forall i :: 0 <= i < |spots| ==> spots[i] < |b|
    requires j < |spots|
    ensures MoveScores(b, p, n, depth, spots)[j] == MinimaxValue(b[spots[j] := p], Other(p), n, depth - 1).score
  {
    if j > 0 {
      MoveScoresAt(b, p, n, depth, spots[1..], j - 1);
    }
  }

  /** What `minimax(board, p, n, depth)` returns; its score is always one of -10, 0, 10. */
  function MinimaxValue(b: seq<Cell>, p: Mark, n: nat, depth: nat): (r: Outcome)
    requires Shaped(b, n)
    ensures IsScore(r.score)
    decreases depth, 1, 0
  {
    var w := Winner(b, n);
    if w == X then Outcome(-10, None)
    else if w == O then Outcome(10, None)
    else
      var spots := EmptyCells(b);
      if |spots| == 0 || depth == 0 then Outcome(0, None)
      else
        var scores := MoveScores(b, p, n, depth, spots);
        var k := BestPos(scores, p == O);
        Outcome(scores[k], Some(spots[k]))
  }

  /**
   * The search proposes a move exactly when the position has no winner, has
   * a free cell and depth is left; the move is then a free cell.
   */
  lemma MinimaxProposesFreeCell(b: seq<Cell>, p: Mark, n: nat, depth: nat)
    requires Shaped(b, n)
    ensures MinimaxValue(b, p, n, depth).index.Some? <==> (Winner(b, n) == Empty && |EmptyCells(b)| > 0 && depth > 0)
    ensures MinimaxValue(b, p, n, depth).index.Some? ==>
            MinimaxValue(b, p, n, depth).index.value < |b| && b[MinimaxValue(b, p, n, depth).index.value] == Empty
  {
    var w := Winner(b, n);
    assert w == X || w == O || w == Empty;
    var spots := EmptyCells(b);
    if w == Empty && |spots| > 0 && depth > 0 {
      var scores := MoveScores(b, p, n, depth, spots);
      var k := BestPos(scores, p == O);
      assert MinimaxValue(b, p, n, depth) == Outcome(scores[k], Some(spots[k]));
    }
  }

  /**
   * A proposed move is the `k`-th free cell, in increasing order, where `k`
   * is the first position whose score is the best for the player to move:
   * "O" takes the maximum, "X" the minimum, and every earlier free cell
   * scores strictly worse.
   */
  lemma MinimaxPicksFirstBest(b: seq<Cell>, p: Mark, n: nat, depth: nat) returns (k: nat)
    requires Shaped(b, n) && Winner(b, n) == Empty && |EmptyCells(b)| > 0 && depth > 0
    ensures k < |EmptyCells(b)|
    ensures MinimaxValue(b, p, n, depth).index == Some(EmptyCells(b)[k])
    ensures MinimaxValue(b, p, n, depth).score == MoveScores(b, p, n, depth, EmptyCells(b))[k]
    ensures forall j :: 0 <= j < |EmptyCells(b)| ==>
              var s := MoveScores(b, p, n, depth, EmptyCells(b))[j];
              if p == O then s <= MinimaxValue(b, p, n, depth).score else s >= MinimaxValue(b, p, n, depth).score
    ensures forall j :: 0 <= j < k ==>
              var s := MoveScores(b, p, n, depth, EmptyCells(b))[j];
              if p == O then s < MinimaxValue(b, p, n, depth).score else s > MinimaxValue(b, p, n, depth).score
  {
    var spots := EmptyCells(b);
    var scores := MoveScores(b, p, n, depth, spots);
    k := BestPos(scores, p == O);
    assert MinimaxValue(b, p, n, depth) == Outcome(scores[k], Some(spots[k]));
  }

  /**
   * The search itself. It tries every free cell on the caller's array,
   * recursing with the opponent to move, and clears the cell again before
   * the next one, so the array is handed back as it was received. The
   * result is the specification's.
   */
  method Minimax(newBoard: array<Cell>, player: Mark, size: nat, depth: nat) returns (result: Outcome)
    requires Shaped(newBoard[..], size)
    modifies newBoard
    ensures newBoard[..] == old(newBoard[..])
    ensures result == MinimaxValue(old(newBoard[..]), player, size, depth)
    decreases depth, 1
  {
    var availSpots := AvailableSpots(newBoard[..]);

    var winner := CheckWinner(newBoard[..], size);
    if winner == X { return Outcome(-10, None); }
    if winner == O { return Outcome(10, None); }
    if |availSpots| == 0 || depth == 0 { return Outcome(0, None); }

    var moves := TryMoves(newBoard, player, size, depth, availSpots);
    var bestMoveIndex := BestMoveIndex(moves, player);
    ghost var scores := MoveScores(newBoard[..], player, size, depth, availSpots);
    assert forall j :: 0 <= j < |moves| ==> moves[j].score == scores[j];
    BestPosUnique(scores, player == O, bestMoveIndex);
    return moves[bestMoveIndex];
  }

  /**
   * The first loop of the search: write the mover's mark into each free
   * cell in turn, score the position with one ply less, and clear the cell.
   */
  method TryMoves(newBoard: array<Cell>, player: Mark, size: nat, depth: nat, availSpots: seq<nat>)
    returns (moves: seq<Outcome>)
    requires Shaped(newBoard[..], size) && depth > 0
    requires forall j :: 0 <= j < |availSpots| ==> availSpots[j] < newBoard.Length && newBoard[availSpots[j]] == Empty
    modifies newBoard
    ensures newBoard[..] == old(newBoard[..])
    ensures |moves| == |availSpots|
    ensures forall j :: 0 <= j < |moves| ==>
              moves[j] == Outcome(MoveScores(old(newBoard[..]), player, size, depth, availSpots)[j], Some(availSpots[j]))
    decreases depth, 0
  {
    ghost var b := newBoard[..];
    ghost var scores := MoveScores(b, player, size, depth, availSpots);
    moves := [];
    var i := 0;
    while i < |availSpots|
      invariant 0 <= i <= |availSpots|
      invariant newBoard[..] == b
      invariant |moves| == i
      invariant forall j :: 0 <= j < i ==> moves[j] == Outcome(scores[j], Some(availSpots[j]))
    {
      var index := availSpots[i];
      newBoard[index] := player;
      ghost var tried := newBoard[..];
      assert tried == b[index := player];
      var reply := Minimax(newBoard, Other(player), size, depth - 1);
      MoveScoresAt(b, player, size, depth, availSpots, i);
      assert reply.score == scores[i];
      newBoard[index] := Empty;
      assert newBoard[..] == b;
      moves := moves + [Outcome(reply.score, Some(index))];
      i := i + 1;
    }
  }

  /** The scan over the tried moves with a running best and a strict comparison. */
  method BestMoveIndex(moves: seq<Outcome>, player: Mark) returns (bestMoveIndex: nat)
    requires |moves| > 0
    requires forall j :: 0 <= j < |moves| ==> IsScore(moves[j].score)
    ensures bestMoveIndex < |moves|
    ensures forall j :: 0 <= j < |moves| ==> !Beats(moves[j].score, moves[bestMoveIndex].score, player == O)
    ensures forall j :: 0 <= j < bestMoveIndex ==> Beats(moves[bestMoveIndex].score, moves[j].score, player == O)
  {
    bestMoveIndex := 0;
    if player == O {
      var bestScore := -10000;
      var i := 0;
      while i < |moves|
        invariant 0 <= i <= |moves|
        invariant i == 0 ==> bestMoveIndex == 0 && bestScore == -10000
        invariant i > 0 ==> bestMoveIndex < i && bestScore == moves[bestMoveIndex].score
        invariant forall j :: 0 <= j < i ==> moves[j].score <= bestScore
        invariant forall j :: 0 <= j < bestMoveIndex ==> moves[j].score < bestScore
      {
        if moves[i].score > bestScore {
          bestScore := moves[i].score;
          bestMoveIndex := i;
        }
        i := i + 1;
      }
    } else {
      var bestScore := 10000;
      var i := 0;
      while i < |moves|
        invariant 0 <= i <= |moves|
        invariant i == 0 ==> bestMoveIndex == 0 && bestScore == 10000
        invariant i > 0 ==> bestMoveIndex < i && bestScore == moves[bestMoveIndex].score
        invariant forall j :: 0 <= j < i ==> moves[j].score >= bestScore
        invariant forall j :: 0 <= j < bestMoveIndex ==> moves[j].score > bestScore
      {
        if moves[i].score < bestScore {
          bestScore := moves[i].score;
          bestMoveIndex := i;
        }
        i := i + 1;
      }
    }
  }
}
