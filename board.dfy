/**
 * The board evaluator of the game server: a flattened n-by-n board whose
 * cells are empty (`null`), "X" or "O", and the scan that reports the first
 * complete line in the order rows, columns, main diagonal, anti-diagonal.
 */
module Board {

  datatype Cell = Empty | X | O

  /** A symbol a player can write. */
  type Mark = c: Cell | c != Empty witness X

  /** The lines of a board, named as the evaluator visits them. */
  datatype Line = Row(r: int) | Col(c: int) | Diag | Anti

  /** A board of `n * n` cells, row after row. */
  predicate Shaped(b: seq<Cell>, n: nat)
  {
    n >= 1 && |b| == n * n
  }

  predicate LineOk(n: nat, l: Line)
  {
    match l
    case Row(r) => 0 <= r < n
    case Col(c) => 0 <= c < n
    case _ => true
  }

  lemma {:induction false} MulMonotone(a: nat, b: nat, c: nat)
    requires a <= b
    ensures a * c <= b * c
  {
    if c > 0 {
      MulMonotone(a, b, c - 1);
      assert a * c == a * (c - 1) + a;
      assert b * c == b * (c - 1) + b;
    }
  }

  lemma CellBelowArea(a: nat, x: nat, n: nat)
    requires a < n && x < n
    ensures a * n + x < n * n
  {
    MulMonotone(a + 1, n, n);
    assert (a + 1) * n == a * n + n;
  }

  /** The flattened index of row `a`, column `x`. */
  function Offset(a: nat, x: nat, n: nat): (i: nat)
    requires a < n && x < n
    ensures i < n * n
  {
    CellBelowArea(a, x, n);
    a * n + x
  }

  /** The board index of the `k`-th cell of line `l`, as the scan computes it. */
  function Idx(n: nat, l: Line, k: nat): (i: nat)
    requires LineOk(n, l) && k < n
    ensures i < n * n
  {
    match l
    case Row(r) => Offset(r, k, n)
    case Col(c) => Offset(k, c, n)
    case Diag => Offset(k, k, n)
    case Anti => Offset(k, n - 1 - k, n)
  }

  function At(b: seq<Cell>, n: nat, l: Line, k: nat): Cell
    requires Shaped(b, n) && LineOk(n, l) && k < n
  {
    b[Idx(n, l, k)]
  }

  /** A line is complete when its first cell holds a mark and all its cells hold that mark. */
  predicate Complete(b: seq<Cell>, n: nat, l: Line)
    requires Shaped(b, n) && LineOk(n, l)
  {
    At(b, n, l, 0) != Empty && forall k :: 0 <= k < n ==> At(b, n, l, k) == At(b, n, l, 0)
  }

  /** All lines of an n-by-n board in evaluation order. */
  function Lines(n: nat): (ls: seq<Line>)
    ensures |ls| == 2 * n + 2
    ensures forall j :: 0 <= j < |ls| ==> LineOk(n, ls[j])
    ensures forall j :: 0 <= j < n ==> ls[j] == Row(j)
    ensures forall j :: n <= j < 2 * n ==> ls[j] == Col(j - n)
    ensures ls[2 * n] == Diag && ls[2 * n + 1] == Anti
  {
    seq(n, r => Row(r)) + seq(n, c => Col(c)) + [Diag, Anti]
  }

  predicate AllOk(n: nat, ls: seq<Line>)
  {
    forall j :: 0 <= j < |ls| ==> LineOk(n, ls[j])
  }

  /** The mark of the first complete line of `ls`, or Empty. */
  function FirstWin(b: seq<Cell>, n: nat, ls: seq<Line>): Cell
    requires Shaped(b, n) && AllOk(n, ls)
  {
    if ls == [] then Empty
    else if Complete(b, n, ls[0]) then At(b, n, ls[0], 0)
    else FirstWin(b, n, ls[1..])
  }

  /** What the evaluator reports for board `b`. */
  function Winner(b: seq<Cell>, n: nat): Cell
    requires Shaped(b, n)
  {
    FirstWin(b, n, Lines(n))
  }

  lemma {:induction false} FirstWinAt(b: seq<Cell>, n: nat, ls: seq<Line>, m: nat)
    requires Shaped(b, n) && AllOk(n, ls)
    requires m < |ls| && Complete(b, n, ls[m])
    requires forall j :: 0 <= j < m ==> !Complete(b, n, ls[j])
    ensures FirstWin(b, n, ls) == At(b, n, ls[m], 0)
  {
    if m > 0 {
      assert !Complete(b, n, ls[0]);
      FirstWinAt(b, n, ls[1..], m - 1);
    }
  }

  lemma {:induction false} FirstWinNone(b: seq<Cell>, n: nat, ls: seq<Line>)
    requires Shaped(b, n) && AllOk(n, ls)
    requires forall j :: 0 <= j < |ls| ==> !Complete(b, n, ls[j])
    ensures FirstWin(b, n, ls) == Empty
  {
    if ls != [] {
      assert !Complete(b, n, ls[0]);
      FirstWinNone(b, n, ls[1..]);
    }
  }

  lemma {:induction false} FirstWinFound(b: seq<Cell>, n: nat, ls: seq<Line>) returns (m: nat)
    requires Shaped(b, n) && AllOk(n, ls)
    requires FirstWin(b, n, ls) != Empty
    ensures m < |ls| && Complete(b, n, ls[m]) && At(b, n, ls[m], 0) == FirstWin(b, n, ls)
    ensures forall j :: 0 <= j < m ==> !Complete(b, n, ls[j])
  {
    if Complete(b, n, ls[0]) {
      m := 0;
    } else {
      var m' := FirstWinFound(b, n, ls[1..]);
      m := m' + 1;
    }
  }

  /**
   * When the evaluator reports a mark, the `j`-th line in evaluation order
   * holds that mark in every cell, and no earlier line is complete.
   */
  lemma WinnerIsFirstCompleteLine(b: seq<Cell>, n: nat) returns (j: nat)
    requires Shaped(b, n) && Winner(b, n) != Empty
    ensures j < 2 * n + 2 && Complete(b, n, Lines(n)[j])
    ensures forall k :: 0 <= k < n ==> At(b, n, Lines(n)[j], k) == Winner(b, n)
    ensures forall i :: 0 <= i < j ==> !Complete(b, n, Lines(n)[i])
  {
    j := FirstWinFound(b, n, Lines(n));
  }

  /** When the evaluator reports nothing, no line is complete. */
  lemma NoWinnerNoCompleteLine(b: seq<Cell>, n: nat)
    requires Shaped(b, n) && Winner(b, n) == Empty
    ensures forall j :: 0 <= j < 2 * n + 2 ==> !Complete(b, n, Lines(n)[j])
  {
    var ls := Lines(n);
    forall j | 0 <= j < 2 * n + 2 ensures !Complete(b, n, ls[j]) {
      if Complete(b, n, ls[j]) {
        FirstWinSeesComplete(b, n, ls, j);
      }
    }
  }

  lemma {:induction false} FirstWinSeesComplete(b: seq<Cell>, n: nat, ls: seq<Line>, j: nat)
    requires Shaped(b, n) && AllOk(n, ls)
    requires j < |ls| && Complete(b, n, ls[j])
    ensures FirstWin(b, n, ls) != Empty
  {
    if !Complete(b, n, ls[0]) {
      FirstWinSeesComplete(b, n, ls[1..], j - 1);
    }
  }

  /** Any complete line makes the evaluator report a mark, namely that of the first one. */
  lemma WinnerReportsCompleteLine(b: seq<Cell>, n: nat, j: nat)
    requires Shaped(b, n) && j < 2 * n + 2
    requires Complete(b, n, Lines(n)[j])
    requires forall i :: 0 <= i < j ==> !Complete(b, n, Lines(n)[i])
    ensures Winner(b, n) == At(b, n, Lines(n)[j], 0) && Winner(b, n) != Empty
  {
    FirstWinAt(b, n, Lines(n), j);
  }

  /** The board of a new session. */
  function EmptyBoard(n: nat): (b: seq<Cell>)
    ensures |b| == n * n
    ensures forall i :: 0 <= i < |b| ==> b[i] == Empty
  {
    seq(n * n, _ => Empty)
  }

  /** The number of cells holding `c`. */
  function Count(b: seq<Cell>, c: Cell): nat
  {
    if |b| == 0 then 0 else Count(b[..|b| - 1], c) + (if b[|b| - 1] == c then 1 else 0)
  }

  /** Overwriting cell `i` with `s` moves one cell from `b[i]`'s count to `s`'s. */
  lemma {:induction false} CountAfterWrite(b: seq<Cell>, i: nat, s: Cell, c: Cell)
    requires i < |b|
    ensures Count(b[i := s], c) == Count(b, c) - (if b[i] == c then 1 else 0) + (if s == c then 1 else 0)
  {
    var n := |b|;
    if i == n - 1 {
      assert b[i := s][..n - 1] == b[..n - 1];
    } else {
      assert b[i := s][..n - 1] == b[..n - 1][i := s];
      CountAfterWrite(b[..n - 1], i, s, c);
    }
  }

  /** A board without `c` anywhere counts no `c`. */
  lemma {:induction false} CountAbsent(b: seq<Cell>, c: Cell)
    requires forall i :: 0 <= i < |b| ==> b[i] != c
    ensures Count(b, c) == 0
  {
    if |b| > 0 {
      CountAbsent(b[..|b| - 1], c);
    }
  }

  /** A new session's board has no winner, a free cell, and no marks. */
  lemma EmptyBoardIsLive(n: nat)
    requires n >= 1
    ensures Winner(EmptyBoard(n), n) == Empty
    ensures !Full(EmptyBoard(n)) && |EmptyCells(EmptyBoard(n))| > 0
    ensures Count(EmptyBoard(n), X) == 0 && Count(EmptyBoard(n), O) == 0
  {
    var b := EmptyBoard(n);
    FirstWinNone(b, n, Lines(n));
    assert b[0] == Empty;
    EmptyCellsListsEveryFreeCellInOrder(b);
    CountAbsent(b, X);
    CountAbsent(b, O);
  }

  /** Writing a mark into a free cell adds one to that mark's count and leaves the other's. */
  lemma MarkCounts(b: seq<Cell>, i: nat, s: Mark)
    requires i < |b| && b[i] == Empty
    ensures Count(b[i := s], s) == Count(b, s) + 1
    ensures forall t: Mark :: t != s ==> Count(b[i := s], t) == Count(b, t)
  {
    CountAfterWrite(b, i, s, X);
    CountAfterWrite(b, i, s, O);
  }

  /** A write outside a line leaves that line complete or not, as it was. */
  lemma UntouchedLineKeepsState(b: seq<Cell>, n: nat, l: Line, i: nat, s: Mark)
    requires Shaped(b, n) && LineOk(n, l) && i < |b|
    requires forall k :: 0 <= k < n ==> Idx(n, l, k) != i
    ensures Complete(b[i := s], n, l) == Complete(b, n, l)
  {
    var b' := b[i := s];
    forall k | 0 <= k < n ensures At(b, n, l, k) == At(b', n, l, k) { }
    assert Complete(b', n, l) <==> Complete(b, n, l);
  }

  /**
   * Writing mark `s` into a free cell of a board with no complete line can
   * only complete lines through that cell, so the evaluator then reports
   * `s` or nothing.
   */
  lemma MoverIsOnlyPossibleWinner(b: seq<Cell>, n: nat, i: nat, s: Mark)
    requires Shaped(b, n) && Winner(b, n) == Empty
    requires i < |b| && b[i] == Empty
    ensures Winner(b[i := s], n) == Empty || Winner(b[i := s], n) == s
  {
    var b' := b[i := s];
    NoWinnerNoCompleteLine(b, n);
    if Winner(b', n) != Empty {
      var m := FirstWinFound(b', n, Lines(n));
      var l := Lines(n)[m];
      if forall k :: 0 <= k < n ==> Idx(n, l, k) != i {
        UntouchedLineKeepsState(b, n, l, i, s);
        assert false;
      } else {
        var k :| 0 <= k < n && Idx(n, l, k) == i;
        assert At(b', n, l, k) == s;
      }
    }
  }

  /** The free cells of a board in increasing order (the source's `availSpots`). */
  function EmptyCells(b: seq<Cell>): (s: seq<nat>)
    ensures |s| <= |b|
    ensures forall j :: 0 <= j < |s| ==> s[j] < |b| && b[s[j]] == Empty
  {
    if |b| == 0 then []
    else EmptyCells(b[..|b| - 1]) + (if b[|b| - 1] == Empty then [|b| - 1] else [])
  }

  /** A board that is not full lists at least one free cell. */
  lemma FreeCellListed(b: seq<Cell>)
    requires !Full(b)
    ensures |EmptyCells(b)| > 0
  {
    EmptyCellsListsEveryFreeCellInOrder(b);
  }

  /** Every free cell is listed, the list is strictly increasing, and it is empty just when the board is full. */
  lemma {:induction false} EmptyCellsListsEveryFreeCellInOrder(b: seq<Cell>)
    ensures forall i :: 0 <= i < |b| && b[i] == Empty ==> i in EmptyCells(b)
    ensures forall j :: 0 < j < |EmptyCells(b)| ==> EmptyCells(b)[j - 1] < EmptyCells(b)[j]
    ensures |EmptyCells(b)| == 0 <==> Full(b)
  {
    if |b| > 0 {
      EmptyCellsListsEveryFreeCellInOrder(b[..|b| - 1]);
    }
  }

  /** The `map`/`filter` pass that lists the free cells. */
  method AvailableSpots(board: seq<Cell>) returns (spots: seq<nat>)
    ensures spots == EmptyCells(board)
  {
    spots := [];
    var i := 0;
    while i < |board|
      invariant 0 <= i <= |board|
      invariant spots == EmptyCells(board[..i])
    {
      assert board[..i + 1][..i] == board[..i];
      if board[i] == Empty {
        spots := spots + [i];
      }
      i := i + 1;
    }
    assert board[..i] == board;
  }

  /** `board.every(cell => cell !== null)`. */
  predicate Full(b: seq<Cell>)
  {
    forall i | 0 <= i < |b| :: b[i] != Empty
  }

  /**
   * The inner loop of the evaluator: compare the cells of line `l` after the
   * first with `first`, stopping at the first mismatch.
   */
  method ScanLine(board: seq<Cell>, size: nat, l: Line, first: Cell) returns (win: bool)
    requires Shaped(board, size) && LineOk(size, l)
    requires first == At(board, size, l, 0)
    ensures win <==> forall k :: 0 <= k < size ==> At(board, size, l, k) == first
  {
    win := true;
    var i := 1;
    while i < size
      invariant 1 <= i <= size && win
      invariant forall k :: 0 <= k < i ==> At(board, size, l, k) == first
    {
      if board[Idx(size, l, i)] != first {
        assert At(board, size, l, i) != first;
        win := false;
        break;
      }
      i := i + 1;
    }
  }

  /** One line of the evaluator: its first cell is set and the rest repeat it. */
  method LineComplete(board: seq<Cell>, size: nat, l: Line) returns (win: bool)
    requires Shaped(board, size) && LineOk(size, l)
    ensures win <==> Complete(board, size, l)
  {
    var first := board[Idx(size, l, 0)];
    win := false;
    if first != Empty {
      win := ScanLine(board, size, l, first);
    }
  }

  /** The evaluator: rows, then columns, then the two diagonals, each scanned with an early exit. */
  method CheckWinner(board: seq<Cell>, size: nat) returns (w: Cell)
    requires Shaped(board, size)
    ensures w == Winner(board, size)
  {
    ghost var ls := Lines(size);

    // Rows
    var r := 0;
    while r < size
      invariant 0 <= r <= size
      invariant forall j :: 0 <= j < r ==> !Complete(board, size, ls[j])
    {
      var win := LineComplete(board, size, Row(r));
      if win {
        FirstWinAt(board, size, ls, r);
        return board[Idx(size, Row(r), 0)];
      }
      r := r + 1;
    }

    // Columns
    var c := 0;
    while c < size
      invariant 0 <= c <= size
      invariant forall j :: 0 <= j < size + c ==> !Complete(board, size, ls[j])
    {
      var win := LineComplete(board, size, Col(c));
      if win {
        FirstWinAt(board, size, ls, size + c);
        return board[Idx(size, Col(c), 0)];
      }
      c := c + 1;
    }

    // Main diagonal, then anti-diagonal
    var win := LineComplete(board, size, Diag);
    if win {
      FirstWinAt(board, size, ls, 2 * size);
      return board[Idx(size, Diag, 0)];
    }
    win := LineComplete(board, size, Anti);
    if win {
      FirstWinAt(board, size, ls, 2 * size + 1);
      return board[Idx(size, Anti, 0)];
    }

    FirstWinNone(board, size, ls);
    return Empty;
  }
}
