/**
 * The real-time game server: the matchmaking queues, the live sessions, the
 * move handler, the game-over settlement and the AI player's turn.
 *
 * Everything the socket handlers write in place (the waiting queues, the
 * session table, outgoing events, pending timers) is a field of `Registry`.
 * Outgoing socket messages are appended to `outbox`; timers that the source
 * schedules with `setTimeout` are appended to `timers`, and the runtime fires
 * one of them through `Fire`. Clocks and `Math.random` are parameters.
 */
module Engine {
  import opened Wrappers
  import opened Board
  import opened Search
  import opened Users

  /** The address recorded for the server's own player in AI sessions. */
  const AI: string := "AI"
  /** The opponent name an AI session announces to the human player. */
  const AIName: string := "AI (Expert)"
  /** Below this roll the AI takes a random free cell instead of searching. */
  const RandomMoveChance: real := 0.15
  /** Points for a win and for each side of a draw, before the NFT multiplier. */
  const WinPoints: real := 3.0
  const DrawPoints: real := 1.0

  /** A queued player: the socket it joined from and its wallet address. */
  datatype Entry = Entry(socket: string, address: string)

  /**
   * A session id. The source builds `first-second-millis` for human pairs and
   * `ai-player-millis` for AI sessions; the parts are kept apart here.
   */
  datatype GameKey = Paired(first: string, second: string, created: int) | Solo(player: string, created: int)

  /**
   * A live session. The first player holds X and moves first; `turn` is the
   * address to move (absent when no other player can be found).
   */
  datatype Game = Game(key: GameKey, size: nat, players: seq<string>, board: seq<Cell>,
                       turn: Option<string>, sockets: seq<string>, isAI: bool)

  /** Payloads of the three server-to-client messages. */
  datatype Payload =
    | GameStart(key: GameKey, size: nat, opponent: string, symbol: Mark, starts: string)
    | GameUpdate(board: seq<Cell>, turn: Option<string>)
    | GameOver(winner: Option<string>, finalBoard: seq<Cell>)

  /** One message sent to one socket. */
  datatype Event = Emit(to: string, payload: Payload)

  /** A scheduled callback with the values its closure captured. */
  datatype Timer =
    | Fallback(socket: string, address: string, size: int)
    | AIMove(key: GameKey)

  /** The message `payload`, sent to each socket in order. */
  function Broadcast(sockets: seq<string>, payload: Payload): (es: seq<Event>)
    ensures |es| == |sockets|
    ensures forall i :: 0 <= i < |sockets| ==> es[i] == Emit(sockets[i], payload)
  {
    if |sockets| == 0 then [] else [Emit(sockets[0], payload)] + Broadcast(sockets[1..], payload)
  }

  /** The first player whose address differs from `address`, if any. */
  function OtherPlayer(players: seq<string>, address: string): (r: Option<string>)
    ensures r.None? <==> forall i :: 0 <= i < |players| ==> players[i] == address
    ensures |players| == 2 && players[0] != address ==> r == Some(players[0])
    ensures |players| == 2 && players[0] == address ==> r == (if players[1] != address then Some(players[1]) else None)
  {
    if |players| == 0 then None
    else if players[0] != address then Some(players[0])
    else OtherPlayer(players[1..], address)
  }

  /** Position of the first entry queued from `socket`, or -1. */
  function IndexOfSocket(q: seq<Entry>, socket: string): (i: int)
    ensures -1 <= i < |q|
    ensures i == -1 <==> forall j :: 0 <= j < |q| ==> q[j].socket != socket
    ensures i >= 0 ==> q[i].socket == socket && forall j :: 0 <= j < i ==> q[j].socket != socket
  {
    if |q| == 0 then -1
    else if q[0].socket == socket then 0
    else
      var i := IndexOfSocket(q[1..], socket);
      if i == -1 then -1 else i + 1
  }

  /** The queue with the first entry from `socket` spliced out. */
  function Without(q: seq<Entry>, socket: string): (r: seq<Entry>)
  {
    var i := IndexOfSocket(q, socket);
    if i == -1 then q else q[..i] + q[i + 1..]
  }

  /** Whether `address` already waits in queue `q`. */
  predicate Queued(q: seq<Entry>, address: string)
  {
    exists i :: 0 <= i < |q| && q[i].address == address
  }

  /** Splicing out a socket's first entry keeps every other entry, in order. */
  lemma WithoutRemovesFirstMatch(q: seq<Entry>, socket: string)
    ensures IndexOfSocket(q, socket) == -1 ==> Without(q, socket) == q
    ensures IndexOfSocket(q, socket) != -1 ==>
      var i := IndexOfSocket(q, socket);
      |Without(q, socket)| == |q| - 1 &&
      (forall j :: 0 <= j < i ==> Without(q, socket)[j] == q[j]) &&
      (forall j :: i <= j < |q| - 1 ==> Without(q, socket)[j] == q[j + 1])
  {
    var i := IndexOfSocket(q, socket);
    if i != -1 {
      var r := q[..i] + q[i + 1..];
      assert Without(q, socket) == r;
      assert forall j :: i <= j < |q| - 1 ==> r[j] == q[j + 1];
    }
  }

  /** On a queue of at most one entry, splicing out a socket leaves nothing from it. */
  lemma WithoutClearsShortQueue(q: seq<Entry>, socket: string)
    requires |q| <= 1
    ensures |Without(q, socket)| <= |q|
    ensures IndexOfSocket(Without(q, socket), socket) == -1
  {
    if |q| == 1 && q[0].socket == socket {
      assert Without(q, socket) == [];
    }
  }

  /** Every queue with the socket's first entry spliced out (`disconnect`). */
  function Disconnected(waiting: map<int, seq<Entry>>, socket: string): (r: map<int, seq<Entry>>)
    ensures r.Keys == waiting.Keys
  {
    map s | s in waiting :: Without(waiting[s], socket)
  }

  /**
   * With at most one entry per queue, a disconnect leaves no entry from the
   * socket, keeps every queue without one as it was, never lengthens a
   * queue, and a second disconnect changes nothing.
   */
  lemma DisconnectClearsSocket(waiting: map<int, seq<Entry>>, socket: string)
    requires forall s :: s in waiting ==> |waiting[s]| <= 1
    ensures forall s :: s in waiting ==> IndexOfSocket(Disconnected(waiting, socket)[s], socket) == -1
    ensures forall s :: s in waiting ==> |Disconnected(waiting, socket)[s]| <= |waiting[s]|
    ensures forall s :: s in waiting && IndexOfSocket(waiting[s], socket) == -1 ==>
      Disconnected(waiting, socket)[s] == waiting[s]
    ensures Disconnected(Disconnected(waiting, socket), socket) == Disconnected(waiting, socket)
  {
    var once := Disconnected(waiting, socket);
    forall s | s in waiting
      ensures IndexOfSocket(once[s], socket) == -1
      ensures |once[s]| <= |waiting[s]|
      ensures Without(once[s], socket) == once[s]
    {
      WithoutClearsShortQueue(waiting[s], socket);
    }
    assert forall s :: s in once ==> Disconnected(once, socket)[s] == once[s];
  }

  /** The mark of the player sending a move: X for the first player, O otherwise. */
  function MoverMark(players: seq<string>, address: string): Mark
    requires |players| == 2
  {
    if players[0] == address then X else O
  }

  /**
   * How a human-move handler names the winner: X is the first player, O the
   * second, so with two distinct players the named winner holds the winning mark.
   */
  function SettledWinner(players: seq<string>, w: Cell): (r: Option<string>)
    requires |players| == 2
    ensures w == Empty <==> r == None
    ensures r.Some? ==> r.value in players
    ensures r.Some? && players[0] != players[1] ==> MoverMark(players, r.value) == w
  {
    match w
    case X => Some(players[0])
    case O => Some(players[1])
    case Empty => None
  }

  /**
   * How the AI-move handler names the winner: X is the human, O is the AI, so
   * in an AI session the named winner holds the winning mark.
   */
  function AISettledWinner(players: seq<string>, w: Cell): (r: Option<string>)
    requires |players| == 2
    ensures w == Empty <==> r == None
    ensures r.Some? && players[1] == AI ==> r.value in players
    ensures r.Some? && players[1] == AI && players[0] != AI ==> MoverMark(players, r.value) == w
  {
    match w
    case X => Some(players[0])
    case O => Some(AI)
    case Empty => None
  }

  /** A session ends once a line is complete or no cell is free. */
  predicate Terminal(b: seq<Cell>, n: nat)
    requires Shaped(b, n)
  {
    Winner(b, n) != Empty || Full(b)
  }

  /** Draw payout: each non-AI player, in order, is credited one point. */
  function DrawPayout(rows: map<string, User>, players: seq<string>): (r: map<string, User>)
    ensures r.Keys == rows.Keys
  {
    if |players| == 0 then rows
    else
      var before := DrawPayout(rows, players[..|players| - 1]);
      var p := players[|players| - 1];
      if p != AI then Credited(before, p, DrawPoints) else before
  }

  /**
   * Settlement: a named (non-empty) winner other than the AI gets the win
   * points, an AI win pays nothing, and no winner is a draw.
   */
  function Payout(rows: map<string, User>, players: seq<string>, winner: Option<string>): (r: map<string, User>)
    ensures r.Keys == rows.Keys
    ensures winner == Some(AI) ==> r == rows
    ensures Truthy(winner) && winner.value != AI ==> r == Credited(rows, winner.value, WinPoints)
    ensures !Truthy(winner) ==> r == DrawPayout(rows, players)
  {
    if Truthy(winner) then
      if winner.value != AI then Credited(rows, winner.value, WinPoints) else rows
    else DrawPayout(rows, players)
  }

  /**
   * In a draw between two distinct human players neither of whom referred
   * the other, each gains exactly one point times their own multiplier.
   */
  lemma DrawPaysEachPlayer(rows: map<string, User>, p: string, q: string)
    requires p != q && p != AI && q != AI && p in rows && q in rows
    requires rows[p].referrer !in {Some(p), Some(q)} && rows[q].referrer !in {Some(p), Some(q)}
    ensures DrawPayout(rows, [p, q])[p].points == rows[p].points + DrawPoints * Multiplier(rows[p])
    ensures DrawPayout(rows, [p, q])[q].points == rows[q].points + DrawPoints * Multiplier(rows[q])
  {
    assert [p, q][..1] == [p];
    assert [p][..0] == [];
    assert DrawPayout(rows, []) == rows;
    var afterP := Credited(rows, p, DrawPoints);
    assert DrawPayout(rows, [p]) == afterP;
    assert afterP[p] == rows[p].(points := rows[p].points + DrawPoints * Multiplier(rows[p]));
    assert afterP[q] == rows[q];
    var last := Credited(afterP, q, DrawPoints);
    assert DrawPayout(rows, [p, q]) == last;
    assert last[p] == afterP[p];
    assert last[q] == rows[q].(points := rows[q].points + DrawPoints * Multiplier(rows[q]));
  }

  /** The search depth the AI gives minimax: 10 on the 3x3 board, 5 on 4x4. */
  function SearchDepth(size: nat): nat
  {
    if size == 3 then 10 else 5
  }

  /** `Math.floor(pick * len)`: for a draw `pick` in [0, 1) an index below `len`. */
  function PickIndex(pick: real, len: nat): (k: nat)
    requires 0.0 <= pick < 1.0 && len > 0
    ensures k < len
  {
    assert pick * (len as real) < len as real by {
      assert (1.0 - pick) * (len as real) > 0.0;
    }
    (pick * (len as real)).Floor
  }

  /**
   * The cell the AI takes on a live board: a uniformly drawn free cell when
   * the roll is under the randomness threshold, otherwise the move minimax
   * proposes for O. Either way it is a free cell, so the handler's fallback
   * to the first free cell never applies.
   */
  function AIChoice(b: seq<Cell>, n: nat, roll: real, pick: real): (m: nat)
    requires Shaped(b, n) && Winner(b, n) == Empty && !Full(b)
    requires 0.0 <= pick < 1.0
    ensures m < |b| && b[m] == Empty
  {
    if roll < RandomMoveChance then RandomChoice(b, pick) else SearchChoice(b, n)
  }

  /** Free cell number `floor(pick * k)` of the `k` free cells, in board order. */
  function RandomChoice(b: seq<Cell>, pick: real): (m: nat)
    requires !Full(b) && 0.0 <= pick < 1.0
    ensures m < |b| && b[m] == Empty
  {
    FreeCellListed(b);
    var spots := EmptyCells(b);
    spots[PickIndex(pick, |spots|)]
  }

  /** The move minimax proposes for O at the size's search depth. */
  function SearchChoice(b: seq<Cell>, n: nat): (m: nat)
    requires Shaped(b, n) && Winner(b, n) == Empty && !Full(b)
    ensures m < |b| && b[m] == Empty
  {
    FreeCellListed(b);
    MinimaxProposesFreeCell(b, O, n, SearchDepth(n));
    MinimaxValue(b, O, n, SearchDepth(n)).index.value
  }

  /**
   * The AI's choice as `makeAIMove` computes it: the free cells, then either
   * the random pick or the search, with the first free cell as fallback for
   * a proposal that is not a free cell.
   */
  method ChooseAIMove(board: seq<Cell>, size: nat, roll: real, pick: real) returns (bestMove: nat)
    requires Shaped(board, size) && Winner(board, size) == Empty && !Full(board)
    requires 0.0 <= pick < 1.0
    ensures bestMove == AIChoice(board, size, roll, pick)
  {
    var availSpots := AvailableSpots(board);
    FreeCellListed(board);
    var fallback := availSpots[0];
    var proposal: int;
    if roll < RandomMoveChance {
      proposal := availSpots[PickIndex(pick, |availSpots|)];
    } else {
      proposal := SearchMove(board, size, fallback);
    }
    if !(0 <= proposal < |board|) || board[proposal] != Empty {
      proposal := fallback;
    }
    bestMove := proposal;
  }

  /** Minimax for O on a copy of the board; a missing proposal falls back to `fallback`. */
  method SearchMove(board: seq<Cell>, size: nat, fallback: int) returns (proposal: int)
    requires Shaped(board, size) && Winner(board, size) == Empty && !Full(board)
    ensures proposal == SearchChoice(board, size)
  {
    var depth := SearchDepth(size);
    var copy := new Cell[|board|](i requires 0 <= i < |board| => board[i]);
    assert copy[..] == board;
    var result := Minimax(copy, O, size, depth);
    FreeCellListed(board);
    MinimaxProposesFreeCell(board, O, size, depth);
    proposal := if result.index.Some? then result.index.value else fallback;
  }

  /**
   * The turn agrees with the marks: the first player (X) is to move when
   * both marks are equally many, the second (O) when X has one more.
   */
  ghost predicate TurnFollowsMarks(g: Game)
    requires |g.players| == 2
  {
    || (g.turn == Some(g.players[0]) && Count(g.board, X) == Count(g.board, O))
    || (g.turn == Some(g.players[1]) && Count(g.board, X) == Count(g.board, O) + 1)
  }

  /**
   * A well-formed session: a supported size, a square board, two players,
   * one socket per human, and the AI as second player of an AI session.
   */
  ghost predicate GameShaped(g: Game)
  {
    && (g.size == 3 || g.size == 4)
    && Shaped(g.board, g.size)
    && |g.players| == 2
    && |g.sockets| == (if g.isAI then 1 else 2)
    && (g.isAI ==> g.players[1] == AI)
  }

  /**
   * A session still in play: no complete line, a free cell, and (for two
   * distinct players) a turn that follows the marks.
   */
  ghost predicate GameLive(g: Game)
    requires GameShaped(g)
  {
    && Winner(g.board, g.size) == Empty && !Full(g.board)
    && (g.players[0] != g.players[1] ==> TurnFollowsMarks(g))
  }

  ghost predicate GameOk(g: Game)
  {
    GameShaped(g) && GameLive(g)
  }

  /** Session `k`, unless it is being settled, is still in play. */
  ghost predicate SessionLive(games: map<GameKey, Game>, settling: set<GameKey>, k: GameKey)
    requires k in games && GameShaped(games[k])
  {
    k !in settling ==> GameLive(games[k])
  }

  /**
   * Every session is filed under its own id and well formed, and every one
   * outside `settling` is in play. Liveness is only unfolded for a session
   * whose `SessionLive` a proof names.
   */
  ghost predicate GamesOk(games: map<GameKey, Game>, settling: set<GameKey>)
  {
    && (forall k :: k in games ==> games[k].key == k && GameShaped(games[k]))
    && (forall k {:trigger SessionLive(games, settling, k)} :: k in games ==> SessionLive(games, settling, k))
  }

  /** Filing a session under its id keeps the table valid, in play or being settled. */
  lemma GamesOkPut(games: map<GameKey, Game>, settling: set<GameKey>, k: GameKey, g: Game)
    requires GamesOk(games, settling) && g.key == k && GameShaped(g)
    ensures GameLive(g) ==> GamesOk(games[k := g], settling - {k})
    ensures GameLive(g) && k !in settling ==> GamesOk(games[k := g], settling)
    ensures GamesOk(games[k := g], settling + {k})
  {
    var after := games[k := g];
    forall j | j in after && j != k
      ensures SessionLive(after, settling - {k}, j) && SessionLive(after, settling + {k}, j)
    {
      assert SessionLive(games, settling, j);
    }
    assert SessionLive(after, settling + {k}, k);
    if GameLive(g) {
      assert SessionLive(after, settling - {k}, k);
      if k !in settling {
        assert settling - {k} == settling;
      }
    }
  }

  /** Overwriting a session and then deleting it leaves the table as deleting it would. */
  lemma PutThenDrop(games: map<GameKey, Game>, k: GameKey, g: Game)
    ensures games[k := g] - {k} == games - {k}
  {
    assert forall j :: j in games[k := g] - {k} <==> j in games - {k};
  }

  /** Deleting a session keeps the table valid. */
  lemma GamesOkDrop(games: map<GameKey, Game>, settling: set<GameKey>, k: GameKey)
    requires GamesOk(games, settling)
    ensures GamesOk(games - {k}, settling - {k})
  {
    forall j | j in games - {k} ensures SessionLive(games - {k}, settling - {k}, j) {
      assert SessionLive(games, settling, j);
    }
  }

  /** A move `make_move` accepts: the session exists, it is the sender's turn and the cell is free. */
  predicate Admissible(games: map<GameKey, Game>, key: GameKey, index: int, address: string)
  {
    && key in games
    && games[key].turn == Some(address)
    && 0 <= index < |games[key].board|
    && games[key].board[index] == Empty
  }

  /** The session after an accepted move that does not end it. */
  function AfterMove(g: Game, index: nat, address: string): (h: Game)
    requires |g.players| == 2 && index < |g.board|
    ensures h.board == g.board[index := MoverMark(g.players, address)]
    ensures h.turn == OtherPlayer(g.players, address)
    ensures h.key == g.key && h.size == g.size && h.players == g.players && h.sockets == g.sockets && h.isAI == g.isAI
  {
    g.(board := g.board[index := MoverMark(g.players, address)], turn := OtherPlayer(g.players, address))
  }

  /**
   * A move by the player to move that does not end the session leaves a
   * live session whose turn passes to the other player.
   */
  lemma MoveKeepsGameOk(g: Game, index: nat, address: string)
    requires GameOk(g) && g.turn == Some(address)
    requires index < |g.board| && g.board[index] == Empty
    requires !Terminal(g.board[index := MoverMark(g.players, address)], g.size)
    ensures GameOk(AfterMove(g, index, address))
  {
    var h := AfterMove(g, index, address);
    var s := MoverMark(g.players, address);
    MarkCounts(g.board, index, s);
    if g.players[0] != g.players[1] {
      if address == g.players[0] {
        assert s == X && h.turn == Some(g.players[1]);
      } else {
        assert s == O && h.turn == Some(g.players[0]);
      }
    }
  }

  /**
   * An accepted move never lets the opponent win: a session that ends on it
   * is either drawn or won by the mover.
   */
  lemma MoveWinnerIsMover(g: Game, index: nat, address: string)
    requires GameOk(g) && g.turn == Some(address) && g.players[0] != g.players[1]
    requires index < |g.board| && g.board[index] == Empty
    ensures var b := g.board[index := MoverMark(g.players, address)];
      SettledWinner(g.players, Winner(b, g.size)) in {None, Some(address)}
  {
    MoverIsOnlyPossibleWinner(g.board, g.size, index, MoverMark(g.players, address));
  }

  /** The session after the AI's move that does not end it: the human is to move. */
  function AfterAIMove(g: Game, m: nat): (h: Game)
    requires |g.players| == 2 && m < |g.board|
    ensures h.board == g.board[m := O] && h.turn == Some(g.players[0])
    ensures h.key == g.key && h.size == g.size && h.players == g.players && h.sockets == g.sockets && h.isAI == g.isAI
  {
    g.(board := g.board[m := O], turn := Some(g.players[0]))
  }

  /** The AI's move on its turn keeps the session live unless it ends it, and never makes X win. */
  lemma AIMoveKeepsGameOk(g: Game, m: nat)
    requires GameOk(g) && g.isAI && g.turn == Some(AI)
    requires m < |g.board| && g.board[m] == Empty
    ensures Winner(g.board[m := O], g.size) != X
    ensures !Terminal(g.board[m := O], g.size) ==> GameOk(AfterAIMove(g, m))
  {
    MoverIsOnlyPossibleWinner(g.board, g.size, m, O);
    MarkCounts(g.board, m, O);
  }

  /** The server's mutable state: queues per board size, live sessions, sent messages, pending timers. */
  class Registry {
    var waiting: map<int, seq<Entry>>
    var games: map<GameKey, Game>
    var outbox: seq<Event>
    var timers: seq<Timer>
    /** The users table that settlements credit. */
    const db: UserTable

    /**
     * The queues exist for sizes 3 and 4 only, and each holds at most one
     * entry: a join either pairs with the one waiting player or waits alone.
     */
    ghost predicate QueuesOk()
      reads this
    {
      waiting.Keys == {3, 4} && forall s :: s in waiting ==> |waiting[s]| <= 1
    }

    /** Every session is filed under its own id, and every one outside `settling` is live. */
    ghost predicate ValidExcept(settling: set<GameKey>)
      reads this
    {
      QueuesOk() && GamesOk(games, settling)
    }

    ghost predicate Valid()
      reads this
    {
      ValidExcept({})
    }

    constructor (users: UserTable)
      ensures Valid() && db == users
      ensures waiting == map[3 := [], 4 := []] && games == map[] && outbox == [] && timers == []
    {
      waiting := map[3 := [], 4 := []];
      games := map[];
      outbox := [];
      timers := [];
      db := users;
    }

    /**
     * `join_queue`: an unsupported size or an address already waiting changes
     * nothing; a waiting opponent is paired into a new session that it opens
     * as X; otherwise the player waits and an AI fallback is scheduled.
     */
    method JoinQueue(socket: string, address: string, size: int, now: int)
      requires Valid()
      modifies this
      ensures Valid()
      ensures size !in old(waiting) || Queued(old(waiting)[size], address) ==> unchanged(this)
      ensures size in old(waiting) && !Queued(old(waiting)[size], address) && |old(waiting)[size]| > 0 ==>
        var opponent := old(waiting)[size][0];
        var key := Paired(opponent.address, address, now);
        && waiting == old(waiting)[size := old(waiting)[size][1..]]
        && games == old(games)[key := Game(key, size, [opponent.address, address], EmptyBoard(size),
                                           Some(opponent.address), [opponent.socket, socket], false)]
        && outbox == old(outbox) + [Emit(opponent.socket, GameStart(key, size, address, X, opponent.address)),
                                    Emit(socket, GameStart(key, size, opponent.address, O, opponent.address))]
        && timers == old(timers)
      ensures size in old(waiting) && !Queued(old(waiting)[size], address) && |old(waiting)[size]| == 0 ==>
        && waiting == old(waiting)[size := [Entry(socket, address)]]
        && games == old(games) && outbox == old(outbox)
        && timers == old(timers) + [Fallback(socket, address, size)]
    {
      if size !in waiting {
        // the queue lookup yields nothing and the handler throws before any change
        return;
      }
      var queue := waiting[size];
      if exists i | 0 <= i < |queue| :: queue[i].address == address {
        return;
      }
      if |queue| > 0 {
        var opponent := queue[0];
        waiting := waiting[size := queue[1..]];
        var gameId := Paired(opponent.address, address, now);
        var game := Game(gameId, size, [opponent.address, address], EmptyBoard(size),
                         Some(opponent.address), [opponent.socket, socket], false);
        EmptyBoardIsLive(size);
        GamesOkPut(games, {}, gameId, game);
        games := games[gameId := game];
        outbox := outbox + [Emit(opponent.socket, GameStart(gameId, size, address, X, opponent.address)),
                            Emit(socket, GameStart(gameId, size, opponent.address, O, opponent.address))];
      } else {
        assert queue + [Entry(socket, address)] == [Entry(socket, address)];
        waiting := waiting[size := queue + [Entry(socket, address)]];
        timers := timers + [Fallback(socket, address, size)];
      }
    }

    /**
     * The fallback timer of a lone queued player: if an entry from its socket
     * still waits in that size's queue it is removed and an AI session opens
     * for the address the timer captured, the human moving first as X.
     */
    method FireFallback(socket: string, address: string, size: int, now: int)
      requires Valid()
      modifies this
      ensures Valid()
      ensures size !in old(waiting) || IndexOfSocket(old(waiting)[size], socket) == -1 ==> unchanged(this)
      ensures size in old(waiting) && IndexOfSocket(old(waiting)[size], socket) != -1 ==>
        var key := Solo(address, now);
        && waiting == old(waiting)[size := Without(old(waiting)[size], socket)]
        && games == old(games)[key := Game(key, size, [address, AI], EmptyBoard(size), Some(address), [socket], true)]
        && outbox == old(outbox) + [Emit(socket, GameStart(key, size, AIName, X, address))]
        && timers == old(timers)
    {
      if size !in waiting {
        return;
      }
      var q := waiting[size];
      var index := IndexOfSocket(q, socket);
      if index != -1 {
        waiting := waiting[size := q[..index] + q[index + 1..]];
        var gameId := Solo(address, now);
        var game := Game(gameId, size, [address, AI], EmptyBoard(size), Some(address), [socket], true);
        EmptyBoardIsLive(size);
        GamesOkPut(games, {}, gameId, game);
        games := games[gameId := game];
        outbox := outbox + [Emit(socket, GameStart(gameId, size, AIName, X, address))];
      }
    }

    /**
     * `disconnect`: the socket's first entry is spliced out of every queue.
     * Since a queue holds at most one entry, none from that socket remains,
     * so a second disconnect changes nothing.
     */
    method Disconnect(socket: string)
      requires Valid()
      modifies this
      ensures Valid()
      ensures waiting == Disconnected(old(waiting), socket)
      ensures games == old(games) && outbox == old(outbox) && timers == old(timers)
    {
      // the queue map holds exactly the sizes 3 and 4
      SpliceOut(3, socket);
      SpliceOut(4, socket);
      assert waiting == Disconnected(old(waiting), socket);
    }

    /** The `disconnect` step for one queue: the socket's first entry is spliced out. */
    method SpliceOut(size: int, socket: string)
      requires Valid() && size in waiting
      modifies this
      ensures Valid()
      ensures waiting == old(waiting)[size := Without(old(waiting)[size], socket)]
      ensures games == old(games) && outbox == old(outbox) && timers == old(timers)
    {
      var queue := waiting[size];
      var index := IndexOfSocket(queue, socket);
      WithoutClearsShortQueue(queue, socket);
      if index != -1 {
        ghost var sessions := games;
        assert GamesOk(sessions, {});
        waiting := waiting[size := queue[..index] + queue[index + 1..]];
        assert games == sessions;
      }
    }

    /** Files live session `g` under its id. */
    method Store(g: Game)
      requires Valid() && GameOk(g)
      modifies this
      ensures Valid()
      ensures games == old(games)[g.key := g]
      ensures waiting == old(waiting) && outbox == old(outbox) && timers == old(timers)
    {
      GamesOkPut(games, {}, g.key, g);
      games := games[g.key := g];
    }

    /** A `setTimeout`: the callback joins the pending timers. */
    method Schedule(t: Timer)
      requires Valid()
      modifies this
      ensures Valid()
      ensures timers == old(timers) + [t]
      ensures waiting == old(waiting) && games == old(games) && outbox == old(outbox)
    {
      timers := timers + [t];
    }

    /** `broadcastGameUpdate`: the board and the turn, to each socket of the session. */
    method BroadcastGameUpdate(g: Game)
      requires Valid()
      modifies this
      ensures Valid()
      ensures outbox == old(outbox) + Broadcast(g.sockets, GameUpdate(g.board, g.turn))
      ensures waiting == old(waiting) && games == old(games) && timers == old(timers)
    {
      outbox := outbox + Broadcast(g.sockets, GameUpdate(g.board, g.turn));
    }

    /** Writes the final board into session `key`, then settles it. */
    method SettleWith(key: GameKey, board: seq<Cell>, winner: Option<string>)
      requires Valid() && key in games && |board| == |games[key].board|
      modifies this, db
      ensures Valid()
      ensures games == old(games) - {key}
      ensures db.rows == Payout(old(db.rows), old(games)[key].players, winner)
      ensures outbox == old(outbox) + Broadcast(old(games)[key].sockets, GameOver(winner, board))
      ensures waiting == old(waiting) && timers == old(timers)
    {
      var game := games[key].(board := board);
      GamesOkPut(games, {}, key, game);
      assert {} + {key} == {key};
      PutThenDrop(games, key, game);
      games := games[key := game];
      HandleGameOver(key, winner);
    }

    /**
     * `handleGameOver`: pays out the settlement, sends the final board and the
     * winner to every socket of the session, and deletes it. An unknown id
     * changes nothing.
     */
    method HandleGameOver(key: GameKey, winner: Option<string>)
      requires ValidExcept({key})
      modifies this, db
      ensures Valid()
      ensures key !in old(games) ==> unchanged(this) && db.rows == old(db.rows)
      ensures key in old(games) ==>
        && db.rows == Payout(old(db.rows), old(games)[key].players, winner)
        && outbox == old(outbox) + Broadcast(old(games)[key].sockets, GameOver(winner, old(games)[key].board))
        && games == old(games) - {key}
        && waiting == old(waiting) && timers == old(timers)
    {
      if key !in games {
        forall k | k in games ensures SessionLive(games, {}, k) {
          assert SessionLive(games, {key}, k);
        }
        return;
      }
      var game := games[key];
      var finalBoard := game.board;
      if Truthy(winner) {
        if winner.value != AI {
          db.AddPoints(winner.value, WinPoints);
        }
      } else {
        var i := 0;
        while i < |game.players|
          invariant 0 <= i <= |game.players|
          invariant db.rows == DrawPayout(old(db.rows), game.players[..i])
          invariant unchanged(this)
        {
          var p := game.players[i];
          if p != AI {
            db.AddPoints(p, DrawPoints);
          }
          assert game.players[..i + 1][..i] == game.players[..i];
          i := i + 1;
        }
        assert game.players[..i] == game.players;
      }
      outbox := outbox + Broadcast(game.sockets, GameOver(winner, finalBoard));
      GamesOkDrop(games, {key}, key);
      assert {key} - {key} == {};
      games := games - {key};
    }

    /**
     * `make_move`: a move that is not admissible changes nothing. Otherwise the
     * mover's mark is written; a finished session is settled with X naming
     * the first player and O the second, and a continuing one passes the turn,
     * broadcasts the board and, in an AI session on the AI's turn, schedules
     * its reply.
     */
    method MakeMove(key: GameKey, index: int, address: string)
      requires Valid()
      modifies this, db
      ensures Valid()
      ensures !Admissible(old(games), key, index, address) ==> unchanged(this) && db.rows == old(db.rows)
      ensures Admissible(old(games), key, index, address) ==>
        var g := old(games)[key];
        var b := g.board[index := MoverMark(g.players, address)];
        var w := SettledWinner(g.players, Winner(b, g.size));
        && waiting == old(waiting)
        && (Terminal(b, g.size) ==>
              && games == old(games) - {key}
              && db.rows == Payout(old(db.rows), g.players, w)
              && outbox == old(outbox) + Broadcast(g.sockets, GameOver(w, b))
              && timers == old(timers))
        && (!Terminal(b, g.size) ==>
              var h := AfterMove(g, index, address);
              && games == old(games)[key := h]
              && db.rows == old(db.rows)
              && outbox == old(outbox) + Broadcast(g.sockets, GameUpdate(b, h.turn))
              && timers == old(timers) + (if g.isAI && h.turn == Some(AI) then [AIMove(key)] else []))
      ensures Admissible(old(games), key, index, address) ==> !Admissible(games, key, index, address)
    {
      if key !in games {
        return;
      }
      var game := games[key];
      if game.turn != Some(address) || !(0 <= index < |game.board|) || game.board[index] != Empty {
        return;
      }
      PlaceMark(key, index, address);
    }

    /** The part of `make_move` after its guards: an admissible move is played. */
    method PlaceMark(key: GameKey, index: nat, address: string)
      requires Valid() && Admissible(games, key, index, address)
      modifies this, db
      ensures Valid()
      ensures
        var g := old(games)[key];
        var b := g.board[index := MoverMark(g.players, address)];
        var w := SettledWinner(g.players, Winner(b, g.size));
        && waiting == old(waiting)
        && (Terminal(b, g.size) ==>
              && games == old(games) - {key}
              && db.rows == Payout(old(db.rows), g.players, w)
              && outbox == old(outbox) + Broadcast(g.sockets, GameOver(w, b))
              && timers == old(timers))
        && (!Terminal(b, g.size) ==>
              var h := AfterMove(g, index, address);
              && games == old(games)[key := h]
              && db.rows == old(db.rows)
              && outbox == old(outbox) + Broadcast(g.sockets, GameUpdate(b, h.turn))
              && timers == old(timers) + (if g.isAI && h.turn == Some(AI) then [AIMove(key)] else []))
      ensures !Admissible(games, key, index, address)
    {
      var game := games[key];
      var symbol := if game.players[0] == address then X else O;
      assert symbol == MoverMark(game.players, address);
      var board := game.board[index := symbol];
      var winner := CheckWinner(board, game.size);
      var isDraw := winner == Empty && Full(board);
      if winner != Empty || isDraw {
        assert Terminal(board, game.size);
        FinishMove(key, index, address, winner);
      } else {
        assert !Terminal(board, game.size);
        PassTurn(key, index, address);
      }
    }

    /** The finishing branch of `make_move`: X names the first player, O the second. */
    method FinishMove(key: GameKey, index: nat, address: string, winner: Cell)
      requires Valid() && Admissible(games, key, index, address)
      requires winner == Winner(games[key].board[index := MoverMark(games[key].players, address)], games[key].size)
      modifies this, db
      ensures Valid()
      ensures
        var g := old(games)[key];
        var w := SettledWinner(g.players, winner);
        && games == old(games) - {key}
        && db.rows == Payout(old(db.rows), g.players, w)
        && outbox == old(outbox) + Broadcast(g.sockets, GameOver(w, g.board[index := MoverMark(g.players, address)]))
        && waiting == old(waiting) && timers == old(timers)
    {
      var game := games[key];
      SettleWith(key, game.board[index := MoverMark(game.players, address)], SettledWinner(game.players, winner));
    }

    /**
     * The continuing branch of `make_move`: the turn passes to the other
     * player, the board is broadcast, and an AI reply is scheduled when due.
     */
    method PassTurn(key: GameKey, index: nat, address: string)
      requires Valid() && Admissible(games, key, index, address)
      requires !Terminal(games[key].board[index := MoverMark(games[key].players, address)], games[key].size)
      modifies this
      ensures Valid()
      ensures
        var h := AfterMove(old(games)[key], index, address);
        && games == old(games)[key := h]
        && outbox == old(outbox) + Broadcast(h.sockets, GameUpdate(h.board, h.turn))
        && timers == old(timers) + (if h.isAI && h.turn == Some(AI) then [AIMove(key)] else [])
        && waiting == old(waiting)
    {
      var game := games[key];
      assert SessionLive(games, {}, key);
      MoveKeepsGameOk(game, index, address);
      game := AfterMove(game, index, address);
      Store(game);
      BroadcastGameUpdate(game);
      if game.isAI && game.turn == Some(AI) {
        Schedule(AIMove(key));
      }
    }

    /**
     * The AI's delayed reply (`makeAIMove`): only in an AI session on the AI's
     * turn. The AI writes O into the cell `AIChoice` names for the two random
     * draws; a finished session is settled with X naming the human and O the
     * AI (the AI never completes an X line), and otherwise the human is to move.
     */
    method FireAIMove(key: GameKey, roll: real, pick: real)
      requires Valid()
      requires 0.0 <= roll < 1.0 && 0.0 <= pick < 1.0
      modifies this, db
      ensures Valid()
      ensures !(key in old(games) && old(games)[key].isAI && old(games)[key].turn == Some(AI)) ==>
        unchanged(this) && db.rows == old(db.rows)
      ensures key in old(games) && old(games)[key].isAI && old(games)[key].turn == Some(AI) ==>
        SessionLive(old(games), {}, key) &&
        var g := old(games)[key];
        var m := AIChoice(g.board, g.size, roll, pick);
        var b := g.board[m := O];
        var w := AISettledWinner(g.players, Winner(b, g.size));
        && Winner(b, g.size) != X
        && waiting == old(waiting) && timers == old(timers)
        && (Terminal(b, g.size) ==>
              && games == old(games) - {key}
              && db.rows == Payout(old(db.rows), g.players, w)
              && outbox == old(outbox) + Broadcast(g.sockets, GameOver(w, b)))
        && (!Terminal(b, g.size) ==>
              && games == old(games)[key := AfterAIMove(g, m)]
              && db.rows == old(db.rows)
              && outbox == old(outbox) + Broadcast(g.sockets, GameUpdate(b, Some(g.players[0]))))
    {
      if key !in games {
        return;
      }
      var game := games[key];
      if !game.isAI || game.turn != Some(AI) {
        return;
      }
      assert SessionLive(games, {}, key);
      var bestMove := ChooseAIMove(game.board, game.size, roll, pick);
      var board := game.board[bestMove := O];
      AIMoveKeepsGameOk(game, bestMove);
      var winner := CheckWinner(board, game.size);
      var isDraw := winner == Empty && Full(board);
      if winner != Empty || isDraw {
        SettleWith(key, board, AISettledWinner(game.players, winner));
      } else {
        game := game.(board := board, turn := Some(game.players[0]));
        Store(game);
        BroadcastGameUpdate(game);
      }
    }

    /**
     * The runtime firing pending timer `i`: it leaves the pending list and its
     * callback runs with the values it captured.
     */
    method Fire(i: nat, now: int, roll: real, pick: real)
      requires Valid() && i < |timers|
      requires 0.0 <= roll < 1.0 && 0.0 <= pick < 1.0
      modifies this, db
      ensures Valid()
      ensures timers == old(timers[..i] + timers[i + 1..])
    {
      var t := timers[i];
      timers := timers[..i] + timers[i + 1..];
      match t {
        case Fallback(socket, address, size) => FireFallback(socket, address, size, now);
        case AIMove(key) => FireAIMove(key, roll, pick);
      }
    }
  }
}
