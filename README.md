# xox game server, verified model

This project models the authoritative game engine of the xox tic-tac-toe
server (`server.ts`). Two players, or one player and the server's AI, play
on a 3x3 or 4x4 board. The engine has these parts:

- **Board evaluator** (`Board`). It reports the first complete line of a
  board, scanning rows, then columns, then the main diagonal, then the
  anti-diagonal. It also lists the free cells.
- **AI search** (`Search`). Depth-bounded minimax on a board array that it
  changes and restores in place. O maximises (+10), X minimises (-10), and a
  draw or an exhausted depth scores 0. Ties go to the first best free cell.
- **Users table** (`Users`):
  - point awards, with the NFT multiplier and a one-level referral bonus of
    half the award;
  - the daily check-in with its 7-day and 30-day streak bonuses.
- **Server state and handlers** (`Engine`). One `Registry` object holds what
  the socket handlers update in place: the waiting queue per board size, the
  live sessions, the messages sent and the pending timers. Its methods are:
  - `join_queue` and its AI fallback timer, and `disconnect`;
  - `make_move`, the AI's delayed reply, and the game-over settlement.

Each handler method is proved against a specification function and keeps
an invariant of the registry. The one exception is `Registry.Fire`, which
only dispatches a timer; see "## Left out". The invariant says:

- each queue holds at most one entry;
- every session is filed under its own id, on a square board of size 3 or 4;
- every session is still in play: no complete line and a free cell;
- when the two players are distinct addresses, the turn follows the marks:
  X, the first player, moves when both marks are equally many. An AI
  session whose human player uses the address "AI" is exempt.

Lemmas about the specification functions carry the rest:

- the evaluator reports exactly the first complete line;
- a move can only make its mover win;
- minimax proposes a free cell, namely the first best one;
- a disconnect leaves nothing from the socket and is idempotent;
- a draw pays each player one point times their multiplier;
- consecutive check-ins build the streak and pay each bonus once.

The model follows what the code does:

- The client's inputs (move index, board size, address) are ordinary values.
  An index outside the board leaves the state unchanged: `board[index]` is
  then `undefined`, so the guard returns. For a size other than 3 or 4, the
  handler's queue lookup is `undefined` and `queue.find` throws before any
  change. The model returns without change instead (see "## Left out").
- `make_move` trusts the address in the message. In an AI session, a client
  that sends the address "AI" on the AI's turn is accepted as the AI's move.
  The model keeps this behaviour (`Admissible`).
- A winner named by an empty string counts as no winner, because the
  settlement tests the address for JavaScript truthiness (`Users.Truthy`).
  A referrer stored as an empty string likewise gets no bonus.

## Model

| member | source | states |
|---|---|---|
| Board.CheckWinner | server.ts:323-383 | The row, column and diagonal loops with early exit return exactly `Winner`: the mark of the first complete line in evaluation order, or null. |
| Board.LineComplete | server.ts:328-339 | One line's test: its first cell is set and every cell repeats it, if and only if the line is complete. |
| Board.ScanLine | server.ts:331-337 | The inner loop with a `win` flag and `break` is true exactly when every cell of the line equals the first. |
| Board.Idx | server.ts:328-374 | Every index the scan computes (`r*size+c`, `i*size+i`, `i*size+(size-1-i)`) is inside the board. |
| Board.Lines | server.ts:326-380 | The evaluation order: all rows, then all columns, then the main diagonal, then the anti-diagonal. |
| Board.WinnerIsFirstCompleteLine | server.ts:323-383 | A reported mark fills every cell of some line, and no line earlier in evaluation order is complete. |
| Board.NoWinnerNoCompleteLine | server.ts:382 | When the evaluator returns null, no row, column or diagonal is complete. |
| Board.WinnerReportsCompleteLine | server.ts:323-383 | The first complete line in evaluation order is the one reported, so any complete line makes the result non-null. |
| Board.EmptyBoard | server.ts:204 | A new board has `size * size` cells, all empty. |
| Board.EmptyBoardIsLive | server.ts:204 | A new board has no winner and a free cell, and holds no X or O. |
| Board.EmptyCells | server.ts:389 | The listed free cells are indices of empty cells. |
| Board.EmptyCellsListsEveryFreeCellInOrder | server.ts:389 | The list holds every empty cell in strictly increasing order, and it is empty exactly when the board is full. |
| Board.FreeCellListed | server.ts:389-390 | A board that is not full lists at least one free cell. |
| Board.AvailableSpots | server.ts:389 | The `map`/`filter` pass over the board yields exactly the free-cell list. |
| Board.MarkCounts | server.ts:244 | Writing a mark into a free cell adds one to that mark's count and leaves the other mark's count. |
| Board.MoverIsOnlyPossibleWinner | server.ts:243-250 | On a board without a complete line, writing mark `s` into a free cell makes the evaluator report `s` or nothing. |
| Search.Other | server.ts:433-439 | The recursion hands the move to the other mark. |
| Search.BestPos | server.ts:445-462 | The chosen position is beaten by no score, and it strictly beats every earlier one (the first best). |
| Search.BestPosUnique | server.ts:445-462 | Only one position is the first best, so any scan with those two properties agrees with `BestPos`. |
| Search.MoveScores | server.ts:426-443 | One score per free cell tried, each in {-10, 0, 10}. |
| Search.MinimaxValue | server.ts:418-464 | The search's result as a function of the board; its score is always -10, 0 or 10. |
| Search.MinimaxProposesFreeCell | server.ts:419-424 | An index is returned exactly when there is no winner, a free cell exists and depth is left; it is then a free cell. |
| Search.MinimaxPicksFirstBest | server.ts:445-463 | The proposed cell is the k-th free cell. Its score is the best for the mover (maximum for O, minimum for X), and every earlier free cell scores strictly worse. |
| Search.Minimax | server.ts:418-464 | The in-place search hands the array back exactly as received and returns `MinimaxValue` of the board. |
| Search.TryMoves | server.ts:426-443 | Trying every free cell in order restores the array and records each cell with its score one ply deeper. |
| Search.BestMoveIndex | server.ts:445-462 | The running-best scan with strict `>` (for O) or `<` (for X) returns the first best position. |
| Users.Credited | server.ts:302-317 | An unknown user changes nothing. Otherwise the user gains base times the multiplier, a truthy referrer gains half of that, and no other row changes. |
| Users.UserTable.AddPoints | server.ts:302-321 | The table after the update is `Credited` of the table before. |
| Users.CheckinOn | server.ts:155-175 | Same day is refused. Otherwise the streak grows after yesterday and restarts at 1 otherwise; 1 point is paid, plus 7 exactly at streak 7 and 30 exactly at streak 30. |
| Users.CheckinOncePerDay | server.ts:155-157 | An accepted check-in makes a second one on the same day refused. |
| Users.ConsecutiveCheckins | server.ts:159-172 | k consecutive daily check-ins after a break reach streak k and pay k points plus each bonus once. |
| Users.UserTable.CheckIn | server.ts:142-175 | An unknown user gets the not-found reply (`None`) and no change. A refused check-in changes nothing, and an accepted one stores `CheckinOn`'s row. |
| Users.FixedOffsetAgreesWithDays | server.ts:150-162 | In a zone with a fixed offset, the handler's comparison of local midnights gives the same new streak as the day-number rule. |
| Users.StreakAsWritten | server.ts:160-162 | The streak grows by one when the two local midnights are exactly 24 hours apart, and restarts at 1 otherwise. |
| Users.DaylightSavingResetsStreak | server.ts:150-162 | Across a spring-forward night, check-ins on consecutive days restart the streak as written, while the day-number rule extends it. |
| Engine.Broadcast | server.ts:269-273 | One message per socket of the session, in order, each carrying the payload. |
| Engine.OtherPlayer | server.ts:252 | `players.find(p => p !== address)`: the first other player; none exactly when every player is the mover. |
| Engine.IndexOfSocket | server.ts:219 | `findIndex` by socket: the first matching entry, or -1 exactly when none matches. |
| Engine.WithoutRemovesFirstMatch | server.ts:263-264 | `splice(index, 1)` drops the first entry from the socket and keeps the others in order; with no match the queue is kept. |
| Engine.WithoutClearsShortQueue | server.ts:263-264 | On a queue of at most one entry, nothing from the socket remains after the splice. |
| Engine.Disconnected | server.ts:261-266 | Disconnecting touches each size's queue and adds or removes no size. |
| Engine.DisconnectClearsSocket | server.ts:261-266 | No entry from the socket remains. No queue grows, queues without the socket are unchanged, and a second disconnect changes nothing. |
| Engine.SettledWinner | server.ts:250 | After a human move, there is no winner exactly when no line is complete. A named winner is one of the players, and when the players are distinct it is the one whose mark won (X the first player, O the second). |
| Engine.AISettledWinner | server.ts:411 | After the AI's move, there is no winner exactly when no line is complete. In an AI session the named winner is a player, and for a human not named "AI" it is the one whose mark won (X the human, O the AI). |
| Engine.DrawPayout | server.ts:288-292 | A draw credits the players one after another and keeps the set of users. |
| Engine.Payout | server.ts:281-293 | An AI win pays nothing, a truthy human winner is credited the win points, and no winner is a draw payout to every non-AI player. |
| Engine.DrawPaysEachPlayer | server.ts:287-292 | In a draw between two humans who did not refer each other, each gains exactly 1 times their own multiplier. |
| Engine.PickIndex | server.ts:394 | `Math.floor(random * length)` is a valid position for a draw in [0, 1). |
| Engine.RandomChoice | server.ts:394 | The random pick is a free cell. |
| Engine.SearchChoice | server.ts:396-398 | On a live board, minimax for O at depth 10 (3x3) or 5 (4x4) proposes a free cell. |
| Engine.AIChoice | server.ts:389-403 | On a live board, whichever branch the roll selects yields a free cell. |
| Engine.ChooseAIMove | server.ts:389-403 | Free cells, then the random pick or the search, then the fallback to the first free cell: the result is `AIChoice`. |
| Engine.SearchMove | server.ts:396-398 | Minimax on a copy of the board: the result is `SearchChoice`. |
| Engine.AfterMove | server.ts:243-252 | An accepted move writes only the mover's mark (X for the first player, O otherwise) and passes the turn to the other player. |
| Engine.AfterAIMove | server.ts:405-413 | The AI writes O and hands the turn back to the first player; nothing else changes. |
| Engine.MoveKeepsGameOk | server.ts:243-252 | A move that does not end the session leaves it in play with the turn following the marks. |
| Engine.MoveWinnerIsMover | server.ts:243-250 | A session ended by a move is drawn or won by the mover, never by the opponent. |
| Engine.AIMoveKeepsGameOk | server.ts:405-413 | The AI's move never makes X win, and if it does not end the session the session stays in play. |
| Engine.Registry.constructor | server.ts:183-187 | The queues for sizes 3 and 4 start empty, with no sessions. |
| Engine.Registry.JoinQueue | server.ts:192-215 | An unsupported size or an address already queued changes nothing. A waiting opponent is shifted out and paired (first player, empty board, opponent to move, two `game_start` messages). Otherwise the player is queued and a fallback is scheduled. |
| Engine.Registry.FireFallback | server.ts:217-235 | Acts only while the socket is still queued: the entry is spliced out, an AI session `[address, "AI"]` starts with the human to move, and `game_start` is sent. |
| Engine.Registry.Disconnect | server.ts:261-266 | The queues become `Disconnected` of the old queues; sessions, messages and timers are unchanged. |
| Engine.Registry.SpliceOut | server.ts:263-264 | One queue loses the socket's first entry. |
| Engine.Registry.Store | server.ts:244-252 | The in-place writes to a live session (board and turn, also at lines 405 and 413): the session is filed under its id, nothing else changes, and the registry stays valid. |
| Engine.Registry.Schedule | server.ts:256 | A `setTimeout` appends its timer to the pending list and changes nothing else. |
| Engine.Registry.SettleWith | server.ts:244-250 | The final board is written into the session, then settled: paid out, announced with that board to each socket, and deleted (also at lines 405-411). |
| Engine.Registry.BroadcastGameUpdate | server.ts:269-273 | `game_update` with board and turn goes to each socket of the session. |
| Engine.Registry.HandleGameOver | server.ts:275-300 | An unknown session changes nothing. Otherwise `Payout` is credited, `game_over` goes to each socket, and the session is deleted. |
| Engine.Registry.MakeMove | server.ts:239-259 | A move that is not admissible changes nothing. An admissible one either settles the finished session or passes the turn and broadcasts, scheduling an AI reply when due. The same move is not admissible again afterwards. |
| Engine.Registry.PlaceMark | server.ts:243-258 | The accepted move in both outcomes: settled with the named winner, or continued with the new board and turn. |
| Engine.Registry.FinishMove | server.ts:249-250 | The finished session is paid out, announced with the final board and deleted. |
| Engine.Registry.PassTurn | server.ts:251-257 | The session is stored with `AfterMove`, the update is broadcast, and `AIMove` is scheduled exactly when it is the AI's turn. |
| Engine.Registry.FireAIMove | server.ts:385-416 | Outside an AI session on the AI's turn, nothing changes. Otherwise O goes into the `AIChoice` cell, X never wins, and the session is settled or handed back to the human. |
| Engine.Registry.Fire | server.ts:217-256 | Fires a pending timer: the fallback scheduled at line 217 or the AI reply scheduled at line 256. The timer leaves the pending list and the registry stays valid. |

## Definitions

These definitions have no contract of their own. The lemmas and methods above state their meaning.

- `Board.Complete`, `Board.FirstWin` and `Board.Winner` (server.ts:323-383): the evaluator as a function. Characterized by `WinnerIsFirstCompleteLine`, `NoWinnerNoCompleteLine` and `WinnerReportsCompleteLine`.
- `Board.Full` (server.ts:247, 408): `board.every(cell => cell !== null)`. Characterized by `EmptyCellsListsEveryFreeCellInOrder`.
- `Engine.Terminal` (server.ts:247-249, 408-410): a winner or a full board, which ends the session.
- `Engine.Admissible` (server.ts:240-241): the guard of `make_move`. It is used by `MakeMove`'s contract in both directions.
- `Engine.MoverMark` (server.ts:243): X for the first player, O otherwise.
- `Engine.Queued` (server.ts:194): the duplicate-address test of `join_queue`.
- `Engine.Without` (server.ts:221, 264): the `splice` of the first entry from a socket. Characterized by `WithoutRemovesFirstMatch`.
- `Engine.SearchDepth` (server.ts:396): depth 10 on 3x3 and 5 on 4x4.
- `Users.Truthy` (server.ts:281, 314): JavaScript truthiness of a nullable address.
- `Users.Multiplier` (server.ts:307): 2 for an NFT holder, else 1.
- `Users.StreakBonus` (server.ts:164-170): 7 at streak 7, 30 at streak 30, else 0. Characterized by `CheckinOn`'s contract.
- `Users.LocalMidnight` (server.ts:152-153): the instant of a local midnight, given the zone's offset that day.

## Left out

- SQL, the leaderboard ranking, the user lookup, and the subscribe and referral endpoints: the users table is a map, and only the points, NFT flag, referrer and check-in fields are modelled.
- Express, Vite, the static files and the miniapp and frame HTML routes: no engine logic.
- Socket.io transport: each emit is an `Emit` event appended to `outbox`, in the order the source sends them.
- Real timers: each `setTimeout` appends a `Timer` record. `Registry.Fire` runs a chosen pending one, so the 5000 ms and 500 ms delays and the firing order are not modelled.
- `Math.random()` and `Date.now()`: the two random draws of the AI move and the clock are parameters.
- Local-time conversion in the check-in: days are integer day numbers; `Users.LocalMidnight` covers only the fixed-offset arithmetic.
- The `try`/`catch` around `addPoints` and the check-in: database errors are not modelled.
- Session ids are the datatype `GameKey`, not concatenated strings, so two ids built from different parts never collide.
- Sessions are values in a map that handlers replace. The source mutates game objects in place, but only the session table refers to them, so nothing is aliased.
- Engine.Registry.JoinQueue: for a size other than 3 or 4, the handler throws a `TypeError` at `queue.find` before changing anything. The model returns without change and does not model the exception or its report to the socket runtime.
- The `size = 3` default and non-numeric sizes, indices or addresses of the socket messages: sizes and indices are already integers here.
- Engine.Registry.FireAIMove: its `availSpots.length === 0` early return is not modelled, because the registry invariant keeps a free cell in every live session.
- Search.MinimaxValue: that perfect play from the empty 3x3 board ends in a draw is not stated; it needs the whole game tree.
- Engine.Registry.Fire: its contract states only the timer list and the invariant. The callback's effect is stated by `FireFallback` and `FireAIMove`.
- Engine.DrawPaysEachPlayer: it assumes the two players did not refer each other, because a mutual referral adds a referral bonus on top.

## Findings

| source | as written | input that shows it | evidently intended | confidence | as-written member | corrected member |
|---|---|---|---|---|---|---|
| server.ts:160 | The streak grows only when `todayDate - lastDate` equals 24 hours, where both are local midnights. | A server zone with daylight saving: check-ins on the days before and after the clocks go forward are 23 hours of local midnight apart (25 hours going back), so the streak restarts at 1. | The streak grows whenever the last check-in was the previous calendar day. | medium; not executed; it arises only if the server's local zone observes daylight saving | Users.DaylightSavingResetsStreak | Users.CheckinOn |
