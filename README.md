# Two-player real-time chess: a Dafny model of the session coordinator and the board helpers

The system lets two browser players play one chess game in real time. Any
further connections watch as spectators. The server (`app.js`) keeps one game
position and a role table. The table holds an optional White connection and
an optional Black connection. The server reacts to three socket events:

- **connection**: fill White first, then Black; otherwise call the socket a spectator.
- **disconnect**: free the slot the socket held.
- **move**: accept a move only from the holder of the side to move, pass it to the rules engine (chess.js), then broadcast the result to everyone or answer the sender privately.

The browser client (`public/js/chessgame.js`) turns drag gestures into move
requests. To draw the board it computes square names, light/dark classes,
piece glyphs, and which pieces the user may drag.

The model has six modules:

- `Wrappers`: `Option`, used for JavaScript's `undefined`/`null` slots.
- `RulesEngine`: chess.js as an abstract engine. `Position`, the move payload `Json` and the returned `MoveRecord` are abstract types. `Engine` holds three total functions: `turn`, `fen` and `apply`. `apply` yields `Legal(next, played)`, `Illegal` (chess.js returned null) or `Fault` (it threw).
- `Sessions`: the coordinator as a pure state machine over a `Session` value. The value holds the two slots, the position and an append-only outbox of `ToSender`/`Broadcast` messages. The module defines one transition per handler and `Run` over event sequences. Its lemmas cover whole event sequences: connection order, spectators once both slots are full (moves interleaved or not), spectators never having a move accepted, distinct role holders for fresh ids, roles independent of moves, and served moves equal to direct engine play. One more lemma covers slot reuse for a disconnect followed by a connect.
- `Server`: the class `Coordinator`, whose fields the handlers update in place. Each method states its new fields. It also states that its new state is the matching `Sessions` transition of the old one.
- `Board`: the client's pure helpers, as functions with lemmas. They are square names with their inverse, square shade, piece glyphs with their inverse, and the draggable and flipped predicates.
- `Client`: the class `BoardClient`, holding the role, the drag state, the local game and the moves sent. Its invariant is that a drag in progress always knows its source cell. A lemma ties the server's connect notice to what the new client may drag and whether its board is flipped.

The model follows the code, including these behaviours a reader might not expect:

- A new connection is sent only its role (`player_assigned` or `spectatorRole`). It is not sent the board state (app.js:24-32), so a late joiner sees the game's position only after the next accepted move.
- A move from a socket that does not hold the side to move is ignored. No rejection is sent (app.js:44-45).
- An engine exception is answered with an event named `"Invalid move: "` (app.js:57), not `"invalidmove"`. The client listens only for `"invalidmove"` (public/js/chessgame.js:143), so it never hears of the exception.
- A freed Black slot does not always go to the next connection. If Black leaves while White is empty, the next connection takes White, because White is always filled first (app.js:24-25).
- The server broadcasts the move payload exactly as it was received (app.js:49). The client sends the engine's own move description, not its request (public/js/chessgame.js:92).

## Model

| member | source | states |
|---|---|---|
| `RulesEngine.Colour.Code` | app.js:44-45 | the side to move is reported as "w" for White and "b" for Black, and as nothing else |
| `Sessions.Connect` | app.js:24-32 | an empty White slot takes the new id; else an empty Black slot takes it; else both slots are kept and a spectator notice is sent. A filled slot is never overwritten. Exactly one message is appended, and it goes to the new socket only. The position is untouched. With a fresh id, no connection ends up holding both slots |
| `Sessions.Disconnect` | app.js:34-40 | the slot held by the id is cleared, White tested first, and the other slot is kept. An id holding no slot changes nothing. Nothing is sent and the position is kept. The distinct-holders invariant is preserved and the id holds no slot afterwards |
| `Sessions.HandleMove` | app.js:42-59 | a sender not holding the side to move leaves the whole state unchanged. The roles never change. A legal move sets the position to the engine's result and appends exactly the broadcasts ("move", m) then ("boardState", FEN of the new position). An illegal move appends only ToSender(id, "invalidmove", m). A fault appends only ToSender(id, "Invalid move: ", m). In every case not accepted, the position is kept and nothing is broadcast |
| `Sessions.Step` | app.js:21-59 | one delivered event only appends to the outbox. Only a connect can give an id a slot. Connects and disconnects never move the game, moves never change the roles, and distinct holders are preserved for a fresh id |
| `Sessions.FreshIdsKeepRolesDistinct` | app.js:24-40 | across any event sequence whose connect ids are fresh, White and Black never hold the same id |
| `Sessions.FullTableMakesSpectators` | app.js:30-32 | once both slots are filled, any number of new connections each get one spectator notice, and nothing else changes |
| `Sessions.SpectatorNeverMoves` | app.js:42-46 | a socket holding no slot that does not connect again keeps holding none along any event sequence, and any move it sends at the end is ignored with nothing sent |
| `Sessions.FullTableStaysFull` | app.js:24-40 | once both slots are filled, any sequence of connects and moves without a disconnect leaves the role table unchanged |
| `Sessions.LateJoinersSpectate` | app.js:30-32 | after any such sequence, the next connection is sent only a spectator notice and changes nothing else |
| `Sessions.ConnectionOrder` | app.js:24-32 | from an empty table, the first connection becomes White, the second Black, and the rest spectators, each told exactly that |
| `Sessions.RolesIgnoreMoves` | app.js:42-59 | the role table after any event sequence equals the table after the same sequence with its moves removed |
| `Sessions.PlayersRegardlessOfMoves` | app.js:24-59 | the first two connections become White and Black, whatever moves are interleaved with them |
| `Sessions.DisconnectIdempotent` | app.js:34-40 | while the holders are distinct, disconnecting the same id twice is the same as disconnecting it once |
| `Sessions.SlotReuse` | app.js:24-40 | a freed White slot goes to the next new connection, and so does a freed Black slot while White is held; the other slot is kept, and the game position survives |
| `Sessions.ServedMovesMatchEngine` | app.js:42-50 | legal moves sent one at a time by the holder of the side to move reach the position the engine reaches by playing them directly. The outbox gains exactly each move and its new FEN, in order, and the roles are untouched |
| `Server.Coordinator.constructor` | app.js:11-12 | at process start both slots are empty, the position is the given initial position, and nothing has been sent |
| `Server.Coordinator.OnConnect` | app.js:24-32 | the connect handler's updates to white, black and outbox in each of the three cases, with the position unchanged; the new state is `Sessions.Connect` of the old |
| `Server.Coordinator.OnDisconnect` | app.js:34-40 | the disconnect handler clears only the slot the id held, and the position and outbox stay the same; the new state is `Sessions.Disconnect` of the old |
| `Server.Coordinator.OnMove` | app.js:42-59 | the move handler: a silent return for a sender not on turn; else the position and outbox for each engine outcome, with the roles unchanged; the new state is `Sessions.HandleMove` of the old |
| `Board.SquareName` | public/js/chessgame.js:80-81 | a grid cell's name is a square name whose file index is the column (column 0 is file a) and whose rank is 8 minus the row (row 0 is rank 8) |
| `Board.ParseSquare` | public/js/chessgame.js:80-81 | the inverse reading: it is defined exactly on the square names a1..h8, and each maps to a grid cell |
| `Board.SquareNameRoundTrip` | public/js/chessgame.js:80-81 | reading back a generated name gives the cell it came from |
| `Board.ParseSquareRoundTrip` | public/js/chessgame.js:80-81 | every one of the 64 square names is generated, from the cell it denotes |
| `Board.SquareNameInjective` | public/js/chessgame.js:80-81 | distinct grid cells have distinct names, so the naming is a bijection onto the square names |
| `Board.CornerSquares` | public/js/chessgame.js:80-81 | cell (0,0) is a8, (0,7) is h8, (7,0) is a1 and (7,7) is h1 |
| `Board.SquareShade` | public/js/chessgame.js:18-21 | on the grid, a cell is light exactly when its row and column have the same parity |
| `Board.ShadeAlternates` | public/js/chessgame.js:20 | horizontally or vertically adjacent cells get opposite light/dark classes |
| `Board.ShadeOfSquare` | public/js/chessgame.js:20 | a grid cell is light exactly when its square's file index plus rank number is even, so a1 is dark and h1 light |
| `Board.LookupKey` | public/js/chessgame.js:116 | the key has the type's length, is the type itself for a colour other than "w", and is a key of the glyph table for every chess.js piece |
| `Board.PieceGlyph` | public/js/chessgame.js:97-118 | the glyph is "" exactly when the lookup key is not in the table; otherwise it is one chess-symbol character |
| `Board.PieceOfGlyph` | public/js/chessgame.js:98-113 | reading a glyph back yields a real chess piece or nothing |
| `Board.GlyphIdentifiesPiece` | public/js/chessgame.js:97-118 | every chess.js piece gets one character. The character is a white symbol exactly when the piece is white, and reading it back gives the piece |
| `Board.GlyphInjective` | public/js/chessgame.js:97-118 | two chess.js pieces with the same glyph are the same piece |
| `Board.ColourOnlyChoosesCase` | public/js/chessgame.js:116-117 | colour "w" looks up the upper-cased type. Any other colour looks the type up as given, so an upper-case type under a non-"w" colour shows a white glyph |
| `Board.Draggable` | public/js/chessgame.js:29 | under the null role no piece is draggable; under a role, a piece is draggable exactly when its colour equals the role |
| `Board.Flipped` | public/js/chessgame.js:70-74 | the board is flipped exactly when the role is "b": never under the null role and never for "w" |
| `Board.DragView` | public/js/chessgame.js:29 | every chess.js piece can be dragged by exactly one of the two players, and never by a spectator |
| `Client.RoleOf` | public/js/chessgame.js:121-131 | a "player_assigned" notice with a colour sets the role to that colour, a "spectatorRole" notice sets it to null, and only a "player_assigned" notice gives a role |
| `Client.ConnectNoticeView` | public/js/chessgame.js:121-131 | after the server's connect notice, a new connection may drag a colour's pieces exactly when it was given that colour's slot, its board is flipped exactly when it became Black, and it has a role exactly when a slot was free |
| `Client.RequestFor` | public/js/chessgame.js:79-83 | the request always asks for a queen promotion, and its from/to fields are square names that read back to the source and target cells |
| `Client.BoardClient.constructor` | public/js/chessgame.js:6-8 | at page load there is no role, no dragged piece, no source square, and nothing has been sent |
| `Client.BoardClient.OnPlayerAssigned` | public/js/chessgame.js:121-125 | the role becomes the colour the server sent; the board is flipped exactly when that colour is "b"; nothing else changes and the drag invariant is kept |
| `Client.BoardClient.OnSpectatorRole` | public/js/chessgame.js:127-131 | the role becomes null, so the board is not flipped and no piece is draggable; nothing else changes and the drag invariant is kept |
| `Client.BoardClient.OnDragStart` | public/js/chessgame.js:31-38 | a draggable piece records itself and its cell; a piece that is not draggable changes nothing, so under a spectator's null role no drag ever starts; the drag invariant is kept |
| `Client.BoardClient.OnDragEnd` | public/js/chessgame.js:40-44 | both the dragged piece and the source square are reset to null |
| `Client.BoardClient.OnDrop` | public/js/chessgame.js:53-62 | a move is attempted only while a piece is dragged, from its recorded source cell to the drop cell; without a dragged piece nothing changes |
| `Client.BoardClient.HandleMove` | public/js/chessgame.js:78-94 | a move the local engine plays updates the local game and sends the engine's move description; a refused or faulting move sends nothing and keeps the game; the drag invariant is kept |

## Left out

- chess.js internals are not modelled: move legality, FEN generation, `load`, `board`. So the model does not claim that the side to move changes after a legal move, and a concrete game such as 1.e4 e5 cannot be replayed in the model.
- An engine call that throws (`Fault`) is taken to leave the position unchanged.
- Express, the http server, EJS rendering, static files and `server.listen` are not modelled (app.js:1-19, 62-64). They are I/O.
- The socket.io transport is reduced to an outbox of tagged messages. Delivery, ordering across sockets and failures are not modelled.
- All `console.log` calls, on the server and in the client, and the client's logging-only "invalidmove" listener are left out. They carry no behaviour.
- The DOM work of `renderBoard` is left out: creating elements, `innerHTML`, classList and dataTransfer, and its two nested `forEach` loops. Only the values it computes per cell are modelled.
- The client's "boardState" and "move" listeners (public/js/chessgame.js:133-141) are left out. They only call the engine and redraw. The redraw after a client move is left out as well.
- Concurrency needs no model: each handler is one atomic transition, because events are delivered one at a time.
- The slot tests are modelled as plain absence. app.js tests whether a slot is falsy (`!players.white`), and that agrees with absence only because socket.io ids are never empty.
- Board.SquareName: defined only for cells of the 8x8 grid, the only cells renderBoard produces. `String.fromCharCode` and number formatting are not modelled for other values.
- Board.PieceGlyph: upper-casing covers the letters a-z only. Keys that JavaScript objects inherit (such as "toString") are treated as missing, although in JavaScript they would return a function. chess.js only produces the six type letters, so neither gap shows.
- Client.BoardClient.OnDragStart: the element's `draggable` flag is set when the board is drawn. The model reads it from the current role, since every role change redraws the board.
- Client.BoardClient: the dragged DOM element is modelled as the piece it shows.
- Client.BoardClient.HandleMove: a throwing engine call escapes the drop listener. The model records only the visible effect: nothing is sent.
