# PokéChess core, modelled in Dafny

PokéChess is a multiplayer chess game whose pieces are drawn as Pokémon. This project models its
core logic and proves properties of that model.

- **Game server.** A WebSocket server keeps a Map of rooms. Each room has seats `w` and `b`, the seated
  players' names and trainer characters, a Set of spectators and a chess.js game. The server handles
  JOIN_ROOM, MOVE, SURRENDER, RESET, CHAT and socket close. It lists the open rooms, and in rooms whose
  id starts with "ai" it plays black as a computer opponent.
- **Rating ledger.** An SQLite table of Elo accounts. It supports read-through account creation, the
  K = 32 rating update and the top-20 leaderboard.
- **Client.** The 3D piece tracker that reconciles piece identities with each new board. The board
  component's click-driven selection, captured-piece trays, game-over banner and square shading. The
  battle overlay's creature, sprite, cry and effectiveness helpers. The settings and character stores.
  The event emitter. The mini-map's orientation flip.

chess.js is not re-implemented. It appears as the oracle `Chess.Rules`, a record of functions on
positions: side to move, piece on a square, legal moves, result of a move request (`None` where
chess.js throws), position after a move, and the checkmate, draw, stalemate and game-over tests.
Sockets are numbers with an "open" set. Every `send` is appended to a log of (recipient, message)
outputs, so who receives what is stated as a property of that log.

Modules and files:

- `wrappers.dfy` (`Wrappers`): `Option`.
- `text.dfy` (`Text`): `startsWith`, and decimal printing with its inverse.
- `chess.dfy` (`Chess`): colours, kinds, pieces, moves, the board, square names, roles, trainer
  characters and the rules oracle.
- `ledger.dfy` (`Ledger`): the accounts table as a class over a map, with the rating arithmetic
  and the leaderboard query.
- `server_rooms.dfy` (`Rooms`): one room's state as a value. It holds the rules for seat assignment,
  recipients, ratings, the computer's turn, surrender, close and the room listing, and the lemmas
  about them.
- `server.dfy` (`Server`): the mutable server. It has classes `Room`, `Connection`, `Network` and
  `Server`; each handler is a method proved against the functions of `Rooms`.
- `pieces.dfy` (`AnimatedPieces`): `getBoardPos` and the `setPieces` reconciliation, written as loops
  over sequences and proved against specification functions.
- `board_view.dfy` (`ChessBoard`): the board component's pure read-outs, and a class `BoardState`
  with its state cells and the click, move and promotion handlers.
- `battle.dfy` (`BattleOverlay`): `POKEMON_MAP`, `getSpriteUrl`, `getCryUrl` and `getEffectiveness`.
- `store.dfy` (`Store`): the settings actions, the character store and its `merge`.
- `events.dfy` (`Events`): the `EventEmitter` class.
- `minimap.dfy` (`MiniMap`): the mini-map's flip, shading and dots.

Points where the code behaves in a way a reader might not expect, all modelled as the code does them:

- **The armed computer turn does not look the room up again.** When it fires, it plays on the room
  object it captured, even if that room was deleted in the meantime. It reads the connection's
  *current* room id for the "ai" rating test (server.ts:153-201). `Server.Server.FireAi` models
  exactly that.
- **A surrender is rated before it is broadcast** (server.ts:226-244), and a surrender does update
  ratings under the rating guard. `Server.Server.Surrender` calls `Rate` before `Broadcast`.
- **The opponent note goes to whichever seat is the joiner's opponent.** A joiner taking seat `b`
  notifies seat `w`. A joiner taking seat `w` while `b` is held notifies `b` (server.ts:110-122).
- **Nothing stops a socket from joining twice.** Each join admits the socket again, as the code does.

## Model

| member | source | states |
|---|---|---|
| Ledger.ExpectedAtZero | db.ts:41-42 | Under the expected-score law (strictly between 0 and 1, and the two sides sum to 1), equal ratings give an expected score of exactly 1/2. |
| Ledger.Round | db.ts:45-46 | `Math.round`: the result r satisfies r ≤ x + 0.5 < r + 1. |
| Ledger.Rated | db.ts:38-46 | K = 32 update: the winner's new rating is between w and w + 32, the loser's between l − 32 and l. |
| Ledger.EqualRatingsExample | db.ts:41-46 | Two players rated 1200 end at 1216 (winner) and 1184 (loser). |
| Ledger.RatedNearlyZeroSum | db.ts:41-46 | The two ratings' sum changes by 0, or by 1 when both deltas round a half upwards. |
| Ledger.SettleDistinct | db.ts:34-50 | For winner ≠ loser: both accounts exist afterwards; the winner has exactly one more win, the loser exactly one more loss; both new ratings come from the pre-update pair; the other counters and every other account are unchanged. |
| Ledger.SettleSelf | db.ts:34-50 | Winner and loser under one name: the row gains one win and one loss, and ends 16 points lower because the loser's write comes second. |
| Ledger.SettleSteps | db.ts:35-49 | Two reads, then the winner's write, then the loser's write, give exactly the table of `Settle`. |
| Ledger.InsertByElo | db.ts:53 | Inserting one row adds one element, drawn from the row or the list. |
| Ledger.InsertAdds | db.ts:53 | Inserting adds exactly that row (multiset). |
| Ledger.InsertSorted | db.ts:53 | Inserting into a list sorted by descending rating keeps it sorted. |
| Ledger.SortByElo | db.ts:53 | `ORDER BY elo DESC`: the result is sorted by descending rating and is a permutation of the rows. |
| Ledger.SortedSplit | db.ts:53 | In a sorted list, nothing after position k is rated above anything before it. |
| Ledger.TopByElo | db.ts:53 | `LIMIT n`: min(n, rows) rows, sorted, a sub-multiset of the rows, and no row left out is rated above a returned one. |
| Ledger.RowsOf | db.ts:53 | The table's rows in storage order, one per stored name. |
| Ledger.TopRowsStored | db.ts:53 | Every row of a top-n listing is the table's own row for its username. |
| Ledger.TopRowsRanked | db.ts:53 | A top-n listing of a table has min(n, accounts) rows, and no stored account left out is rated above a listed one. |
| Ledger.Ledger.constructor | db.ts:8-15 | The table starts empty. |
| Ledger.Ledger.GetAccount | db.ts:24-32 | Returns the stored row, or the defaults (1200, 0, 0). The defaults are inserted exactly when the name is unknown; a known name's row is untouched. |
| Ledger.Ledger.UpdateElo | db.ts:34-50 | The new table is `Settle` of the old one (see SettleDistinct), and the table's invariants are kept. The storage order gains exactly the winner's name, then the loser's, for those not already stored. |
| Ledger.Ledger.Record | db.ts:48-49 | The two UPDATE statements: the winner's row gets the new rating and one more win, then the loser's row (read after that write) gets its new rating and one more loss; the storage order and the invariants are kept. |
| Ledger.Ledger.Leaderboard | db.ts:52-54 | `getLeaderboard`: min(20, accounts) accounts, in non-increasing rating order, each the stored row for its name; no account left out is rated above a listed one. |
| Rooms.DisplayName | server.ts:78-84 | A missing or empty username becomes "Anonymous"; any other is kept. The result is never empty. |
| Rooms.CharacterOf | server.ts:57-61 | A character payload is present exactly when one was sent. Each falsy field defaults ("red", "Pokémon Trainer", 25) and each truthy field is kept. |
| Rooms.NewRoom | server.ts:64-73 | An unknown room id gets a room with no seats, no spectators and the initial position. |
| Rooms.AdmitPreserves | server.ts:75-91 | Seat `w` if free, else `b`, else spectator (exactly when both seats are held). A seated joiner holds that seat. No held seat, name, character or position changes, and the spectator Set stays a set. |
| Rooms.JoinAll | server.ts:76-91 | A sequence of joins gives one role per joiner. |
| Rooms.JoinFullRoom | server.ts:88-91 | In a room with both seats held, every joiner becomes a spectator, appended in join order; the seats are unchanged. |
| Rooms.JoinFreshRoom | server.ts:76-91 | In a fresh room the first joiner gets `w`, the second `b`, and every later joiner is a spectator, in join order. |
| Rooms.LiveMembers | server.ts:146-150 | The readiness filter keeps exactly the open members. |
| Rooms.AudienceMembers | server.ts:146-150 | A socket is addressed by a room broadcast exactly when it is open and holds a seat or spectates. |
| Rooms.HearsBroadcast | server.ts:146-150 | The same statement, for the sends of a broadcast. |
| Rooms.Deliver | server.ts:146-150 | One send per recipient, in order, all with the same message. |
| Rooms.JoinRepliesShape | server.ts:98-122 | The joiner gets INIT_GAME with its role first. A second message (OPPONENT_CHARACTER) is sent exactly when the joiner is seated and the opponent seat is held and open, and it goes to that seat. Spectators cause none. |
| Rooms.RatingPairExact | server.ts:203-209 | Ratings are updated iff the room id does not start with "ai" and both seat names exist, are non-empty and are not "Anonymous". Both directions; the winner's name comes first. |
| Rooms.NoRatingInAiRooms | server.ts:203-209 | Computer rooms never update ratings. |
| Rooms.ActingSeatExact | server.ts:126 | Only a connection with a non-empty room and a seat acts for a seat. Spectators and connections that never joined do not. |
| Rooms.Captures | server.ts:157 | The filter keeps exactly the capturing moves. |
| Rooms.AiChoices | server.ts:155-160 | Draws from the captures when any exist, else from all moves. The pool is never empty when a legal move exists. |
| Rooms.Pick | server.ts:159-160 | `Math.floor(Math.random() * n)` with the draw in [0, 1) picks a member of the list. |
| Rooms.Vacate | server.ts:299-301 | Close removes the socket from whichever seat it holds and from the spectators, keeps everyone else, and keeps the Set a set. |
| Rooms.Without | server.ts:299-305 | `Set.delete`/`Map.delete`: removes exactly that element, and no duplicates appear. |
| Rooms.VacateEmpties | server.ts:304-306 | After close the room is empty iff each seat and spectator slot was empty or held by the closing socket. |
| Rooms.SenderLabel | server.ts:271-274 | "Spectator" for spectators, the seat's name when it is non-empty, "Anonymous" otherwise. Never empty. |
| Rooms.ListRooms | server.ts:318-320 | `/api/rooms`: an id is listed iff its room has a seated player and its id does not start with "ai". |
| Rooms.Played | server.ts:135 | A move advances the position and is appended to the history; nothing else changes. |
| Rooms.PlayIn | server.ts:134-216 | An illegal move leaves the room unchanged. |
| Rooms.PlayInSpec | server.ts:134-216 | Illegal: exactly one "Invalid move" error to the sender, no timer, no rating. Legal: the move is played and appended; UPDATE_GAME reaches exactly the open seats and open spectators. The computer's turn is armed iff the id starts with "ai", black is to move and the game is not over. A rating is made iff the move is legal, it mates, the computer's turn is not armed, the id does not start with "ai", and both seat names are set, non-empty and not "Anonymous"; the side not to move is named first, as the winner. |
| Rooms.AiTurn | server.ts:154-201 | With no legal move nothing happens. |
| Rooms.AiAudience | server.ts:172-186 | The computer's update and quote reach exactly the open sockets among seat `w` and the spectators, never seat `b`. |
| Rooms.AiTurnSpec | server.ts:154-201 | The computer plays a legal move, and a capture whenever one exists. It is appended to the history; only seat `w` and the spectators hear it. The quote goes only to seat `w`. A rating is made iff a move is played, it mates, the connection's current room id does not start with "ai", and both seat names are set, non-empty and not "Anonymous"; the winner (the side not to move) is named first. |
| Rooms.SurrenderIn | server.ts:219-246 | At most one send per room member. |
| Rooms.SurrenderInSpec | server.ts:219-246 | Every send is UPDATE_GAME with the unchanged position and the surrenderer's opponent as winner. It reaches exactly the open seats and spectators. The rating names the winner first, under the rating guard (both directions). |
| Server.Room.constructor | server.ts:65-71 | A new room equals `NewRoom()`. |
| Server.Room.Admit | server.ts:76-91 | Seat assignment in place, as `Rooms.Admit`. |
| Server.Room.Play | server.ts:135 | `chess.move`: the room becomes `Played`. |
| Server.Room.Restart | server.ts:252 | `chess.reset()`: initial position, empty history; seats and spectators unchanged. |
| Server.Room.Leave | server.ts:299-301 | The room becomes `Vacate` of its old state. |
| Server.Connection.constructor | server.ts:46-47 | A connection starts with no room and no role. |
| Server.DeleteKey | server.ts:305 | Deleting a key keeps the Map's key list duplicate-free and in step with the Map. |
| Server.Network.constructor | server.ts:42 | No socket is open and nothing has been sent. |
| Server.Network.Connect | server.ts:45 | A new socket, never seen before, is open; nothing is sent. |
| Server.Network.Disconnect | server.ts:295 | The socket is no longer open. |
| Server.Network.Send | server.ts:99 | The messages are appended to the send log. |
| Server.Network.SendEach | server.ts:148-150 | `forEach` with a readiness check sends to exactly the open sockets, in order. |
| Server.Network.Broadcast | server.ts:146-150 | Seat `w`, then seat `b`, then each spectator, skipping closed sockets. |
| Server.Server.constructor | server.ts:35 | The server starts with no rooms and no armed timers. |
| Server.Server.Connect | server.ts:45-47 | A new connection with a fresh open socket, no room and no role. |
| Server.Server.RoomFor | server.ts:63-73 | A known id reuses its room. An unknown id creates exactly one fresh room and appends it to the Map order. |
| Server.Server.Join | server.ts:53-123 | The connection's room is set. Its room alone changes, as `Admit` says; the role is recorded. A seated joiner's account is created if missing. The replies are `JoinReplies`. |
| Server.Server.JoinAs | server.ts:55-122 | The room part of JOIN_ROOM, with the same statement. |
| Server.Server.Enter | server.ts:75-122 | Admission, account creation for a seated joiner only, and the replies. |
| Server.Server.OnMove | server.ts:125-217 | A MOVE with no seat, for a missing room, or out of turn changes nothing and sends nothing. Otherwise only that room changes, as `PlayIn` says; its replies are sent, the timer is armed, and the ledger is settled on a rated checkmate. |
| Server.Server.PlayMove | server.ts:134-216 | The MOVE handler after the turn check, as `PlayIn`. |
| Server.Server.FireAi | server.ts:153-201 | The oldest armed timer fires on its captured room, as `AiTurn` says, and is removed. Other rooms are unchanged. |
| Server.Server.PlayAi | server.ts:155-199 | The timer's body on its room, as `AiTurn`. |
| Server.Server.AiAnnounce | server.ts:172-186 | The computer's update goes to seat `w` and the spectators; the quote goes to open seat `w` only. |
| Server.Server.Rate | server.ts:196-198 | `updateElo` is applied exactly when a rating pair is given. |
| Server.Server.Surrender | server.ts:219-246 | Without a seat in an existing room nothing happens. Otherwise the sends and rating are those of `SurrenderIn`; rooms and seats are untouched. |
| Server.Server.ActiveRoom | server.ts:249-251 | The room RESET, CHAT and close act on: the connection's room, if non-empty and listed. |
| Server.Server.Reset | server.ts:248-265 | The active room gets the initial position and empty history, seats untouched. The whole room hears an empty history with white to move. Other rooms and the ledger are unchanged. |
| Server.Server.Chat | server.ts:267-288 | The text goes to the whole open room under `SenderLabel`. Without an active room nothing is sent. |
| Server.Server.Close | server.ts:295-309 | The socket closes and leaves its room. The room is deleted from the Map (and its order) iff nobody is left in it. |
| Server.Server.DropRoom | server.ts:304-306 | `games.delete`. |
| Server.Server.Entries | server.ts:318-319 | The Map's entries in order, each flagged when a seat is held. |
| Server.Server.ActiveRooms | server.ts:317-322 | `/api/rooms`: an id is listed iff it is a room, is not "ai"-prefixed and has a seated player. |
| Server.Server.Leaderboard | server.ts:324-331 | min(20, accounts) accounts, sorted, each stored, and no account left out is rated above a listed one. |
| Chess.SquareName | src/components/AnimatedPiecesManager.tsx:278-280 | The name built from a board row and column is a square name. |
| Chess.SquareNameInjective | src/components/AnimatedPiecesManager.tsx:278-280 | Distinct cells have distinct names. |
| AnimatedPieces.RowOf | src/components/AnimatedPiecesManager.tsx:22 | The board row a square denotes is < 8. |
| AnimatedPieces.FileOf | src/components/AnimatedPiecesManager.tsx:21 | The board column a square denotes is < 8. |
| AnimatedPieces.NameOfCell | src/components/AnimatedPiecesManager.tsx:278-280 | Every square name is the name of its own cell. |
| AnimatedPieces.CellOfName | src/components/AnimatedPiecesManager.tsx:278-280 | The cell a name denotes is the cell it was made from. |
| AnimatedPieces.BoardPos | src/components/AnimatedPiecesManager.tsx:20-24 | `getBoardPos`: x = file − 'a' in 0..7, z = 8 − rank in 0..7 (rank 1 → 7), y = 0.1. |
| AnimatedPieces.BoardPosOfCell | src/components/AnimatedPiecesManager.tsx:20-24 | The scene position of a square is (column, 0.1, row) iff the square is that cell's name. |
| AnimatedPieces.PawnbornIff | src/components/AnimatedPiecesManager.tsx:282 | The id test `includes('_p')` holds exactly for pieces that were pawns when their id was made. |
| AnimatedPieces.CellsUpTo | src/components/AnimatedPiecesManager.tsx:274-277 | The scan yields occupied cells only, in range. |
| AnimatedPieces.CellsUpToExact | src/components/AnimatedPiecesManager.tsx:299-302 | The scan lists every occupied cell, in strictly increasing reading order. |
| AnimatedPieces.GetFound | src/components/AnimatedPiecesManager.tsx:334 | `Map.get` finds a value iff the key has an entry, and returns that entry's value. |
| AnimatedPieces.EntriesOf | src/components/AnimatedPiecesManager.tsx:303-304 | One Map entry per listed cell: its square name and its piece. |
| AnimatedPieces.OccupancyDistinct | src/components/AnimatedPiecesManager.tsx:297-307 | `squareOccupancy` holds each occupied square once. |
| AnimatedPieces.OccupancyGet | src/components/AnimatedPiecesManager.tsx:297-307 | Looking up a square gives the board's piece there; anything else is absent. |
| AnimatedPieces.SpawnOf | src/components/AnimatedPiecesManager.tsx:281-287 | One fresh record per listed cell, numbered in order. |
| AnimatedPieces.SpawnShowsBoard | src/components/AnimatedPiecesManager.tsx:271-291 | Each rebuilt record is uncaptured, shows the piece on its square, and has the id built from the clock reading, its index, its colour and kind. |
| AnimatedPieces.SpawnCoversBoard | src/components/AnimatedPiecesManager.tsx:271-291 | A rebuilt list has a record on every occupied square. |
| AnimatedPieces.SpawnDistinct | src/components/AnimatedPiecesManager.tsx:271-291 | No two rebuilt records share a square. |
| AnimatedPieces.Find | src/components/AnimatedPiecesManager.tsx:324-336 | `Array.find`: the first record passing the test, or none passes. |
| AnimatedPieces.Step | src/components/AnimatedPiecesManager.tsx:314-344 | Visiting one Map entry keeps the list's length. |
| AnimatedPieces.Relocate | src/components/AnimatedPiecesManager.tsx:314-344 | The first pass keeps the list's length. |
| AnimatedPieces.StepConserves | src/components/AnimatedPiecesManager.tsx:314-344 | One entry visited keeps ids, colours and capture flags. It leaves captured and settled records alone, changes kind only pawn → queen, and re-homes only onto a square holding that kind and colour. |
| AnimatedPieces.RelocateConserves | src/components/AnimatedPiecesManager.tsx:314-344 | The whole first pass does the same. |
| AnimatedPieces.Swept | src/components/AnimatedPiecesManager.tsx:347-357 | The second pass on one record keeps its id, kind, colour and square. |
| AnimatedPieces.Sweep | src/components/AnimatedPiecesManager.tsx:347-370 | Each record is swept independently; the length is kept. |
| AnimatedPieces.BattleOfSpec | src/components/AnimatedPiecesManager.tsx:353-366 | A battle is announced for a record iff it is newly found gone and its square is occupied. The record is the defender and the piece now on the square is the attacker. |
| AnimatedPieces.BattlesExact | src/components/AnimatedPiecesManager.tsx:347-370 | A battle is emitted iff some visited record announces it. |
| AnimatedPieces.IncrementalExact | src/components/AnimatedPiecesManager.tsx:294-372 | Incremental reconciliation keeps the length, each id and colour. Captured and settled records are untouched; kind changes only pawn → queen; moved records stand on their own kind and colour. Uncaptured records are still shown. Newly captured records are exactly the vanished ones, with the occupant's kind as attacker. |
| AnimatedPieces.IncrementalBattles | src/components/AnimatedPiecesManager.tsx:347-370 | The battles are exactly those of records newly captured on an occupied square. |
| AnimatedPieces.PromotedIsEvolved | src/components/AnimatedPiecesManager.tsx:340-342 | A pawn that became a queen is drawn evolved. |
| AnimatedPieces.Rebuild | src/components/AnimatedPiecesManager.tsx:271-291 | The nested loops build exactly `Spawn`. |
| AnimatedPieces.ScanBoard | src/components/AnimatedPiecesManager.tsx:297-307 | The nested loops fill exactly `Occupancy`. |
| AnimatedPieces.MoveDisplaced | src/components/AnimatedPiecesManager.tsx:314-344 | The loop over the Map's entries computes exactly `Relocate`. |
| AnimatedPieces.BattleOfAgrees | src/components/AnimatedPiecesManager.tsx:358 | The attacker search is unaffected by capture flags set earlier in the same pass. |
| AnimatedPieces.Judge | src/components/AnimatedPiecesManager.tsx:348-368 | One record: `Swept`, and the battle it announces. |
| AnimatedPieces.MarkCaptured | src/components/AnimatedPiecesManager.tsx:347-370 | The loop computes exactly `Sweep` and the battles in emission order. |
| AnimatedPieces.Reconcile | src/components/AnimatedPiecesManager.tsx:266-373 | Empty list or initial position: a rebuild with no battles. Otherwise the two passes, with the battles of the second. |
| ChessBoard.MovesTo | src/components/ChessBoard.tsx:328 | The filter keeps moves of the list ending on the square, and is non-empty iff one exists. |
| ChessBoard.MovesToFirst | src/components/ChessBoard.tsx:330 | `movesToSquare[0]` is the earliest legal move onto the square. |
| ChessBoard.IsSquareLegalMove | src/components/ChessBoard.tsx:359-361 | Holds iff some loaded legal move has that destination. |
| ChessBoard.MarkerMatchesClick | src/components/ChessBoard.tsx:359-361 | A square is marked iff clicking it would play or prompt a move. |
| ChessBoard.CapturedBy | src/components/ChessBoard.tsx:203-213 | Each tray entry has the colour opposite the mover. |
| ChessBoard.CapturedFrom | src/components/ChessBoard.tsx:205-210 | Each tray entry is the `captured` type of a move of the mover. |
| ChessBoard.CapturedAppend | src/components/ChessBoard.tsx:205-210 | Trays keep history order: the tray of a concatenation is the concatenation of the trays. |
| ChessBoard.TraysCountCaptures | src/components/ChessBoard.tsx:203-213 | The two trays together hold one entry per capturing move. |
| ChessBoard.Decide | src/components/ChessBoard.tsx:366-371 | As written: surrender first, then checkmate, where the side not to move wins. The game is ongoing iff none of surrender, checkmate, draw or stalemate holds. |
| ChessBoard.StalemateNeverShown | src/components/ChessBoard.tsx:369-371 | When every stalemate is a draw (as in chess.js), the branch as written never yields the stalemate verdict. |
| ChessBoard.DecideIntended | src/components/ChessBoard.tsx:366-371 | Corrected order: surrender, checkmate, stalemate (reported as such), then draw. Ongoing iff none holds. |
| ChessBoard.IntendedDiffersOnlyOnStalemate | src/components/ChessBoard.tsx:369-371 | The two orders differ exactly on an unforfeited, non-mate stalemate that is also a draw. |
| ChessBoard.Message | src/components/ChessBoard.tsx:367-371 | The banner is empty iff the game is ongoing. |
| ChessBoard.MessageRoundTrip | src/components/ChessBoard.tsx:367-371 | The banner text determines the verdict, including which side won. |
| ChessBoard.GameOverMessage | src/components/ChessBoard.tsx:366-371 | The banner (corrected order) is empty iff the game goes on, and "Stalemate!" iff there is an unforfeited, non-mate stalemate. |
| ChessBoard.IsDarkSquare | src/components/ChessBoard.tsx:406-410 | A square is dark iff (file index + rank digit) is odd, read from its name; this is (row + column) odd. |
| ChessBoard.ShadingAlternates | src/components/ChessBoard.tsx:410 | Shading alternates along ranks and files; a1 is dark and h1 light. |
| ChessBoard.MovedSends | src/components/ChessBoard.tsx:285-314 | A move is sent iff chess.js accepts it and the socket is open. An accepted move clears the selection, moves and prompt; a rejected one changes nothing. |
| ChessBoard.TraysAfterLocalMove | src/components/ChessBoard.tsx:287-289 | After a local move the trays show only that move's capture, because the game is rebuilt from the FEN. |
| ChessBoard.ClickOutOfTurn | src/components/ChessBoard.tsx:318-319 | With no seat, as a spectator, or out of turn, a click changes nothing. |
| ChessBoard.ReclickClears | src/components/ChessBoard.tsx:321-326 | Re-clicking the selected square clears the selection and the moves, nothing else. |
| ChessBoard.ClickDestination | src/components/ChessBoard.tsx:328-335 | A legal destination whose first move promotes sets the prompt; otherwise the move is executed. |
| ChessBoard.ClickElsewhere | src/components/ChessBoard.tsx:336-355 | Clicking an own piece selects it and loads its moves. Anything else clears a selection or does nothing. |
| ChessBoard.ClickCoherent | src/components/ChessBoard.tsx:316-357 | Every click keeps the invariant "no selection ⇒ no loaded moves". |
| ChessBoard.PromotedSends | src/components/ChessBoard.tsx:539-543 | The dialog's choice sends at most the pending move with the chosen piece, and keeps the invariant. |
| ChessBoard.BoardState.constructor | src/components/ChessBoard.tsx:151-164 | A new game, nothing selected, no prompt, no seat, nothing sent. |
| ChessBoard.BoardState.ExecuteMove | src/components/ChessBoard.tsx:285-314 | The state cells become `Moved` of the old ones. |
| ChessBoard.BoardState.HandleSquareClick | src/components/ChessBoard.tsx:316-357 | The state cells become `Clicked` of the old ones. |
| ChessBoard.BoardState.ChoosePromotion | src/components/ChessBoard.tsx:539-543 | The state cells become `Promoted` of the old ones. |
| ChessBoard.BoardState.CancelPromotion | src/components/ChessBoard.tsx:544 | Only the prompt closes. |
| BattleOverlay.PokemonMap | src/components/Piece3D.tsx:15-32 | A creature is found iff the colour is w or b and the type is one of p, r, n, b, q, k; every number is positive. |
| BattleOverlay.PokemonId | src/components/BattleOverlay.tsx:10-11 | An evolved queen is 26 for white and 53 otherwise; any other piece uses the table. |
| BattleOverlay.UnknownHasNoCreature | src/components/BattleOverlay.tsx:10-22 | An unknown type or colour (not an evolved queen) gives empty sprite and cry URLs. |
| BattleOverlay.SpriteUrl | src/components/BattleOverlay.tsx:9-16 | The URL is empty iff there is no creature; otherwise it starts with the sprite base. |
| BattleOverlay.SpriteSide | src/components/BattleOverlay.tsx:13-15 | After the base, the URL continues with "back/" iff the piece is the attacker. |
| BattleOverlay.SpriteUrlDetermines | src/components/BattleOverlay.tsx:13-15 | Equal non-empty sprite URLs mean the same side and the same creature. |
| BattleOverlay.CryUrl | src/components/BattleOverlay.tsx:19-24 | The URL is empty iff there is no creature; otherwise it starts with the cry base. |
| BattleOverlay.CryUrlDetermines | src/components/BattleOverlay.tsx:23 | Equal non-empty cry URLs mean the same creature. |
| BattleOverlay.Effectiveness | src/components/BattleOverlay.tsx:27-44 | "It's super effective!" iff white b/q/k attacks b/q/k, or black b attacks b/q/k, or black q/k/r attacks n. "It's not very effective..." iff a white knight attacks a rook. Empty otherwise. |
| BattleOverlay.EffectivenessIgnoresDefenderColor | src/components/BattleOverlay.tsx:27-43 | The defender's colour never matters. |
| Store.InitialSettings | src/lib/store.ts:63-85 | Defaults: volume 0.5, shadows medium, fpsCap 60, screen shake off, hints off. |
| Store.SetterKeepsOthers | src/lib/store.ts:87-108 | A setter leaves every other field unchanged. |
| Store.SetterWrites | src/lib/store.ts:87-108 | A setter stores exactly its argument in its field. |
| Store.ToggleKeepsOthers | src/lib/store.ts:90-109 | A toggle leaves every other field unchanged. |
| Store.ToggleNegates | src/lib/store.ts:90-109 | A toggle negates its boolean field; applying it twice restores the settings. |
| Store.ApplyCharacter | src/lib/store.ts:175-177 | Each character setter stores its value in its one field. |
| Store.GetCharacterData | src/lib/store.ts:178-182 | Returns exactly the three current fields. |
| Store.Merge | src/lib/store.ts:187-196 | Stored fields override current ones. An unlisted companion becomes 25 and an unlisted sprite "red"; the result is always valid. |
| Store.MergeRoundTrip | src/lib/store.ts:188 | A valid stored character survives a reload unchanged. |
| Store.MergeEmpty | src/lib/store.ts:187-196 | With nothing stored the defaults survive. |
| Store.ReloadRepairs | src/lib/store.ts:187-196 | After any setter, a reload keeps the listed values and repairs exactly the unlisted ones. |
| Events.Added | src/lib/events.ts:7 | `Set.add`: membership gains the listener, and no duplicates appear. |
| Events.AddedTwice | src/lib/events.ts:7 | Subscribing twice stores the listener once. |
| Events.Removed | src/lib/events.ts:8 | `Set.delete`: removes exactly that listener; removing an absent one changes nothing. |
| Events.RemovedNoDups | src/lib/events.ts:4-8 | Deleting keeps the listeners duplicate-free. |
| Events.RemovedUndoesAdded | src/lib/events.ts:6-8 | Unsubscribing right after a first subscribe restores the listener list. |
| Events.Calls | src/lib/events.ts:12 | One call per listener, in order, with the payload. |
| Events.EventEmitter.constructor | src/lib/events.ts:4 | No listeners, no calls. |
| Events.EventEmitter.Subscribe | src/lib/events.ts:6-9 | The listeners become `Added`. |
| Events.EventEmitter.Unsubscribe | src/lib/events.ts:8 | The loop computes exactly `Removed`. |
| Events.EventEmitter.Emit | src/lib/events.ts:11-13 | Each current listener is called once with the payload, in subscription order. |
| MiniMap.Reversed | src/components/MiniMap.tsx:14-19 | `reverse()`: element i is element n − 1 − i. |
| MiniMap.ReversedTwice | src/components/MiniMap.tsx:14-19 | Reversing twice gives the sequence back. |
| MiniMap.Perspective | src/components/ChessBoard.tsx:549 | The mini-map is drawn for black iff the player holds the black seat. |
| MiniMap.ViewWhite | src/components/MiniMap.tsx:14-19 | White sees the board as is. |
| MiniMap.ViewBlack | src/components/MiniMap.tsx:14-19 | Black sees cell (r, c) of the board at (7 − r, 7 − c): a 180° turn. |
| MiniMap.ViewBlackTwice | src/components/MiniMap.tsx:14-19 | Turning twice gives the board back. |
| MiniMap.ShadingFollowsSquare | src/components/MiniMap.tsx:21-22 | A cell is dark iff (r + c) is odd. From either side, that equals the main board's shading of the square shown. |
| MiniMap.DotOf | src/components/MiniMap.tsx:24-30 | No dot iff the cell is empty; a white dot iff the piece is white. |

## Left out

- WebSocket transport, JSON encoding and parsing, express routes, Vite and `listen` are left out. A message that fails to parse, and a JOIN_ROOM without a `roomId`, are not modelled.
- chess.js is an oracle, not re-implemented. `new Chess(fen)` and the verbose history are represented by a FEN string and a move sequence.
- Chess.Rules: the game-over and draw tests take the position (FEN) only. The server's chess object keeps its move history, and chess.js's `isGameOver()` and `isDraw()` also report threefold repetition. So the model's test that arms the computer's turn (server.ts:153) does not see threefold repetition. The client rebuilds its game from the FEN, so it is unaffected.
- The trash-talk file read is not modelled. Its outcome (a line, or none) is the `quote` parameter of the computer's turn.
- `Math.random()` is the `draw` parameter in [0, 1). `Math.pow(10, d/400)` is the parameter `expected`, of which only its range and its symmetry are assumed.
- `setTimeout` timing and the interleaving of handlers are left out. An armed computer turn is a queued task that a separate method fires later.
- SQLite is an in-memory map plus the insertion order of its rows. Ties in `ORDER BY elo DESC` are kept in insertion order, which SQLite does not promise.
- Ledger.Round: JavaScript numbers are exact reals here, so floating-point rounding of the expected score is not modelled.
- Server.Server.Valid: per-room duplicate-freedom of the spectator Set is proved by `Rooms.AdmitPreserves`, `Rooms.Vacate` and `Rooms.Without` on values. The server invariant itself does not carry it.
- Server.Server.FireAi: requires the connection's room to be set. That always holds once a move has been accepted.
- A socket's `readyState` is modelled as a closed or open set membership. The CONNECTING and CLOSING states are not distinguished.
- The client's socket handlers (INIT_GAME, UPDATE_GAME, OPPONENT_CHARACTER, TRASH_TALK, CHAT, close) are not modelled. `BoardState`'s `fen`, `playerColor` and `socketOpen` cells are taken as given.
- The client's sounds, cries, check sound, music and the hint fetch are left out, as are rendering, animation and the `useFrame` frame loop.
- AnimatedPieces.Reconcile: the source copies the list shallowly and then mutates the previous state's records. This aliasing is not modelled: records are values.
- All records of one rebuild share one clock reading (`Date.now()` is read per piece in the source; its value is a parameter).
- The screen-shake emit of a captured piece is rendering code and is not part of this model.
- Events.EventEmitter.Emit: listener bodies are opaque; each call is recorded in a log. Re-entrant subscribe or unsubscribe from inside a listener is not modelled. The loop runs over the listener list as it was when `emit` began.
- Store: persisted JSON values of the wrong type are not modelled; the stored fields are typed options. Store numbers are reals.
- `POKEMON_MAP` lookups with inherited JavaScript property names (such as "constructor") are not modelled; any other string finds nothing.
- ChessBoard.IsGameOver: the source's `isGameOver` is chess.js's test or a surrender. It has no contract of its own, because chess.js's test is an oracle.

## Findings

| source | as written | input that shows it | evidently intended | confidence | as-written member | corrected member |
|---|---|---|---|---|---|---|
| src/components/ChessBoard.tsx:369-371 | The banner tests `isDraw()` before `isStalemate()`. chess.js counts a stalemate as a draw, so the "Stalemate!" branch is unreachable and a stalemate is announced as "Draw!". | Any stalemated position without a surrender, e.g. FEN `7k/5Q2/6K1/8/8/8/8/8 b - - 0 1`. | A stalemate is announced as "Stalemate!"; other draws as "Draw!". | not executed | ChessBoard.StalemateNeverShown (about ChessBoard.Decide) | ChessBoard.DecideIntended, used by ChessBoard.GameOverMessage |
