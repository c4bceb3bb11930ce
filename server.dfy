/**
 * The WebSocket server of server.ts: a Map of rooms, one connection object per socket
 * holding the room it last joined and the role it got there, the network (the sockets still
 * open and the messages sent so far), the computer turns armed with `setTimeout`, and the
 * rating ledger.
 * Each handler updates the rooms in place and is proved against the value-level rules of
 * module Rooms.
 */
module Server {
  import opened Wrappers
  import opened Text
  import opened Chess
  import opened Rooms
  import Ledger

  /** A `GameState`: updated in place by the handlers and shared with armed computer turns. */
  class Room {
    var fen: string
    var history: seq<Move>
    var seatW: Option<SocketId>
    var seatB: Option<SocketId>
    var nameW: Option<string>
    var nameB: Option<string>
    var charW: Option<CharacterData>
    var charB: Option<CharacterData>
    var spectators: seq<SocketId>

    function View(): RoomView
      reads this
    {
      RoomView(fen, history, seatW, seatB, nameW, nameB, charW, charB, spectators)
    }

    constructor ()
      ensures View() == NewRoom()
    {
      fen := InitialFen;
      history := [];
      seatW, seatB := None, None;
      nameW, nameB := None, None;
      charW, charB := None, None;
      spectators := [];
    }

    /** The seat assignment of JOIN_ROOM (server.ts:76-91). */
    method Admit(ws: SocketId, name: string, ch: Option<CharacterData>) returns (role: Role)
      modifies this
      ensures View() == Rooms.Admit(old(View()), ws, name, ch).room
      ensures role == Rooms.Admit(old(View()), ws, name, ch).role
    {
      if seatW.None? {
        seatW := Some(ws);
        nameW := Some(name);
        charW := ch;
        role := Seat(White);
      } else if seatB.None? {
        seatB := Some(ws);
        nameB := Some(name);
        charB := ch;
        role := Seat(Black);
      } else {
        if ws !in spectators {
          spectators := spectators + [ws];
        }
        role := Spectator;
      }
    }

    /** `chess.move(m)`: the position advances and the move joins the history. */
    method Play(m: Move, rules: Rules)
      modifies this
      ensures View() == Played(old(View()), m, rules)
    {
      fen := rules.play(fen, m);
      history := history + [m];
    }

    /** `chess.reset()`. */
    method Restart()
      modifies this
      ensures View() == old(View()).(fen := InitialFen, history := [])
    {
      fen := InitialFen;
      history := [];
    }

    /** The socket leaves its seats and the spectator Set (server.ts:299-301). */
    method Leave(ws: SocketId)
      modifies this
      ensures View() == Vacate(old(View()), ws)
    {
      if seatW == Some(ws) {
        seatW := None;
      }
      if seatB == Some(ws) {
        seatB := None;
      }
      spectators := Without(spectators, ws);
    }
  }

  /** The per-socket variables of a connection: `currentRoom` and `playerColor`. */
  class Connection {
    const ws: SocketId
    var currentRoom: Option<string>
    var playerColor: Option<Role>

    constructor (ws: SocketId)
      ensures this.ws == ws && currentRoom == None && playerColor == None
    {
      this.ws := ws;
      currentRoom := None;
      playerColor := None;
    }
  }

  /** Deleting a key from the Map keeps its key list in step with it. */
  lemma DeleteKey<T>(m: map<string, T>, order: seq<string>, id: string)
    requires NoDups(order) && forall k :: k in m <==> k in order
    ensures NoDups(Without(order, id))
    ensures forall k :: k in m - {id} <==> k in Without(order, id)
  {
  }

  /** A computer turn armed by a MOVE: the closure over the room object and the connection. */
  datatype AiTask = AiTask(game: Room, conn: Connection)

  /** The sockets: which are open, and every message sent on them so far, in order. */
  class Network {
    var open: set<SocketId>
    var nextSocket: SocketId
    var sent: seq<Output>

    ghost predicate Valid()
      reads this`open, this`nextSocket
    {
      forall s :: s in open ==> s < nextSocket
    }

    constructor ()
      ensures Valid() && open == {} && sent == []
    {
      open := {};
      nextSocket := 0;
      sent := [];
    }

    /** A new socket connects; socket identities are never reused. */
    method Connect() returns (ws: SocketId)
      requires Valid()
      modifies this
      ensures Valid()
      ensures ws !in old(open) && open == old(open) + {ws} && sent == old(sent)
    {
      ws := nextSocket;
      open := open + {ws};
      nextSocket := nextSocket + 1;
    }

    /** A socket closes: its `readyState` is no longer OPEN. */
    method Disconnect(ws: SocketId)
      requires Valid()
      modifies this`open
      ensures Valid()
      ensures open == old(open) - {ws}
    {
      open := open - {ws};
    }

    /** `ws.send`, for each message in turn. */
    method Send(out: seq<Output>)
      modifies this`sent
      ensures sent == old(sent) + out
    {
      sent := sent + out;
    }

    /** `forEach` over a Set of sockets: `m` goes to each open one, in order. */
    method SendEach(to: seq<SocketId>, m: Message)
      modifies this`sent
      ensures sent == old(sent) + Deliver(Live(to, open), m)
    {
      ghost var start := sent;
      var i := 0;
      while i < |to|
        invariant 0 <= i <= |to|
        invariant sent == start + Deliver(Live(to[..i], open), m)
      {
        var x := to[i];
        ghost var done := Live(to[..i], open);
        assert to[..i + 1] == to[..i] + [x];
        LiveSnoc(to[..i], x, open);
        if x in open {
          DeliverSnoc(done, x, m);
          sent := sent + [Output(x, m)];
        }
        i := i + 1;
      }
      assert to[..i] == to;
    }

    /** Sends `m` to seat w, then seat b, then each spectator, skipping closed sockets. */
    method Broadcast(seatW: Option<SocketId>, seatB: Option<SocketId>, spectators: seq<SocketId>, m: Message)
      modifies this`sent
      ensures sent == old(sent) + Deliver(Audience(seatW, seatB, spectators, open), m)
    {
      SendEach(Members(seatW, seatB, spectators), m);
    }
  }

  class Server {
    const rules: Rules
    const ledger: Ledger.Ledger
    const net: Network
    var games: map<string, Room>
    /** The keys of `games` in insertion order, as `games.entries()` lists them. */
    var roomOrder: seq<string>
    var pending: seq<AiTask>

    /** The Map's bookkeeping: keys listed once each, in step with `games`, one room object per key. */
    ghost predicate Listed()
      reads this`games, this`roomOrder
    {
      && NoDups(roomOrder)
      && (forall id :: id in games <==> id in roomOrder)
      && (forall a, b :: a in games && b in games && a != b ==> games[a] != games[b])
    }

    ghost predicate Valid()
      reads this, ledger, net
    {
      ledger.Valid() && net.Valid() && Listed()
    }

    constructor (rules: Rules, ledger: Ledger.Ledger, net: Network)
      requires ledger.Valid() && net.Valid()
      ensures Valid()
      ensures this.rules == rules && this.ledger == ledger && this.net == net
      ensures games == map[] && roomOrder == [] && pending == []
    {
      this.rules := rules;
      this.ledger := ledger;
      this.net := net;
      games := map[];
      roomOrder := [];
      pending := [];
    }

    /** `wss.on("connection")`: a new socket, open, with no room and no role yet. */
    method Connect() returns (conn: Connection)
      requires Valid()
      modifies net
      ensures Valid()
      ensures fresh(conn) && conn.currentRoom == None && conn.playerColor == None
      ensures conn.ws !in old(net.open) && net.open == old(net.open) + {conn.ws} && net.sent == old(net.sent)
    {
      var ws := net.Connect();
      conn := new Connection(ws);
    }

    /** `games.get(roomId)`, creating and listing a fresh room when there is none. */
    method RoomFor(roomId: string) returns (game: Room)
      requires Valid()
      modifies this`games, this`roomOrder
      ensures Valid()
      ensures games == old(games)[roomId := game]
      ensures roomId in old(games) ==> game == old(games[roomId]) && roomOrder == old(roomOrder)
      ensures roomId !in old(games) ==> fresh(game) && game.View() == NewRoom() && roomOrder == old(roomOrder) + [roomId]
    {
      if roomId in games {
        game := games[roomId];
      } else {
        game := new Room();
        games := games[roomId := game];
        roomOrder := roomOrder + [roomId];
      }
    }

    /**
     * JOIN_ROOM (server.ts:53-123): the connection's room becomes `roomId`, the room is
     * created if unknown, the joiner is admitted, its rating account is created if it took
     * a seat, and it gets the snapshot (plus a note to the opponent seat).
     */
    method Join(conn: Connection, roomId: string, username: Option<string>, character: Option<CharacterPayload>)
      requires Valid()
      modifies this`games, this`roomOrder, conn, ledger, net`sent, if roomId in games then {games[roomId]} else {}
      ensures Valid()
      ensures conn.currentRoom == Some(roomId)
      ensures roomId in games && games == old(games)[roomId := games[roomId]]
      ensures roomId in old(games) ==> games[roomId] == old(games[roomId]) && roomOrder == old(roomOrder)
      ensures roomId !in old(games) ==> fresh(games[roomId]) && roomOrder == old(roomOrder) + [roomId]
      ensures forall id :: id in old(games) && id != roomId ==> games[id].View() == old(games[id].View())
      ensures var before := if roomId in old(games) then old(games[roomId].View()) else NewRoom();
              var name := DisplayName(username);
              var ch := CharacterOf(character);
              var a := Admit(before, conn.ws, name, ch);
              && games[roomId].View() == a.room
              && conn.playerColor == Some(a.role)
              && net.sent == old(net.sent) + JoinReplies(a.room, a.role, conn.ws, name, ch, rules.turn(a.room.fen), net.open)
              && (a.role.Seat? ==> ledger.accounts == old(ledger.accounts)[name := Ledger.Fetch(old(ledger.accounts), name)])
              && (a.role == Spectator ==> ledger.accounts == old(ledger.accounts))
    {
      var role := JoinAs(roomId, conn.ws, DisplayName(username), CharacterOf(character));
      conn.currentRoom, conn.playerColor := Some(roomId), Some(role);
    }

    /** The room side of JOIN_ROOM: find or create the room, then admit `ws` to it. */
    method JoinAs(roomId: string, ws: SocketId, name: string, ch: Option<CharacterData>) returns (role: Role)
      requires Valid()
      modifies this`games, this`roomOrder, ledger, net`sent, if roomId in games then {games[roomId]} else {}
      ensures Valid()
      ensures roomId in games && games == old(games)[roomId := games[roomId]]
      ensures roomId in old(games) ==> games[roomId] == old(games[roomId]) && roomOrder == old(roomOrder)
      ensures roomId !in old(games) ==> fresh(games[roomId]) && roomOrder == old(roomOrder) + [roomId]
      ensures forall id :: id in old(games) && id != roomId ==> games[id].View() == old(games[id].View())
      ensures var before := if roomId in old(games) then old(games[roomId].View()) else NewRoom();
              var a := Admit(before, ws, name, ch);
              && games[roomId].View() == a.room && role == a.role
              && net.sent == old(net.sent) + JoinReplies(a.room, a.role, ws, name, ch, rules.turn(a.room.fen), net.open)
              && (a.role.Seat? ==> ledger.accounts == old(ledger.accounts)[name := Ledger.Fetch(old(ledger.accounts), name)])
              && (a.role == Spectator ==> ledger.accounts == old(ledger.accounts))
    {
      var game := RoomFor(roomId);
      role := Enter(game, ws, name, ch);
    }

    /** Admission to the room `game`, the account of a seated joiner, and the replies (server.ts:75-122). */
    method Enter(game: Room, ws: SocketId, name: string, ch: Option<CharacterData>) returns (role: Role)
      requires ledger.Valid()
      modifies ledger, net`sent, game
      ensures ledger.Valid()
      ensures var a := Admit(old(game.View()), ws, name, ch);
              && game.View() == a.room && role == a.role
              && net.sent == old(net.sent) + JoinReplies(a.room, a.role, ws, name, ch, rules.turn(a.room.fen), net.open)
              && (a.role.Seat? ==> ledger.accounts == old(ledger.accounts)[name := Ledger.Fetch(old(ledger.accounts), name)])
              && (a.role == Spectator ==> ledger.accounts == old(ledger.accounts))
    {
      role := game.Admit(ws, name, ch);
      if role.Seat? {
        var account := ledger.GetAccount(name);
      }
      net.Send(JoinReplies(game.View(), role, ws, name, ch, rules.turn(game.fen), net.open));
    }

    /**
     * MOVE (server.ts:125-217): ignored unless the connection holds a seat in an existing room
     * and it is that seat's turn; otherwise the move is played as `PlayIn` says, the computer's
     * turn is armed on this room and connection, and a checkmate is rated.
     */
    method OnMove(conn: Connection, req: MoveRequest)
      requires Valid()
      modifies this, ledger, net, games.Values
      ensures Valid()
      ensures games == old(games) && roomOrder == old(roomOrder) && net.open == old(net.open)
      ensures var seat := ActingSeat(conn.currentRoom, conn.playerColor);
              var acts := seat.Some? && seat.value.0 in games && rules.turn(old(games[seat.value.0].fen)) == seat.value.1;
              && (!acts ==> net.sent == old(net.sent) && pending == old(pending) && ledger.accounts == old(ledger.accounts)
                            && forall id :: id in games ==> games[id].View() == old(games[id].View()))
              && (acts ==>
                    var id := seat.value.0;
                    var o := PlayIn(old(games[id].View()), id, conn.ws, req, rules, net.open);
                    && games[id].View() == o.room
                    && net.sent == old(net.sent) + o.replies
                    && pending == old(pending) + (if o.scheduleAi then [AiTask(games[id], conn)] else [])
                    && ledger.accounts == (if o.rating.Some?
                                           then Ledger.Settle(old(ledger.accounts), o.rating.value.0, o.rating.value.1, ledger.expected)
                                           else old(ledger.accounts))
                    && forall other :: other in games && other != id ==> games[other].View() == old(games[other].View()))
    {
      var seat := ActingSeat(conn.currentRoom, conn.playerColor);
      if seat.None? {
        return;
      }
      var id := seat.value.0;
      if id !in games {
        return;
      }
      var game := games[id];
      if rules.turn(game.fen) != seat.value.1 {
        return;
      }
      PlayMove(game, id, conn, req);
    }

    /** The MOVE handler once the turn check has passed, on the room `game` listed under `id`. */
    method PlayMove(game: Room, id: string, conn: Connection, req: MoveRequest)
      requires Valid() && id in games && games[id] == game
      modifies this`pending, ledger, net`sent, game
      ensures Valid()
      ensures var o := PlayIn(old(game.View()), id, conn.ws, req, rules, net.open);
              && game.View() == o.room
              && net.sent == old(net.sent) + o.replies
              && pending == old(pending) + (if o.scheduleAi then [AiTask(game, conn)] else [])
              && ledger.accounts == (if o.rating.Some?
                                     then Ledger.Settle(old(ledger.accounts), o.rating.value.0, o.rating.value.1, ledger.expected)
                                     else old(ledger.accounts))
    {
      ghost var o := PlayIn(game.View(), id, conn.ws, req, rules, net.open);
      var attempt := rules.tryMove(game.fen, req);
      if attempt.None? {
        net.Send([Output(conn.ws, Error("Invalid move"))]);
        return;
      }
      var m := attempt.value;
      game.Play(m, rules);
      assert o.room == game.View();
      net.Broadcast(game.seatW, game.seatB, game.spectators,
                    UpdateGame(game.fen, Some(m), game.history, rules.turn(game.fen), None));
      if StartsWith(id, "ai") && rules.turn(game.fen) == Black && !rules.isGameOver(game.fen) {
        pending := pending + [AiTask(game, conn)];
      } else if rules.isCheckmate(game.fen) {
        Rate(RatingPair(game.View(), rules.turn(game.fen).Other(), id));
      }
    }

    /**
     * A timer armed by MOVE fires (server.ts:154-201), with `draw` the value of
     * `Math.random()` and `quote` the line picked from the trash-talk file, if any.
     * The turn is played on the captured room object, whether or not it is still listed,
     * and rated with the connection's current room read now.
     */
    method FireAi(draw: real, quote: Option<string>)
      requires Valid() && |pending| > 0 && 0.0 <= draw < 1.0
      requires pending[0].conn.currentRoom.Some?
      modifies this, ledger, net, pending[0].game
      ensures Valid()
      ensures games == old(games) && roomOrder == old(roomOrder) && net.open == old(net.open)
      ensures pending == old(pending)[1..]
      ensures var t := old(pending[0]);
              var o := AiTurn(old(t.game.View()), t.conn.currentRoom.value, draw, quote, rules, net.open);
              && t.game.View() == o.room
              && net.sent == old(net.sent) + o.replies
              && ledger.accounts == (if o.rating.Some?
                                     then Ledger.Settle(old(ledger.accounts), o.rating.value.0, o.rating.value.1, ledger.expected)
                                     else old(ledger.accounts))
              && forall id :: id in games && games[id] != t.game ==> games[id].View() == old(games[id].View())
    {
      var task := pending[0];
      pending := pending[1..];
      PlayAi(task.game, task.conn.currentRoom.value, draw, quote);
    }

    /** The body of the computer's timer, on the room object it captured. */
    method PlayAi(game: Room, currentRoom: string, draw: real, quote: Option<string>)
      requires Valid() && 0.0 <= draw < 1.0
      modifies ledger, net`sent, game
      ensures Valid()
      ensures var o := AiTurn(old(game.View()), currentRoom, draw, quote, rules, net.open);
              && game.View() == o.room
              && net.sent == old(net.sent) + o.replies
              && ledger.accounts == (if o.rating.Some?
                                     then Ledger.Settle(old(ledger.accounts), o.rating.value.0, o.rating.value.1, ledger.expected)
                                     else old(ledger.accounts))
    {
      ghost var o := AiTurn(game.View(), currentRoom, draw, quote, rules, net.open);
      var moves := rules.moves(game.fen);
      if |moves| > 0 {
        var m := Pick(AiChoices(moves), draw);
        game.Play(m, rules);
        assert o.room == game.View();
        AiAnnounce(game, UpdateGame(game.fen, Some(m), game.history, rules.turn(game.fen), None), quote);
        Rate(if rules.isCheckmate(game.fen) then RatingPair(game.View(), rules.turn(game.fen).Other(), currentRoom)
             else None);
      }
    }

    /** The computer's move goes to seat w and the spectators, the quote of the day to seat w alone. */
    method AiAnnounce(game: Room, update: Message, quote: Option<string>)
      modifies net`sent
      ensures net.sent == old(net.sent) + Deliver(Audience(game.seatW, None, game.spectators, net.open), update)
                          + (if quote.Some? && game.seatW.Some? && game.seatW.value in net.open
                             then [Output(game.seatW.value, TrashTalk(quote.value))] else [])
    {
      net.Broadcast(game.seatW, None, game.spectators, update);
      if quote.Some? && game.seatW.Some? && game.seatW.value in net.open {
        net.Send([Output(game.seatW.value, TrashTalk(quote.value))]);
      }
    }

    /** `updateElo` on the winner and loser of `pair`, if there is one. */
    method Rate(pair: Option<(string, string)>)
      requires ledger.Valid()
      modifies ledger
      ensures ledger.Valid()
      ensures ledger.accounts == (if pair.Some?
                                  then Ledger.Settle(old(ledger.accounts), pair.value.0, pair.value.1, ledger.expected)
                                  else old(ledger.accounts))
    {
      if pair.Some? {
        ledger.UpdateElo(pair.value.0, pair.value.1);
      }
    }

    /** SURRENDER (server.ts:219-246): ignored unless the connection holds a seat in an existing room. */
    method Surrender(conn: Connection)
      requires Valid()
      modifies ledger, net`sent
      ensures Valid()
      ensures var seat := ActingSeat(conn.currentRoom, conn.playerColor);
              && (seat.None? || seat.value.0 !in games ==>
                    net.sent == old(net.sent) && ledger.accounts == old(ledger.accounts))
              && (seat.Some? && seat.value.0 in games ==>
                    var o := SurrenderIn(games[seat.value.0].View(), seat.value.0, seat.value.1, rules, net.open);
                    && net.sent == old(net.sent) + o.0
                    && ledger.accounts == (if o.1.Some?
                                           then Ledger.Settle(old(ledger.accounts), o.1.value.0, o.1.value.1, ledger.expected)
                                           else old(ledger.accounts)))
    {
      var seat := ActingSeat(conn.currentRoom, conn.playerColor);
      if seat.Some? && seat.value.0 in games {
        var game := games[seat.value.0];
        var winner := seat.value.1.Other();
        Rate(RatingPair(game.View(), winner, seat.value.0));
        net.Broadcast(game.seatW, game.seatB, game.spectators,
                      UpdateGame(game.fen, None, game.history, rules.turn(game.fen), Some(winner)));
      }
    }

    /** The room a RESET, CHAT or close acts on: the connection's current room, if non-empty and listed. */
    function ActiveRoom(conn: Connection): (r: Option<string>)
      reads this, conn
      ensures r.Some? <==> conn.currentRoom.Some? && conn.currentRoom.value != "" && conn.currentRoom.value in games
      ensures r.Some? ==> conn.currentRoom == r
    {
      if conn.currentRoom.Some? && conn.currentRoom.value != "" && conn.currentRoom.value in games
      then conn.currentRoom else None
    }

    /**
     * RESET (server.ts:248-265): any member of the room, seated or not, puts the position
     * back to the start and the whole room hears the fresh position.
     */
    method Reset(conn: Connection)
      requires Valid()
      modifies net`sent, games.Values
      ensures Valid()
      ensures ActiveRoom(conn).None? ==>
                net.sent == old(net.sent) && forall id :: id in games ==> games[id].View() == old(games[id].View())
      ensures ActiveRoom(conn).Some? ==>
                var id := ActiveRoom(conn).value;
                var v := old(games[id].View());
                && games[id].View() == v.(fen := InitialFen, history := [])
                && net.sent == old(net.sent) + Deliver(Audience(v.seatW, v.seatB, v.spectators, net.open),
                                                       UpdateGame(InitialFen, None, [], White, None))
                && forall other :: other in games && other != id ==> games[other].View() == old(games[other].View())
    {
      var active := ActiveRoom(conn);
      if active.Some? {
        var game := games[active.value];
        game.Restart();
        net.Broadcast(game.seatW, game.seatB, game.spectators, UpdateGame(InitialFen, None, [], White, None));
      }
    }

    /** CHAT (server.ts:267-288): the text goes to the whole room under the sender's label. */
    method Chat(conn: Connection, text: string)
      requires Valid()
      modifies net`sent
      ensures Valid()
      ensures ActiveRoom(conn).None? ==> net.sent == old(net.sent)
      ensures ActiveRoom(conn).Some? ==>
                var v := games[ActiveRoom(conn).value].View();
                net.sent == old(net.sent) + Deliver(Audience(v.seatW, v.seatB, v.spectators, net.open),
                                                    ChatLine(SenderLabel(conn.playerColor, v), text))
    {
      var active := ActiveRoom(conn);
      if active.Some? {
        var game := games[active.value];
        net.Broadcast(game.seatW, game.seatB, game.spectators,
                      ChatLine(SenderLabel(conn.playerColor, game.View()), text));
      }
    }

    /**
     * A socket closes (server.ts:295-309): it is no longer open; it leaves its current room,
     * which is deleted from the Map when nobody is left in it.
     */
    method Close(conn: Connection)
      requires Valid()
      modifies this`games, this`roomOrder, net`open, if ActiveRoom(conn).Some? then {games[ActiveRoom(conn).value]} else {}
      ensures Valid()
      ensures net.open == old(net.open) - {conn.ws}
      ensures old(ActiveRoom(conn)).None? ==>
                games == old(games) && roomOrder == old(roomOrder)
                && forall id :: id in games ==> games[id].View() == old(games[id].View())
      ensures old(ActiveRoom(conn)).Some? ==>
                var id := old(ActiveRoom(conn)).value;
                var after := Vacate(old(games[id].View()), conn.ws);
                && old(games[id]).View() == after
                && (after.IsEmpty() ==> games == old(games) - {id} && roomOrder == Without(old(roomOrder), id))
                && (!after.IsEmpty() ==> games == old(games) && roomOrder == old(roomOrder))
                && forall other :: other in games && other != id ==> games[other].View() == old(games[other].View())
    {
      net.Disconnect(conn.ws);
      var active := ActiveRoom(conn);
      if active.Some? {
        var id := active.value;
        var game := games[id];
        game.Leave(conn.ws);
        if game.seatW.None? && game.seatB.None? && |game.spectators| == 0 {
          DropRoom(id);
        }
      }
    }

    /** `games.delete(id)`. */
    method DropRoom(id: string)
      requires Valid() && id in games
      modifies this`games, this`roomOrder
      ensures Valid()
      ensures games == old(games) - {id} && roomOrder == Without(old(roomOrder), id)
    {
      DeleteKey(games, roomOrder, id);
      games := games - {id};
      roomOrder := Without(roomOrder, id);
    }

    /** The Map's entries in insertion order, each with whether a seat is taken. */
    function Entries(ids: seq<string>): (r: seq<Entry>)
      reads this, games.Values
      requires forall id :: id in ids ==> id in games
      ensures |r| == |ids|
      ensures forall i :: 0 <= i < |ids| ==>
                r[i] == Entry(ids[i], games[ids[i]].seatW.Some? || games[ids[i]].seatB.Some?)
    {
      if ids == [] then []
      else [Entry(ids[0], games[ids[0]].seatW.Some? || games[ids[0]].seatB.Some?)] + Entries(ids[1..])
    }

    /**
     * GET /api/rooms (server.ts:317-322): exactly the listed rooms whose id does not start
     * with "ai" and which have a seated player, in the Map's order.
     */
    function ActiveRooms(): (r: seq<string>)
      reads this, games.Values
      requires forall id :: id in games <==> id in roomOrder
      ensures forall id :: id in r <==>
                id in games && !StartsWith(id, "ai") && (games[id].seatW.Some? || games[id].seatB.Some?)
    {
      var entries := Entries(roomOrder);
      assert forall id :: id in games ==> Entry(id, games[id].seatW.Some? || games[id].seatB.Some?) in entries by {
        forall id | id in games ensures Entry(id, games[id].seatW.Some? || games[id].seatB.Some?) in entries {
          var i :| 0 <= i < |roomOrder| && roomOrder[i] == id;
          assert entries[i] == Entry(id, games[id].seatW.Some? || games[id].seatB.Some?);
        }
      }
      assert forall e :: e in entries ==> e.id in games && e.seated == (games[e.id].seatW.Some? || games[e.id].seatB.Some?) by {
        forall e | e in entries ensures e.id in games && e.seated == (games[e.id].seatW.Some? || games[e.id].seatB.Some?) {
          var i :| 0 <= i < |entries| && entries[i] == e;
        }
      }
      ListRooms(entries)
    }

    /** GET /api/leaderboard (server.ts:324-331). */
    function Leaderboard(): (r: seq<Ledger.Account>)
      reads ledger
      requires ledger.Valid()
      ensures |r| == if |ledger.accounts| < 20 then |ledger.accounts| else 20
      ensures Ledger.SortedByElo(r)
      ensures forall a :: a in r ==> a.username in ledger.accounts && ledger.accounts[a.username] == a
      ensures forall k, b :: k in ledger.accounts && ledger.accounts[k] !in r && b in r ==>
                ledger.accounts[k].elo <= b.elo
    {
      ledger.Leaderboard()
    }
  }
}
