/**
 * The room bookkeeping of server.ts as values: a snapshot of one room's state, the rules
 * that decide seats, recipients and rating updates, and the facts proved about them. The
 * handlers in module Server apply these to the mutable rooms.
 */
module Rooms {
  import opened Wrappers
  import opened Chess
  import opened Text

  /** A WebSocket, identified by a number. */
  type SocketId = nat

  /** `data.character` as a client sends it; any field may be missing. */
  datatype CharacterPayload = CharacterPayload(trainerSprite: Option<string>, trainerTitle: Option<string>,
                                               companionPokemon: Option<int>)

  /** The display name the server uses when none is given. */
  const Anonymous: string := "Anonymous"

  /** JavaScript's `s || fallback` on an optional string: missing and "" are falsy. */
  function StringOr(s: Option<string>, fallback: string): string {
    if s.Some? && s.value != "" then s.value else fallback
  }

  /** JavaScript's `n || fallback` on an optional number: missing and 0 are falsy. */
  function NumberOr(n: Option<int>, fallback: int): int {
    if n.Some? && n.value != 0 then n.value else fallback
  }

  /** `data.username || "Anonymous"`. */
  function DisplayName(username: Option<string>): (r: string)
    ensures r != ""
    ensures username.Some? && username.value != "" ==> r == username.value
    ensures username.None? || username.value == "" ==> r == Anonymous
  {
    StringOr(username, Anonymous)
  }

  /** `charData`: every missing or falsy field of the payload replaced by its default. */
  function CharacterOf(c: Option<CharacterPayload>): (r: Option<CharacterData>)
    ensures r.Some? <==> c.Some?
    ensures r.Some? ==> r.value.trainerSprite != "" && r.value.trainerTitle != "" && r.value.companionPokemon != 0
    ensures r.Some? && c.value.trainerSprite.Some? && c.value.trainerSprite.value != "" ==>
              r.value.trainerSprite == c.value.trainerSprite.value
    ensures r.Some? && (c.value.trainerSprite.None? || c.value.trainerSprite.value == "") ==>
              r.value.trainerSprite == "red"
    ensures r.Some? && c.value.trainerTitle.Some? && c.value.trainerTitle.value != "" ==>
              r.value.trainerTitle == c.value.trainerTitle.value
    ensures r.Some? && (c.value.trainerTitle.None? || c.value.trainerTitle.value == "") ==>
              r.value.trainerTitle == "Pokémon Trainer"
    ensures r.Some? && c.value.companionPokemon.Some? && c.value.companionPokemon.value != 0 ==>
              r.value.companionPokemon == c.value.companionPokemon.value
    ensures r.Some? && (c.value.companionPokemon.None? || c.value.companionPokemon.value == 0) ==>
              r.value.companionPokemon == 25
  {
    match c
    case None => None
    case Some(p) =>
      Some(CharacterData(StringOr(p.trainerSprite, "red"), StringOr(p.trainerTitle, "Pokémon Trainer"),
                         NumberOr(p.companionPokemon, 25)))
  }

  /** The messages the server sends. */
  datatype Message =
    | InitGame(fen: string, color: Role, history: seq<Move>, turn: Color,
               opponentCharacter: Option<CharacterData>, opponentUsername: Option<string>)
    | OpponentCharacter(character: Option<CharacterData>, username: string)
    | UpdateGame(fen: string, lastMove: Option<Move>, history: seq<Move>, turn: Color,
                 surrenderWinner: Option<Color>)
    | TrashTalk(text: string)
    | ChatLine(username: string, text: string)
    | Error(message: string)

  /** One `send`: the recipient socket and the message. */
  datatype Output = Output(to: SocketId, message: Message)

  /** A sequence without repetitions: a JavaScript Set (or Map key list) in insertion order. */
  predicate NoDups<T(==)>(s: seq<T>) {
    forall i, j :: 0 <= i < j < |s| ==> s[i] != s[j]
  }

  /**
   * A snapshot of one `GameState`: the position (FEN and move history), the two seats
   * `w`/`b` with their usernames and characters, and the spectator Set in insertion order.
   */
  datatype RoomView = RoomView(
    fen: string, history: seq<Move>,
    seatW: Option<SocketId>, seatB: Option<SocketId>,
    nameW: Option<string>, nameB: Option<string>,
    charW: Option<CharacterData>, charB: Option<CharacterData>,
    spectators: seq<SocketId>)
  {
    function Seat(c: Color): Option<SocketId> {
      if c == White then seatW else seatB
    }

    function Name(c: Color): Option<string> {
      if c == White then nameW else nameB
    }

    function Character(c: Color): Option<CharacterData> {
      if c == White then charW else charB
    }

    /** Holds no socket at all: the condition under which `close` deletes the room. */
    predicate IsEmpty() {
      seatW.None? && seatB.None? && spectators == []
    }

    predicate Valid() {
      NoDups(spectators)
    }
  }

  /** The room JOIN_ROOM creates for an unknown id: empty seats, no spectators, a fresh game. */
  function NewRoom(): (v: RoomView)
    ensures v.Valid() && v.IsEmpty() && v.fen == InitialFen && v.history == []
  {
    RoomView(InitialFen, [], None, None, None, None, None, None, [])
  }

  /** The outcome of admitting a socket: the room afterwards and the role given. */
  datatype Admission = Admission(room: RoomView, role: Role)

  /**
   * Seat assignment (server.ts:76-91): seat w if it is free, else seat b if it is free, else
   * the Set of spectators. A seated joiner's name and character are recorded for the seat.
   */
  function Admit(v: RoomView, ws: SocketId, name: string, ch: Option<CharacterData>): Admission {
    if v.seatW.None? then
      Admission(v.(seatW := Some(ws), nameW := Some(name), charW := ch), Seat(White))
    else if v.seatB.None? then
      Admission(v.(seatB := Some(ws), nameB := Some(name), charB := ch), Seat(Black))
    else
      Admission(v.(spectators := if ws in v.spectators then v.spectators else v.spectators + [ws]), Spectator)
  }

  /** Admitting never disturbs a taken seat nor the position, and keeps the Set a set. */
  lemma AdmitPreserves(v: RoomView, ws: SocketId, name: string, ch: Option<CharacterData>)
    requires v.Valid()
    ensures var a := Admit(v, ws, name, ch);
            && a.room.Valid()
            && a.room.fen == v.fen && a.room.history == v.history
            && (v.seatW.Some? ==> a.room.seatW == v.seatW && a.room.nameW == v.nameW && a.room.charW == v.charW)
            && (v.seatB.Some? ==> a.room.seatB == v.seatB && a.room.nameB == v.nameB && a.room.charB == v.charB)
            && (a.role == Spectator <==> v.seatW.Some? && v.seatB.Some?)
            && (a.role.Seat? ==> a.room.Seat(a.role.color) == Some(ws) && a.room.spectators == v.spectators)
            && (a.role == Spectator ==> ws in a.room.spectators)
            && forall x :: x in v.spectators ==> x in a.room.spectators
  {
    var a := Admit(v, ws, name, ch);
    if v.seatW.Some? && v.seatB.Some? && ws !in v.spectators {
      forall i, j | 0 <= i < j < |a.room.spectators| ensures a.room.spectators[i] != a.room.spectators[j] {
        if j == |v.spectators| {
          assert a.room.spectators[i] == v.spectators[i];
        }
      }
    }
  }

  /** One join after another: the room and the roles, starting from `v`. */
  function JoinAll(v: RoomView, joiners: seq<SocketId>): (r: (RoomView, seq<Role>))
    ensures |r.1| == |joiners|
    decreases |joiners|
  {
    if joiners == [] then (v, [])
    else
      var a := Admit(v, joiners[0], Anonymous, None);
      var rest := JoinAll(a.room, joiners[1..]);
      (rest.0, [a.role] + rest.1)
  }

  /**
   * A room with both seats taken turns every further joiner into a spectator, and its
   * spectators become the old ones followed by the new distinct joiners, in join order.
   */
  lemma {:induction false} JoinFullRoom(v: RoomView, joiners: seq<SocketId>)
    requires v.seatW.Some? && v.seatB.Some?
    requires NoDups(v.spectators + joiners)
    ensures var r := JoinAll(v, joiners);
            && r.0.seatW == v.seatW && r.0.seatB == v.seatB
            && r.0.spectators == v.spectators + joiners
            && forall i :: 0 <= i < |joiners| ==> r.1[i] == Spectator
    decreases |joiners|
  {
    if joiners != [] {
      var a := Admit(v, joiners[0], Anonymous, None);
      assert (v.spectators + joiners)[|v.spectators|] == joiners[0];
      assert joiners[0] !in v.spectators by {
        forall i | 0 <= i < |v.spectators| ensures v.spectators[i] != joiners[0] {
          assert (v.spectators + joiners)[i] == v.spectators[i];
        }
      }
      assert a.room.spectators == v.spectators + [joiners[0]];
      assert a.room.spectators + joiners[1..] == v.spectators + joiners;
      JoinFullRoom(a.room, joiners[1..]);
    }
  }

  /**
   * In a fresh room the first joiner takes seat w, the second seat b, and every later
   * joiner becomes a spectator, in join order (the joiners being distinct sockets).
   */
  lemma {:induction false} JoinFreshRoom(joiners: seq<SocketId>)
    requires NoDups(joiners)
    ensures var r := JoinAll(NewRoom(), joiners);
            && (|joiners| >= 1 ==> r.1[0] == Seat(White) && r.0.seatW == Some(joiners[0]))
            && (|joiners| >= 2 ==> r.1[1] == Seat(Black) && r.0.seatB == Some(joiners[1]))
            && (forall i :: 2 <= i < |joiners| ==> r.1[i] == Spectator)
            && r.0.spectators == (if |joiners| <= 2 then [] else joiners[2..])
  {
    if |joiners| == 1 {
      assert JoinAll(NewRoom(), joiners).1 == [Seat(White)];
    } else if |joiners| >= 2 {
      var a0 := Admit(NewRoom(), joiners[0], Anonymous, None);
      var a1 := Admit(a0.room, joiners[1], Anonymous, None);
      var rest := joiners[2..];
      assert joiners[1..][1..] == rest;
      assert a1.room.seatW == Some(joiners[0]) && a1.room.seatB == Some(joiners[1]) && a1.room.spectators == [];
      assert NoDups(a1.room.spectators + rest) by {
        assert a1.room.spectators + rest == rest;
        forall i, j | 0 <= i < j < |rest| ensures rest[i] != rest[j] {
          assert rest[i] == joiners[i + 2] && rest[j] == joiners[j + 2];
        }
      }
      JoinFullRoom(a1.room, rest);
      var r2 := JoinAll(a1.room, rest);
      var r1 := JoinAll(a0.room, joiners[1..]);
      assert r1 == (r2.0, [Seat(Black)] + r2.1);
      var r0 := JoinAll(NewRoom(), joiners);
      assert r0 == (r1.0, [Seat(White)] + r1.1);
      forall i | 2 <= i < |joiners| ensures r0.1[i] == Spectator {
        assert r0.1[i] == r2.1[i - 2];
      }
      if |joiners| == 2 {
        assert rest == [];
      }
    }
  }

  /** The sockets of `s` that are open, in order (`forEach` with a `readyState` check). */
  function Live(s: seq<SocketId>, open: set<SocketId>): (r: seq<SocketId>)
    ensures |r| <= |s|
  {
    if s == [] then []
    else Live(s[..|s| - 1], open) + (if s[|s| - 1] in open then [s[|s| - 1]] else [])
  }

  /** Exactly the open members of `s` survive the readiness filter. */
  lemma {:induction false} LiveMembers(s: seq<SocketId>, open: set<SocketId>, x: SocketId)
    ensures x in Live(s, open) <==> x in s && x in open
    decreases |s|
  {
    if s != [] {
      LiveMembers(s[..|s| - 1], open, x);
      assert x in s <==> x in s[..|s| - 1] || x == s[|s| - 1] by {
        assert s == s[..|s| - 1] + [s[|s| - 1]];
      }
    }
  }

  /** The socket in a seat, if the seat is taken. */
  function SeatList(seat: Option<SocketId>): seq<SocketId> {
    if seat.Some? then [seat.value] else []
  }

  /** Everyone a room-wide broadcast is addressed to, in order: seat w, seat b, then each spectator. */
  function Members(seatW: Option<SocketId>, seatB: Option<SocketId>, spectators: seq<SocketId>): seq<SocketId> {
    SeatList(seatW) + SeatList(seatB) + spectators
  }

  /** The recipients of a room-wide broadcast: its members whose socket is open. */
  function Audience(seatW: Option<SocketId>, seatB: Option<SocketId>, spectators: seq<SocketId>,
                    open: set<SocketId>): seq<SocketId>
  {
    Live(Members(seatW, seatB, spectators), open)
  }

  /** A socket hears a broadcast exactly when it is open and holds a seat or spectates. */
  lemma AudienceMembers(seatW: Option<SocketId>, seatB: Option<SocketId>, spectators: seq<SocketId>,
                        open: set<SocketId>, x: SocketId)
    ensures x in Audience(seatW, seatB, spectators, open) <==>
            x in open && (seatW == Some(x) || seatB == Some(x) || x in spectators)
  {
    LiveMembers(Members(seatW, seatB, spectators), open, x);
  }

  /** The same, for the sends of a broadcast. */
  lemma HearsBroadcast(seatW: Option<SocketId>, seatB: Option<SocketId>, spectators: seq<SocketId>,
                       open: set<SocketId>, m: Message, x: SocketId)
    ensures Hears(Deliver(Audience(seatW, seatB, spectators, open), m), x) <==>
            x in open && (seatW == Some(x) || seatB == Some(x) || x in spectators)
  {
    AudienceMembers(seatW, seatB, spectators, open, x);
    HearsDeliver(Audience(seatW, seatB, spectators, open), m, x);
  }

  /** The same message sent to each recipient in turn. */
  function Deliver(to: seq<SocketId>, m: Message): (r: seq<Output>)
    ensures |r| == |to|
    ensures forall i :: 0 <= i < |to| ==> r[i] == Output(to[i], m)
  {
    seq(|to|, i requires 0 <= i < |to| => Output(to[i], m))
  }

  lemma DeliverSnoc(to: seq<SocketId>, x: SocketId, m: Message)
    ensures Deliver(to + [x], m) == Deliver(to, m) + [Output(x, m)]
  {
  }

  lemma LiveSnoc(s: seq<SocketId>, x: SocketId, open: set<SocketId>)
    ensures Live(s + [x], open) == Live(s, open) + (if x in open then [x] else [])
  {
    assert (s + [x])[..|s|] == s;
  }

  lemma DeliverAppend(a: seq<SocketId>, b: seq<SocketId>, m: Message)
    ensures Deliver(a + b, m) == Deliver(a, m) + Deliver(b, m)
  {
    assert forall i :: 0 <= i < |a + b| ==> Deliver(a + b, m)[i] == (Deliver(a, m) + Deliver(b, m))[i];
  }

  /** The messages a joiner triggers: its snapshot, then perhaps a note to the opponent's seat. */
  function JoinReplies(after: RoomView, role: Role, ws: SocketId, name: string, ch: Option<CharacterData>,
                       turn: Color, open: set<SocketId>): seq<Output>
  {
    var opponent := if role == Seat(White) then Black else White;
    var init := Output(ws, InitGame(after.fen, role, after.history, turn, after.Character(opponent),
                                    if after.Name(opponent).Some? && after.Name(opponent).value != ""
                                    then after.Name(opponent) else None));
    var note := OpponentCharacter(ch, name);
    [init] +
    if role == Seat(Black) && after.seatW.Some? && after.seatW.value in open then [Output(after.seatW.value, note)]
    else if role == Seat(White) && after.seatB.Some? && after.seatB.value in open then [Output(after.seatB.value, note)]
    else []
  }

  /**
   * The joiner always gets its snapshot first; only a seated joiner with an open opponent seat
   * causes a second message, and that one goes to the opponent seat; spectators cause none.
   */
  lemma JoinRepliesShape(after: RoomView, role: Role, ws: SocketId, name: string, ch: Option<CharacterData>,
                         turn: Color, open: set<SocketId>)
    ensures var out := JoinReplies(after, role, ws, name, ch, turn, open);
            && 1 <= |out| <= 2
            && out[0].to == ws && out[0].message.InitGame? && out[0].message.color == role
            && (|out| == 2 <==> role.Seat? && after.Seat(role.color.Other()).Some?
                                && after.Seat(role.color.Other()).value in open)
            && (|out| == 2 ==> out[1] == Output(after.Seat(role.color.Other()).value, OpponentCharacter(ch, name)))
  {
  }

  /**
   * The names a checkmate or surrender passes to `updateElo` (server.ts:196, 207, 228): both
   * seat names present, non-empty and not "Anonymous", in a room whose id does not start with "ai".
   */
  function RatingPair(v: RoomView, winner: Color, roomId: string): Option<(string, string)> {
    var w := v.Name(winner);
    var l := v.Name(winner.Other());
    if w.Some? && w.value != "" && l.Some? && l.value != "" && w.value != Anonymous && l.value != Anonymous
       && !StartsWith(roomId, "ai")
    then Some((w.value, l.value))
    else None
  }

  /** The rating guard, both directions, and which name is the winner's. */
  lemma RatingPairExact(v: RoomView, winner: Color, roomId: string)
    ensures RatingPair(v, winner, roomId).Some? <==>
            && !StartsWith(roomId, "ai")
            && (forall c :: v.Name(c).Some? && v.Name(c).value != "" && v.Name(c).value != Anonymous)
    ensures RatingPair(v, winner, roomId).Some? ==>
            RatingPair(v, winner, roomId).value == (v.Name(winner).value, v.Name(winner.Other()).value)
  {
    if RatingPair(v, winner, roomId).Some? {
      forall c ensures v.Name(c).Some? && v.Name(c).value != "" && v.Name(c).value != Anonymous {
        assert c == winner || c == winner.Other();
      }
    } else if !StartsWith(roomId, "ai") {
      var c := if v.Name(winner).Some? && v.Name(winner).value != "" && v.Name(winner).value != Anonymous
               then winner.Other() else winner;
      assert !(v.Name(c).Some? && v.Name(c).value != "" && v.Name(c).value != Anonymous);
    }
  }

  /** Computer-opponent rooms never update ratings. */
  lemma NoRatingInAiRooms(v: RoomView, winner: Color, roomId: string)
    requires StartsWith(roomId, "ai")
    ensures RatingPair(v, winner, roomId) == None
  {
  }

  /** The seat a MOVE or SURRENDER acts for: the connection is in a (non-empty) room and seated. */
  function ActingSeat(currentRoom: Option<string>, playerColor: Option<Role>): Option<(string, Color)> {
    if currentRoom.Some? && currentRoom.value != "" && playerColor.Some? && playerColor.value.Seat?
    then Some((currentRoom.value, playerColor.value.color))
    else None
  }

  /** Spectators and connections that never joined cannot act for a seat. */
  lemma ActingSeatExact(currentRoom: Option<string>, playerColor: Option<Role>)
    ensures ActingSeat(currentRoom, playerColor).Some? ==>
            playerColor == Some(Seat(ActingSeat(currentRoom, playerColor).value.1))
            && currentRoom == Some(ActingSeat(currentRoom, playerColor).value.0)
    ensures playerColor == Some(Spectator) || playerColor == None || currentRoom == None || currentRoom == Some("") ==>
            ActingSeat(currentRoom, playerColor) == None
  {
  }

  /** The moves the computer opponent draws from: the captures if there are any, else every move. */
  function AiChoices(moves: seq<Move>): (r: seq<Move>)
    ensures forall m :: m in r ==> m in moves
    ensures (exists m :: m in moves && m.captured.Some?) ==> forall m :: m in r ==> m.captured.Some?
    ensures (forall m :: m in moves ==> m.captured.None?) ==> r == moves
    ensures |r| > 0 <==> |moves| > 0
  {
    var captures := Captures(moves);
    if |captures| > 0 then
      assert captures[0] in moves && captures[0].captured.Some?;
      captures
    else moves
  }

  /** `moves.filter((m) => m.captured)`. */
  function Captures(moves: seq<Move>): (r: seq<Move>)
    ensures forall m :: m in r <==> m in moves && m.captured.Some?
  {
    if moves == [] then []
    else Captures(moves[..|moves| - 1])
         + (if moves[|moves| - 1].captured.Some? then [moves[|moves| - 1]] else [])
  }

  /** `close`: the socket leaves whichever seat it holds and the spectator Set. */
  function Vacate(v: RoomView, ws: SocketId): (r: RoomView)
    ensures v.Valid() ==> r.Valid()
    ensures r.seatW != Some(ws) && r.seatB != Some(ws) && ws !in r.spectators
    ensures v.seatW != Some(ws) ==> r.seatW == v.seatW
    ensures v.seatB != Some(ws) ==> r.seatB == v.seatB
    ensures forall x :: x in r.spectators <==> x in v.spectators && x != ws
    ensures r.fen == v.fen && r.history == v.history && r.nameW == v.nameW && r.nameB == v.nameB
            && r.charW == v.charW && r.charB == v.charB
  {
    v.(seatW := if v.seatW == Some(ws) then None else v.seatW,
       seatB := if v.seatB == Some(ws) then None else v.seatB,
       spectators := Without(v.spectators, ws))
  }

  /** `Set.delete(x)` / `Map.delete(x)`: the others keep their order. */
  function Without<T(==,!new)>(s: seq<T>, x: T): (r: seq<T>)
    ensures NoDups(s) ==> NoDups(r)
    ensures forall y :: y in r <==> y in s && y != x
    ensures |r| <= |s|
  {
    if s == [] then []
    else
      var init := s[..|s| - 1];
      var last := s[|s| - 1];
      var rest := Without(init, x);
      var r := rest + (if last == x then [] else [last]);
      assert NoDups(s) ==> NoDups(r) by {
        if NoDups(s) {
          assert NoDups(init);
          forall i, j | 0 <= i < j < |r| ensures r[i] != r[j] {
            if j == |rest| {
              assert r[i] in init;
            }
          }
        }
      }
      r
  }

  /**
   * The room is garbage-collected after `close` exactly when every seat and spectator slot
   * it had was either empty or held by the closing socket.
   */
  lemma VacateEmpties(v: RoomView, ws: SocketId)
    ensures Vacate(v, ws).IsEmpty() <==>
            (v.seatW.None? || v.seatW == Some(ws)) && (v.seatB.None? || v.seatB == Some(ws))
            && forall x :: x in v.spectators ==> x == ws
  {
    var r := Vacate(v, ws);
    if r.spectators != [] {
      assert r.spectators[0] in r.spectators;
    }
  }

  /** The sender label of a CHAT (server.ts:271-274). */
  function SenderLabel(role: Option<Role>, v: RoomView): (r: string)
    ensures r != ""
    ensures role == Some(Spectator) ==> r == "Spectator"
    ensures role.Some? && role.value.Seat? && v.Name(role.value.color).Some? && v.Name(role.value.color).value != ""
            ==> r == v.Name(role.value.color).value
    ensures role.Some? && role.value.Seat? && (v.Name(role.value.color).None? || v.Name(role.value.color).value == "")
            ==> r == Anonymous
    ensures role.None? ==> r == Anonymous
  {
    match role
    case None => Anonymous
    case Some(Spectator) => "Spectator"
    case Some(Seat(c)) => StringOr(v.Name(c), Anonymous)
  }

  /** An entry of the rooms Map for the listing: the id and whether either seat is taken. */
  datatype Entry = Entry(id: string, seated: bool)

  /** `/api/rooms`: the ids, in Map order, of rooms that are not computer rooms and have a seated player. */
  function ListRooms(entries: seq<Entry>): (r: seq<string>)
    ensures forall id :: id in r <==> exists e :: e in entries && e.id == id && e.seated && !StartsWith(id, "ai")
    ensures |r| <= |entries|
  {
    if entries == [] then []
    else
      var e := entries[|entries| - 1];
      var rest := ListRooms(entries[..|entries| - 1]);
      assert forall x :: x in entries <==> x in entries[..|entries| - 1] || x == e;
      rest + (if e.seated && !StartsWith(e.id, "ai") then [e.id] else [])
  }

  /** The UPDATE_GAME every member of the room hears after a move `m`. */
  function Played(v: RoomView, m: Move, rules: Rules): (r: RoomView)
    ensures r.fen == rules.play(v.fen, m) && r.history == v.history + [m]
    ensures r.(fen := v.fen, history := v.history) == v
    ensures r.Valid() == v.Valid()
  {
    v.(fen := rules.play(v.fen, m), history := v.history + [m])
  }

  /** What a MOVE does once its sender may act: the room afterwards, the sends, the AI timer and a rating update. */
  datatype MoveOutcome = MoveOutcome(room: RoomView, replies: seq<Output>, scheduleAi: bool,
                                     rating: Option<(string, string)>)

  /** The socket `x` is one of the recipients of `out`. */
  predicate Hears(out: seq<Output>, x: SocketId) {
    exists i :: 0 <= i < |out| && out[i].to == x
  }

  lemma HearsDeliver(to: seq<SocketId>, m: Message, x: SocketId)
    ensures Hears(Deliver(to, m), x) <==> x in to
  {
    if x in to {
      var i :| 0 <= i < |to| && to[i] == x;
      assert Deliver(to, m)[i].to == x;
    }
  }


  /**
   * A MOVE from the seat whose turn it is (server.ts:134-216): an illegal move answers the
   * sender alone with "Invalid move" and changes nothing; a legal one is appended to the
   * history and broadcast to the whole room, then either arms the computer's reply (room id
   * starting with "ai", black to move, game not over) or, on checkmate, rates the players.
   * What this means is stated by `PlayInSpec`.
   */
  function PlayIn(v: RoomView, roomId: string, ws: SocketId, req: MoveRequest, rules: Rules,
                  open: set<SocketId>): (o: MoveOutcome)
    ensures rules.tryMove(v.fen, req).None? ==> o.room == v
  {
    match rules.tryMove(v.fen, req)
    case None => MoveOutcome(v, [Output(ws, Error("Invalid move"))], false, None)
    case Some(m) =>
      var after := Played(v, m, rules);
      var update := UpdateGame(after.fen, Some(m), after.history, rules.turn(after.fen), None);
      var to := Audience(after.seatW, after.seatB, after.spectators, open);
      var ai := StartsWith(roomId, "ai") && rules.turn(after.fen) == Black && !rules.isGameOver(after.fen);
      var winner := rules.turn(after.fen).Other();
      var rating := if !ai && rules.isCheckmate(after.fen) then RatingPair(after, winner, roomId) else None;
      MoveOutcome(after, Deliver(to, update), ai, rating)
  }

  /** What a MOVE does, for every room, request and set of open sockets. */
  lemma PlayInSpec(v: RoomView, roomId: string, ws: SocketId, req: MoveRequest, rules: Rules,
                   open: set<SocketId>)
    ensures var o := PlayIn(v, roomId, ws, req, rules, open);
            && (rules.tryMove(v.fen, req).None? ==>
                  o.room == v && o.replies == [Output(ws, Error("Invalid move"))] && !o.scheduleAi && o.rating.None?)
            && (rules.tryMove(v.fen, req).Some? ==>
                  var m := rules.tryMove(v.fen, req).value;
                  && o.room.fen == rules.play(v.fen, m) && o.room.history == v.history + [m]
                  && o.room.(fen := v.fen, history := v.history) == v
                  && (forall i :: 0 <= i < |o.replies| ==>
                        o.replies[i].message == UpdateGame(o.room.fen, Some(m), o.room.history, rules.turn(o.room.fen), None))
                  && (forall x :: Hears(o.replies, x) <==>
                        x in open && (v.seatW == Some(x) || v.seatB == Some(x) || x in v.spectators)))
            && (o.scheduleAi <==>
                  rules.tryMove(v.fen, req).Some? && StartsWith(roomId, "ai")
                  && rules.turn(o.room.fen) == Black && !rules.isGameOver(o.room.fen))
            && (o.rating.Some? <==>
                  && rules.tryMove(v.fen, req).Some? && !o.scheduleAi && rules.isCheckmate(o.room.fen)
                  && !StartsWith(roomId, "ai")
                  && forall c :: v.Name(c).Some? && v.Name(c).value != "" && v.Name(c).value != Anonymous)
            && (o.rating.Some? ==>
                  o.rating.value == (v.Name(rules.turn(o.room.fen).Other()).value, v.Name(rules.turn(o.room.fen)).value))
  {
    var o := PlayIn(v, roomId, ws, req, rules, open);
    if rules.tryMove(v.fen, req).Some? {
      var m := rules.tryMove(v.fen, req).value;
      var after := Played(v, m, rules);
      var update := UpdateGame(after.fen, Some(m), after.history, rules.turn(after.fen), None);
      var to := Audience(after.seatW, after.seatB, after.spectators, open);
      var winner := rules.turn(after.fen).Other();
      assert o.room == after && o.replies == Deliver(to, update);
      forall x ensures Hears(o.replies, x) <==>
                       x in open && (v.seatW == Some(x) || v.seatB == Some(x) || x in v.spectators) {
        HearsBroadcast(after.seatW, after.seatB, after.spectators, open, update, x);
      }
      RatingPairExact(after, winner, roomId);
      assert winner.Other() == rules.turn(after.fen);
      assert forall c :: after.Name(c) == v.Name(c);
    }
  }

  /** `Math.floor(Math.random() * options.length)`, with the random draw `draw` in [0, 1). */
  function Pick(options: seq<Move>, draw: real): (m: Move)
    requires |options| > 0 && 0.0 <= draw < 1.0
    ensures m in options
  {
    var n := |options| as real;
    assert draw * n < n;
    options[(draw * n).Floor]
  }

  /** What a fired computer turn does: the room afterwards, the sends and a rating update. */
  datatype AiOutcome = AiOutcome(room: RoomView, replies: seq<Output>, rating: Option<(string, string)>)

  /**
   * The computer's turn (server.ts:154-201), played from the room's position when the timer
   * fires: with no legal move nothing happens; otherwise it plays a random capture if there
   * is one, else a random move, broadcasts it to seat w and the spectators (not seat b),
   * sends the quote of the day to seat w, and on checkmate rates the players unless the
   * connection's current room, read at this moment, starts with "ai".
   * What this means is stated by `AiTurnSpec`.
   */
  function AiTurn(v: RoomView, currentRoom: string, draw: real, quote: Option<string>, rules: Rules,
                  open: set<SocketId>): (o: AiOutcome)
    requires 0.0 <= draw < 1.0
    ensures |rules.moves(v.fen)| == 0 ==> o == AiOutcome(v, [], None)
  {
    var moves := rules.moves(v.fen);
    if |moves| == 0 then AiOutcome(v, [], None)
    else
      var m := Pick(AiChoices(moves), draw);
      var after := Played(v, m, rules);
      var update := UpdateGame(after.fen, Some(m), after.history, rules.turn(after.fen), None);
      var to := Audience(after.seatW, None, after.spectators, open);
      var talk := if quote.Some? && after.seatW.Some? && after.seatW.value in open
                  then [Output(after.seatW.value, TrashTalk(quote.value))] else [];
      var rating := if rules.isCheckmate(after.fen) then RatingPair(after, rules.turn(after.fen).Other(), currentRoom)
                    else None;
      AiOutcome(after, Deliver(to, update) + talk, rating)
  }

  /** The computer's move reaches exactly the open sockets among seat w and the spectators. */
  lemma AiAudience(after: RoomView, update: Message, quote: Option<string>, open: set<SocketId>)
    ensures var to := Audience(after.seatW, None, after.spectators, open);
            var talk := if quote.Some? && after.seatW.Some? && after.seatW.value in open
                        then [Output(after.seatW.value, TrashTalk(quote.value))] else [];
            forall x :: Hears(Deliver(to, update) + talk, x) <==>
                          x in open && (after.seatW == Some(x) || x in after.spectators)
  {
    var to := Audience(after.seatW, None, after.spectators, open);
    var talk := if quote.Some? && after.seatW.Some? && after.seatW.value in open
                then [Output(after.seatW.value, TrashTalk(quote.value))] else [];
    var replies := Deliver(to, update) + talk;
    forall x ensures Hears(replies, x) <==> x in open && (after.seatW == Some(x) || x in after.spectators) {
      HearsDeliver(to, update, x);
      AudienceMembers(after.seatW, None, after.spectators, open, x);
      if Hears(replies, x) {
        var i :| 0 <= i < |replies| && replies[i].to == x;
        if i >= |Deliver(to, update)| {
          assert x == after.seatW.value;
        }
      }
      if x in to {
        var i :| 0 <= i < |Deliver(to, update)| && Deliver(to, update)[i].to == x;
        assert replies[i].to == x;
      }
    }
  }

  /** What a fired computer turn does, for every room, draw, quote and set of open sockets. */
  lemma AiTurnSpec(v: RoomView, currentRoom: string, draw: real, quote: Option<string>, rules: Rules,
                   open: set<SocketId>)
    requires 0.0 <= draw < 1.0
    ensures var o := AiTurn(v, currentRoom, draw, quote, rules, open);
            && (|rules.moves(v.fen)| > 0 ==>
                  && |o.room.history| == |v.history| + 1
                  && o.room.(fen := v.fen, history := v.history) == v
                  && var m := o.room.history[|v.history|];
                  && o.room.history == v.history + [m]
                  && m in rules.moves(v.fen) && o.room.fen == rules.play(v.fen, m)
                  && ((exists c :: c in rules.moves(v.fen) && c.captured.Some?) ==> m.captured.Some?)
                  && (forall x :: Hears(o.replies, x) <==>
                        x in open && (v.seatW == Some(x) || x in v.spectators)))
            && (forall i :: 0 <= i < |o.replies| && o.replies[i].message.TrashTalk? ==>
                  quote.Some? && o.replies[i].message == TrashTalk(quote.value) && v.seatW == Some(o.replies[i].to))
            && (o.rating.Some? <==>
                  && |rules.moves(v.fen)| > 0 && rules.isCheckmate(o.room.fen) && !StartsWith(currentRoom, "ai")
                  && forall c :: v.Name(c).Some? && v.Name(c).value != "" && v.Name(c).value != Anonymous)
            && (o.rating.Some? ==>
                  o.rating.value == (v.Name(rules.turn(o.room.fen).Other()).value, v.Name(rules.turn(o.room.fen)).value))
  {
    var o := AiTurn(v, currentRoom, draw, quote, rules, open);
    var moves := rules.moves(v.fen);
    if |moves| > 0 {
      var m := Pick(AiChoices(moves), draw);
      var after := Played(v, m, rules);
      var update := UpdateGame(after.fen, Some(m), after.history, rules.turn(after.fen), None);
      var to := Audience(after.seatW, None, after.spectators, open);
      var talk := if quote.Some? && after.seatW.Some? && after.seatW.value in open
                  then [Output(after.seatW.value, TrashTalk(quote.value))] else [];
      var replies := Deliver(to, update) + talk;
      assert o.room == after && o.replies == replies;
      AiAudience(after, update, quote, open);
      assert after.history[|v.history|] == m;
      RatingPairExact(after, rules.turn(after.fen).Other(), currentRoom);
      assert forall c :: after.Name(c) == v.Name(c);
    }
  }

  /**
   * SURRENDER (server.ts:219-246): the position stays as it is, the opponent of the
   * surrendering seat is announced to the whole room as the winner and, under the rating
   * guard, credited with a win over the surrendering player. What this means is stated by
   * `SurrenderInSpec`.
   */
  function SurrenderIn(v: RoomView, roomId: string, color: Color, rules: Rules, open: set<SocketId>)
    : (o: (seq<Output>, Option<(string, string)>))
    ensures |o.0| <= |Members(v.seatW, v.seatB, v.spectators)|
  {
    var to := Audience(v.seatW, v.seatB, v.spectators, open);
    var update := UpdateGame(v.fen, None, v.history, rules.turn(v.fen), Some(color.Other()));
    (Deliver(to, update), RatingPair(v, color.Other(), roomId))
  }

  /** What a SURRENDER does, for every room, seat and set of open sockets. */
  lemma SurrenderInSpec(v: RoomView, roomId: string, color: Color, rules: Rules, open: set<SocketId>)
    ensures var o := SurrenderIn(v, roomId, color, rules, open);
            && (forall i :: 0 <= i < |o.0| ==>
                  o.0[i].message == UpdateGame(v.fen, None, v.history, rules.turn(v.fen), Some(color.Other())))
            && (forall x :: Hears(o.0, x) <==> x in open && (v.seatW == Some(x) || v.seatB == Some(x) || x in v.spectators))
            && (o.1.Some? ==> v.Name(color.Other()) == Some(o.1.value.0) && v.Name(color) == Some(o.1.value.1))
            && (o.1.Some? <==> !StartsWith(roomId, "ai")
                               && (forall c :: v.Name(c).Some? && v.Name(c).value != "" && v.Name(c).value != Anonymous))
  {
    var to := Audience(v.seatW, v.seatB, v.spectators, open);
    var update := UpdateGame(v.fen, None, v.history, rules.turn(v.fen), Some(color.Other()));
    forall x ensures Hears(Deliver(to, update), x) <==>
                     x in open && (v.seatW == Some(x) || v.seatB == Some(x) || x in v.spectators) {
      HearsBroadcast(v.seatW, v.seatB, v.spectators, open, update, x);
    }
    RatingPairExact(v, color.Other(), roomId);
  }
}
