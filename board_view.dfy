/**
 * The client's board component: the selection state machine a click on a square drives, the
 * local move and the promotion dialog, and the pure read-outs the component renders (the
 * captured-piece trays, the legal-move markers, the game-over banner, the square shading).
 * chess.js is the `Rules` oracle; `game` is represented by its FEN and its move history.
 */
module ChessBoard {
  import opened Wrappers
  import opened Chess

  /** The moves of `legal` that end on `square`, in order (the `filter` over `legalMoves`). */
  function MovesTo(legal: seq<Move>, square: string): (r: seq<Move>)
    ensures |r| <= |legal|
    ensures forall i :: 0 <= i < |r| ==> r[i].to == square && r[i] in legal
    ensures |r| > 0 <==> exists i :: 0 <= i < |legal| && legal[i].to == square
    decreases |legal|
  {
    if legal == [] then []
    else if legal[0].to == square then [legal[0]] + MovesTo(legal[1..], square)
    else MovesTo(legal[1..], square)
  }

  /** The first move `MovesTo` yields is the earliest move of `legal` that ends on `square`. */
  lemma {:induction false} MovesToFirst(legal: seq<Move>, square: string)
    requires |MovesTo(legal, square)| > 0
    ensures exists j :: 0 <= j < |legal| && legal[j] == MovesTo(legal, square)[0] &&
                        legal[j].to == square && forall k :: 0 <= k < j ==> legal[k].to != square
    decreases |legal|
  {
    if legal[0].to != square {
      MovesToFirst(legal[1..], square);
      var j :| 0 <= j < |legal[1..]| && legal[1..][j] == MovesTo(legal[1..], square)[0] &&
               legal[1..][j].to == square && forall k :: 0 <= k < j ==> legal[1..][k].to != square;
      assert legal[j + 1] == MovesTo(legal, square)[0];
      assert forall k :: 0 <= k < j + 1 ==> legal[k].to != square by {
        forall k | 0 <= k < j + 1 ensures legal[k].to != square {
          if k > 0 { assert legal[k] == legal[1..][k - 1]; }
        }
      }
    } else {
      assert legal[0] == MovesTo(legal, square)[0];
    }
  }

  /** `isSquareLegalMove`: some loaded legal move ends on `square` (the `some` over `legalMoves`). */
  function IsSquareLegalMove(legal: seq<Move>, square: string): (b: bool)
    ensures b <==> exists i :: 0 <= i < |legal| && legal[i].to == square
    decreases |legal|
  {
    legal != [] && (legal[0].to == square || IsSquareLegalMove(legal[1..], square))
  }

  /** A square carries a legal-move marker exactly when a click on it would play (or prompt) a move. */
  lemma {:induction false} MarkerMatchesClick(legal: seq<Move>, square: string)
    ensures IsSquareLegalMove(legal, square) <==> |MovesTo(legal, square)| > 0
  {
  }

  /** The pieces `mover`'s capturing moves took, in history order, each shown in the other colour. */
  function CapturedBy(history: seq<Move>, mover: Color): (r: seq<Piece>)
    ensures |r| <= |history|
    ensures forall i :: 0 <= i < |r| ==> r[i].color == mover.Other()
    decreases |history|
  {
    if history == [] then []
    else
      var m := history[0];
      if m.captured.Some? && m.color == mover then [Piece(m.captured.value, mover.Other())] + CapturedBy(history[1..], mover)
      else CapturedBy(history[1..], mover)
  }

  /** Every tray entry is the piece some move of `mover` took. */
  lemma {:induction false} CapturedFrom(history: seq<Move>, mover: Color, i: nat)
    requires i < |CapturedBy(history, mover)|
    ensures exists j :: 0 <= j < |history| && history[j].color == mover &&
                        history[j].captured == Some(CapturedBy(history, mover)[i].kind)
    decreases |history|
  {
    var m := history[0];
    if m.captured.Some? && m.color == mover {
      if i == 0 {
        assert history[0].captured == Some(CapturedBy(history, mover)[0].kind);
      } else {
        CapturedFrom(history[1..], mover, i - 1);
        var j :| 0 <= j < |history[1..]| && history[1..][j].color == mover &&
                 history[1..][j].captured == Some(CapturedBy(history[1..], mover)[i - 1].kind);
        assert history[j + 1] == history[1..][j];
      }
    } else {
      CapturedFrom(history[1..], mover, i);
      var j :| 0 <= j < |history[1..]| && history[1..][j].color == mover &&
               history[1..][j].captured == Some(CapturedBy(history[1..], mover)[i].kind);
      assert history[j + 1] == history[1..][j];
    }
  }

  /** `capturedWhite`: white pieces black took. */
  function CapturedWhite(history: seq<Move>): seq<Piece> {
    CapturedBy(history, Black)
  }

  /** `capturedBlack`: black pieces white took. */
  function CapturedBlack(history: seq<Move>): seq<Piece> {
    CapturedBy(history, White)
  }

  /** The trays of a history are the trays of its parts, one after the other (history order is kept). */
  lemma {:induction false} CapturedAppend(h1: seq<Move>, h2: seq<Move>, mover: Color)
    ensures CapturedBy(h1 + h2, mover) == CapturedBy(h1, mover) + CapturedBy(h2, mover)
    decreases |h1|
  {
    if h1 != [] {
      assert (h1 + h2)[0] == h1[0] && (h1 + h2)[1..] == h1[1..] + h2;
      CapturedAppend(h1[1..], h2, mover);
    } else {
      assert h1 + h2 == h2;
    }
  }

  /** The moves of a history that took a piece. */
  function Captures(history: seq<Move>): (r: seq<Move>)
    decreases |history|
  {
    if history == [] then []
    else if history[0].captured.Some? then [history[0]] + Captures(history[1..])
    else Captures(history[1..])
  }

  /** Between them the two trays show every capture exactly once. */
  lemma {:induction false} TraysCountCaptures(history: seq<Move>)
    ensures |CapturedWhite(history)| + |CapturedBlack(history)| == |Captures(history)|
    decreases |history|
  {
    if history != [] {
      TraysCountCaptures(history[1..]);
    }
  }

  /** The outcome the banner reports. */
  datatype Verdict = Surrendered(winner: Color) | Checkmated(winner: Color) | Drawn | Stalemated | Ongoing

  /** The game-over selection as the component writes it: surrender, checkmate, draw, stalemate. */
  function Decide(surrenderWinner: Option<Color>, rules: Rules, fen: string): (v: Verdict)
    ensures surrenderWinner.Some? ==> v == Surrendered(surrenderWinner.value)
    ensures surrenderWinner.None? && rules.isCheckmate(fen) ==> v == Checkmated(rules.turn(fen).Other())
    ensures v == Ongoing <==>
              surrenderWinner.None? && !rules.isCheckmate(fen) && !rules.isDraw(fen) && !rules.isStalemate(fen)
  {
    if surrenderWinner.Some? then Surrendered(surrenderWinner.value)
    else if rules.isCheckmate(fen) then Checkmated(rules.turn(fen).Other())
    else if rules.isDraw(fen) then Drawn
    else if rules.isStalemate(fen) then Stalemated
    else Ongoing
  }

  /** chess.js counts a stalemate as a draw: `isDraw()` holds in every stalemated position. */
  ghost predicate DrawCoversStalemate(rules: Rules) {
    forall fen :: rules.isStalemate(fen) ==> rules.isDraw(fen)
  }

  /** With chess.js's draw rule the stalemate branch of `Decide` is never reached. */
  lemma StalemateNeverShown(surrenderWinner: Option<Color>, rules: Rules, fen: string)
    requires DrawCoversStalemate(rules)
    ensures Decide(surrenderWinner, rules, fen) != Stalemated
  {
    assert rules.isStalemate(fen) ==> rules.isDraw(fen);
  }

  /** The selection with the stalemate test ahead of the general draw test. */
  function DecideIntended(surrenderWinner: Option<Color>, rules: Rules, fen: string): (v: Verdict)
    ensures surrenderWinner.Some? ==> v == Surrendered(surrenderWinner.value)
    ensures surrenderWinner.None? && rules.isCheckmate(fen) ==> v == Checkmated(rules.turn(fen).Other())
    ensures surrenderWinner.None? && !rules.isCheckmate(fen) && rules.isStalemate(fen) ==> v == Stalemated
    ensures v == Ongoing <==>
              surrenderWinner.None? && !rules.isCheckmate(fen) && !rules.isDraw(fen) && !rules.isStalemate(fen)
  {
    if surrenderWinner.Some? then Surrendered(surrenderWinner.value)
    else if rules.isCheckmate(fen) then Checkmated(rules.turn(fen).Other())
    else if rules.isStalemate(fen) then Stalemated
    else if rules.isDraw(fen) then Drawn
    else Ongoing
  }

  /** The two selections differ only where a stalemate is reported as a plain draw. */
  lemma IntendedDiffersOnlyOnStalemate(surrenderWinner: Option<Color>, rules: Rules, fen: string)
    ensures Decide(surrenderWinner, rules, fen) != DecideIntended(surrenderWinner, rules, fen) <==>
              surrenderWinner.None? && !rules.isCheckmate(fen) && rules.isStalemate(fen) && rules.isDraw(fen)
  {
  }

  function ColorName(c: Color): string {
    if c == White then "White" else "Black"
  }

  /** `gameOverMessage` for a verdict. */
  function Message(v: Verdict): (msg: string)
    ensures msg == "" <==> v == Ongoing
  {
    match v
    case Surrendered(w) => ColorName(w) + " wins by surrender!"
    case Checkmated(w) => "Checkmate! " + ColorName(w) + " wins!"
    case Drawn => "Draw!"
    case Stalemated => "Stalemate!"
    case Ongoing => ""
  }

  /** Reads the verdict back from the banner text. */
  function ReadMessage(msg: string): Verdict {
    if msg == "" then Ongoing
    else if msg == "Draw!" then Drawn
    else if msg == "Stalemate!" then Stalemated
    else if msg[0] == 'C' then Checkmated(if |msg| > 11 && msg[11] == 'W' then White else Black)
    else Surrendered(if msg[0] == 'W' then White else Black)
  }

  /** The banner text tells the verdict: reading a message back gives the verdict it was made from. */
  lemma MessageRoundTrip(v: Verdict)
    ensures ReadMessage(Message(v)) == v
  {
    var m := Message(v);
    match v
    case Surrendered(w) =>
      assert m[0] == ColorName(w)[0];
      assert m != "Draw!" && m != "Stalemate!" by { assert |m| > 10; }
    case Checkmated(w) =>
      assert m[0] == 'C' && m[11] == ColorName(w)[0];
      assert m != "Draw!" && m != "Stalemate!" by { assert |m| > 11; }
    case Drawn =>
    case Stalemated =>
    case Ongoing =>
  }

  /**
   * The banner the board shows, built on `DecideIntended`: empty exactly while the game goes on,
   * and "Stalemate!" exactly in a stalemate nobody surrendered.
   */
  function GameOverMessage(surrenderWinner: Option<Color>, rules: Rules, fen: string): (msg: string)
    ensures msg == "" <==>
              surrenderWinner.None? && !rules.isCheckmate(fen) && !rules.isDraw(fen) && !rules.isStalemate(fen)
    ensures msg == "Stalemate!" <==> surrenderWinner.None? && !rules.isCheckmate(fen) && rules.isStalemate(fen)
  {
    var v := DecideIntended(surrenderWinner, rules, fen);
    MessageRoundTrip(v);
    Message(v)
  }

  /** `isGameOver`: chess.js's verdict or a surrender. */
  function IsGameOver(surrenderWinner: Option<Color>, rules: Rules, fen: string): bool {
    rules.isGameOver(fen) || surrenderWinner.Some?
  }

  /** The shading of the square at row `r`, column `c` of the board (`isBlack`). */
  function IsDarkSquare(r: nat, c: nat): (dark: bool)
    requires r < 8 && c < 8
    ensures var s := SquareName(r, c);
              dark <==> ((s[0] as int - 'a' as int) + (s[1] as int - '0' as int)) % 2 == 1
  {
    (r + c) % 2 == 1
  }

  /** Dark and light alternate along every rank and every file; a1 is dark and h1 light. */
  lemma ShadingAlternates(r: nat, c: nat)
    requires r < 7 && c < 7
    ensures IsDarkSquare(r, c) != IsDarkSquare(r + 1, c) && IsDarkSquare(r, c) != IsDarkSquare(r, c + 1)
    ensures IsDarkSquare(7, 0) && !IsDarkSquare(7, 7)
  {
  }

  /** The component's state cells, as one value. */
  datatype Snapshot = Snapshot(
    fen: string,
    history: seq<Move>,
    selected: Option<string>,
    legalMoves: seq<Move>,
    pendingPromotion: Option<(string, string)>,
    playerColor: Option<Role>,
    socketOpen: bool,
    sent: seq<MoveRequest>)

  /** A selection always comes with its legal moves: no moves are loaded while nothing is selected. */
  predicate Coherent(s: Snapshot) {
    s.selected.None? ==> s.legalMoves == []
  }

  /** The clicked square holds a piece of the side to move. */
  predicate OwnPiece(s: Snapshot, square: string, rules: Rules) {
    var piece := rules.pieceAt(s.fen, square);
    piece.Some? && piece.value.color == rules.turn(s.fen)
  }

  /** The clicking player holds the seat whose turn it is. */
  predicate MayMove(s: Snapshot, rules: Rules) {
    s.playerColor.Some? && s.playerColor.value.Seat? && rules.turn(s.fen) == s.playerColor.value.color
  }

  /** `executeMove` on a snapshot: a move chess.js accepts is played on a fresh game and sent. */
  function Moved(s: Snapshot, req: MoveRequest, rules: Rules): Snapshot {
    match rules.tryMove(s.fen, req)
    case None => s
    case Some(m) =>
      s.(fen := rules.play(s.fen, m), history := [m], selected := None, legalMoves := [],
         pendingPromotion := None, sent := if s.socketOpen then s.sent + [req] else s.sent)
  }

  /** Selecting `square` and loading its legal moves. */
  function Selected(s: Snapshot, square: string, rules: Rules): Snapshot {
    s.(selected := Some(square), legalMoves := rules.movesFrom(s.fen, square))
  }

  /** `handleSquareClick` on a snapshot. */
  function Clicked(s: Snapshot, square: string, rules: Rules): Snapshot {
    if !MayMove(s, rules) then s
    else if s.selected.Some? then
      if s.selected.value == square then s.(selected := None, legalMoves := [])
      else
        var toSquare := MovesTo(s.legalMoves, square);
        if |toSquare| > 0 then
          if toSquare[0].promotion.Some? then s.(pendingPromotion := Some((s.selected.value, square)))
          else Moved(s, MoveRequest(s.selected.value, square, None), rules)
        else if OwnPiece(s, square, rules) then Selected(s, square, rules)
        else s.(selected := None, legalMoves := [])
    else if OwnPiece(s, square, rules) then Selected(s, square, rules)
    else s
  }

  /** A move is sent exactly when chess.js accepts it and the socket is open; only the fen, history,
      selection, prompt and outbox change. */
  lemma MovedSends(s: Snapshot, req: MoveRequest, rules: Rules)
    ensures var t := Moved(s, req, rules);
              t.sent == s.sent + (if rules.tryMove(s.fen, req).Some? && s.socketOpen then [req] else [])
    ensures var t := Moved(s, req, rules);
              t.playerColor == s.playerColor && t.socketOpen == s.socketOpen
    ensures rules.tryMove(s.fen, req).None? ==> Moved(s, req, rules) == s
    ensures rules.tryMove(s.fen, req).Some? ==>
              var t := Moved(s, req, rules);
              t.fen == rules.play(s.fen, rules.tryMove(s.fen, req).value) &&
              t.selected.None? && t.legalMoves == [] && t.pendingPromotion.None?
  {
  }

  /** Because the move is played on a fresh game, the trays afterwards show that move's capture only. */
  lemma TraysAfterLocalMove(s: Snapshot, req: MoveRequest, rules: Rules, mover: Color)
    requires rules.tryMove(s.fen, req).Some?
    ensures var m := rules.tryMove(s.fen, req).value;
              CapturedBy(Moved(s, req, rules).history, mover) ==
              (if m.color == mover && m.captured.Some? then [Piece(m.captured.value, mover.Other())] else [])
  {
    var m := rules.tryMove(s.fen, req).value;
    assert Moved(s, req, rules).history == [m];
    assert [m][1..] == [];
  }

  /** A click by a spectator, by a player without a seat or out of turn changes nothing. */
  lemma ClickOutOfTurn(s: Snapshot, square: string, rules: Rules)
    requires !MayMove(s, rules)
    ensures Clicked(s, square, rules) == s
  {
  }

  /** Clicking the selected square again clears the selection and the loaded moves, nothing else. */
  lemma ReclickClears(s: Snapshot, square: string, rules: Rules)
    requires MayMove(s, rules) && s.selected == Some(square)
    ensures Clicked(s, square, rules) == s.(selected := None, legalMoves := [])
  {
  }

  /** Clicking a legal destination prompts for a piece when that move promotes, and plays it otherwise. */
  lemma ClickDestination(s: Snapshot, square: string, rules: Rules)
    requires MayMove(s, rules) && s.selected.Some? && s.selected.value != square
    requires IsSquareLegalMove(s.legalMoves, square)
    ensures var first := MovesTo(s.legalMoves, square)[0];
              Clicked(s, square, rules) ==
              if first.promotion.Some? then s.(pendingPromotion := Some((s.selected.value, square)))
              else Moved(s, MoveRequest(s.selected.value, square, None), rules)
  {
    MarkerMatchesClick(s.legalMoves, square);
  }

  /** Clicking a non-destination selects it when it holds a piece of the side to move, and clears
      the selection otherwise (with no selection, a click on anything else does nothing). */
  lemma ClickElsewhere(s: Snapshot, square: string, rules: Rules)
    requires MayMove(s, rules) && s.selected != Some(square)
    requires s.selected.Some? ==> !IsSquareLegalMove(s.legalMoves, square)
    ensures OwnPiece(s, square, rules) ==> Clicked(s, square, rules) == Selected(s, square, rules)
    ensures !OwnPiece(s, square, rules) ==>
              Clicked(s, square, rules) == if s.selected.Some? then s.(selected := None, legalMoves := []) else s
  {
    MarkerMatchesClick(s.legalMoves, square);
  }

  /** Every click keeps a selection and its move list together. */
  lemma ClickCoherent(s: Snapshot, square: string, rules: Rules)
    requires Coherent(s)
    ensures Coherent(Clicked(s, square, rules))
  {
  }

  /** The promotion dialog's choice: the pending move is played with the chosen piece. */
  function Promoted(s: Snapshot, kind: Kind, rules: Rules): Snapshot {
    match s.pendingPromotion
    case None => s
    case Some(p) => Moved(s, MoveRequest(p.0, p.1, Some(kind)), rules)
  }

  /** The only promotion a dialog choice can send is the pending move with the chosen piece. */
  lemma PromotedSends(s: Snapshot, kind: Kind, rules: Rules)
    ensures var t := Promoted(s, kind, rules);
              t.sent == s.sent || (s.pendingPromotion.Some? &&
                                  t.sent == s.sent + [MoveRequest(s.pendingPromotion.value.0, s.pendingPromotion.value.1, Some(kind))])
    ensures Coherent(s) ==> Coherent(Promoted(s, kind, rules))
  {
  }

  /** The component, with its state cells as fields. */
  class BoardState {
    var fen: string
    var history: seq<Move>
    var selected: Option<string>
    var legalMoves: seq<Move>
    var pendingPromotion: Option<(string, string)>
    var playerColor: Option<Role>
    var socketOpen: bool
    var sent: seq<MoveRequest>

    function View(): Snapshot
      reads this
    {
      Snapshot(fen, history, selected, legalMoves, pendingPromotion, playerColor, socketOpen, sent)
    }

    /** The initial state cells: a new game, nothing selected, no seat, no message sent. */
    constructor ()
      ensures View() == Snapshot(InitialFen, [], None, [], None, None, false, [])
    {
      fen, history := InitialFen, [];
      selected, legalMoves, pendingPromotion := None, [], None;
      playerColor, socketOpen, sent := None, false, [];
    }

    /** `executeMove`: chess.js throwing on an illegal request leaves every cell as it was. */
    method ExecuteMove(req: MoveRequest, rules: Rules)
      modifies this
      ensures View() == Moved(old(View()), req, rules)
    {
      var result := rules.tryMove(fen, req);
      if result.Some? {
        fen := rules.play(fen, result.value);
        history := [result.value];
        selected := None;
        legalMoves := [];
        pendingPromotion := None;
        if socketOpen {
          sent := sent + [req];
        }
      }
    }

    /** `handleSquareClick`. */
    method HandleSquareClick(square: string, rules: Rules)
      modifies this
      ensures View() == Clicked(old(View()), square, rules)
    {
      if playerColor.None? || playerColor.value == Spectator {
        return;
      }
      if rules.turn(fen) != playerColor.value.color {
        return;
      }
      if selected.Some? {
        if selected.value == square {
          selected := None;
          legalMoves := [];
          return;
        }
        var toSquare := MovesTo(legalMoves, square);
        if |toSquare| > 0 {
          if toSquare[0].promotion.Some? {
            pendingPromotion := Some((selected.value, square));
          } else {
            ExecuteMove(MoveRequest(selected.value, square, None), rules);
          }
        } else {
          var piece := rules.pieceAt(fen, square);
          if piece.Some? && piece.value.color == rules.turn(fen) {
            selected := Some(square);
            legalMoves := rules.movesFrom(fen, square);
          } else {
            selected := None;
            legalMoves := [];
          }
        }
      } else {
        var piece := rules.pieceAt(fen, square);
        if piece.Some? && piece.value.color == rules.turn(fen) {
          selected := Some(square);
          legalMoves := rules.movesFrom(fen, square);
        }
      }
    }

    /** The promotion dialog's `onSelect`. */
    method ChoosePromotion(kind: Kind, rules: Rules)
      modifies this
      ensures View() == Promoted(old(View()), kind, rules)
    {
      if pendingPromotion.Some? {
        ExecuteMove(MoveRequest(pendingPromotion.value.0, pendingPromotion.value.1, Some(kind)), rules);
      }
    }

    /** The promotion dialog's `onCancel`: the prompt closes and nothing else changes. */
    method CancelPromotion()
      modifies this
      ensures View() == old(View()).(pendingPromotion := None)
    {
      pendingPromotion := None;
    }
  }
}
