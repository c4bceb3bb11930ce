/**
 * The piece tracker of AnimatedPiecesManager.tsx: one record per piece the 3D scene shows,
 * kept across positions so that a piece keeps its identity while it glides to a new square,
 * and marked captured (with the piece that took it) when it disappears from the board.
 */
module AnimatedPieces {
  import opened Wrappers
  import opened Text
  import opened Chess

  // ---------------------------------------------------------------------------------------
  // Squares and grid positions

  /** The cell of `chess.board()` a square name denotes: row 0 is rank 8, column 0 is file a. */
  function RowOf(square: string): (r: nat)
    requires IsSquare(square)
    ensures r < 8
  {
    8 - DigitValue(square[1])
  }

  function FileOf(square: string): (f: nat)
    requires IsSquare(square)
    ensures f < 8
  {
    square[0] as int - 'a' as int
  }

  /** Every square name is the name of its own cell. */
  lemma NameOfCell(square: string)
    requires IsSquare(square)
    ensures square == SquareName(RowOf(square), FileOf(square))
  {
    var n := SquareName(RowOf(square), FileOf(square));
    assert n[0] == square[0] && n[1] == square[1];
  }

  /** The cell a name denotes is the cell it was made from. */
  lemma CellOfName(r: nat, f: nat)
    requires r < 8 && f < 8
    ensures RowOf(SquareName(r, f)) == r && FileOf(SquareName(r, f)) == f
  {
  }

  /** A grid position of the scene: x along the files, z along the ranks, y the lift off the board. */
  datatype Pos = Pos(x: int, y: real, z: int)

  /** `getBoardPos`: file a..h gives x 0..7, rank 1..8 gives z 7..0, and pieces float at y = 0.1. */
  function BoardPos(square: string): (p: Pos)
    requires IsSquare(square)
    ensures 0 <= p.x < 8 && 0 <= p.z < 8 && p.y == 0.1
    ensures p.x == square[0] as int - 'a' as int
    ensures p.z == 8 - (square[1] as int - '0' as int)
  {
    Pos(FileOf(square), 0.1, RowOf(square))
  }

  /**
   * The grid position of a square is the cell `chess.board()` shows it in, so the scene's
   * squares and the tracked pieces line up, and distinct squares get distinct positions.
   */
  lemma {:induction false} BoardPosOfCell(r: nat, f: nat, square: string)
    requires r < 8 && f < 8 && IsSquare(square)
    ensures BoardPos(square) == Pos(f, 0.1, r) <==> square == SquareName(r, f)
  {
    if BoardPos(square) == Pos(f, 0.1, r) {
      NameOfCell(square);
    }
    if square == SquareName(r, f) {
      CellOfName(r, f);
    }
  }

  /** The piece on a square of a board. */
  function At(board: Board, square: string): Option<Piece>
    requires IsBoard(board) && IsSquare(square)
  {
    board[RowOf(square)][FileOf(square)]
  }

  // ---------------------------------------------------------------------------------------
  // Piece identities

  /**
   * The id `piece_<time>_<n>_<color>_<type>` given to a piece when the list is rebuilt:
   * the clock reading, the running count, and the colour and kind the piece had then.
   */
  datatype PieceId = PieceId(stamp: nat, index: nat, color: Color, born: Kind)

  function IdText(id: PieceId): string {
    "piece_" + Decimal(id.stamp) + "_" + Decimal(id.index) + "_" + id.color.Code() + "_" + id.born.Code()
  }

  /** The `n` characters of `s` from index `i`. */
  function Window(s: string, i: nat, n: nat): string
    requires i + n <= |s|
  {
    s[i..i + n]
  }

  /** `s.includes(t)`. */
  predicate Includes(s: string, t: string) {
    exists i: nat :: i + |t| <= |s| && Window(s, i, |t|) == t
  }

  /** `id.includes('_p')`: the test the source uses to recognise a piece that started as a pawn. */
  predicate Pawnborn(id: PieceId) {
    Includes(IdText(id), "_p")
  }

  predicate NoP(s: string) {
    forall j :: 0 <= j < |s| ==> s[j] != 'p'
  }

  lemma NoPAppend(a: string, b: string)
    requires NoP(a) && NoP(b)
    ensures NoP(a + b)
  {
    forall j | 0 <= j < |a + b|
      ensures (a + b)[j] != 'p'
    {
      if j >= |a| {
        assert (a + b)[j] == b[j - |a|];
      }
    }
  }

  /** An id between its leading `p` and its kind code. */
  function Middle(id: PieceId): string {
    "iece_" + Decimal(id.stamp) + "_" + Decimal(id.index) + "_" + id.color.Code() + "_"
  }

  lemma IdShape(id: PieceId)
    ensures IdText(id) == "p" + Middle(id) + id.born.Code()
  {
  }

  /** Between the leading `p` of "piece" and the kind code at the end, an id has no `p`. */
  lemma MiddleNoP(id: PieceId)
    ensures NoP(Middle(id)) && |Middle(id)| > 0 && Middle(id)[|Middle(id)| - 1] == '_'
  {
    var d1, d2, c := Decimal(id.stamp), Decimal(id.index), id.color.Code();
    assert NoP(d1) && NoP(d2);
    NoPAppend("iece_", d1);
    NoPAppend("iece_" + d1, "_");
    NoPAppend("iece_" + d1 + "_", d2);
    NoPAppend("iece_" + d1 + "_" + d2, "_");
    NoPAppend("iece_" + d1 + "_" + d2 + "_", c);
    NoPAppend("iece_" + d1 + "_" + d2 + "_" + c, "_");
  }

  /** In `p<m><c>` where `m` has no `p` and ends in `_`, the only place `_p` can occur is at the end. */
  lemma {:induction false} UnderscoreP(m: string, c: string)
    requires NoP(m) && |m| > 0 && m[|m| - 1] == '_' && |c| == 1
    ensures Includes("p" + m + c, "_p") <==> c == "p"
  {
    var s := "p" + m + c;
    if Includes(s, "_p") {
      var i: nat :| i + 2 <= |s| && Window(s, i, 2) == "_p";
      assert s[i] == '_' && s[i + 1] == 'p';
      assert i + 1 == |s| - 1;
      assert s[|s| - 1] == c[0];
    }
    if c == "p" {
      assert Window(s, |s| - 2, 2) == "_p";
    }
  }

  /** The `_p` test holds exactly for the pieces that were pawns when their id was made. */
  lemma PawnbornIff(id: PieceId)
    ensures Pawnborn(id) <==> id.born == Pawn
  {
    IdShape(id);
    MiddleNoP(id);
    UnderscoreP(Middle(id), id.born.Code());
  }

  // ---------------------------------------------------------------------------------------
  // The tracked list

  /** An `AnimatedPieceData`: its id, what it is now, where it stands, and how it left the board. */
  datatype Tracked = Tracked(id: PieceId, kind: Kind, color: Color, square: string, captured: bool,
                             attacker: Option<Kind>)

  /** A promoted pawn, drawn as its evolved form. */
  predicate Evolved(p: Tracked) {
    Pawnborn(p.id) && p.kind == Queen
  }

  /** The occupied cells of a board among its first `n` cells, in reading order (rank 8 first, file a first). */
  function CellsUpTo(board: Board, n: nat): (cells: seq<(nat, nat)>)
    requires IsBoard(board) && n <= 64
    ensures forall k :: 0 <= k < |cells| ==> cells[k].0 < 8 && cells[k].1 < 8
                                             && board[cells[k].0][cells[k].1].Some?
                                             && 8 * cells[k].0 + cells[k].1 < n
  {
    if n == 0 then []
    else
      var c := ((n - 1) / 8, (n - 1) % 8);
      CellsUpTo(board, n - 1) + (if board[c.0][c.1].Some? then [c] else [])
  }

  function Cells(board: Board): seq<(nat, nat)>
    requires IsBoard(board)
  {
    CellsUpTo(board, 64)
  }

  /** Cells are listed in strictly increasing reading order, and every occupied cell is listed. */
  lemma {:induction false} CellsUpToExact(board: Board, n: nat)
    requires IsBoard(board) && n <= 64
    ensures forall k, l :: 0 <= k < l < |CellsUpTo(board, n)| ==>
              8 * CellsUpTo(board, n)[k].0 + CellsUpTo(board, n)[k].1 < 8 * CellsUpTo(board, n)[l].0 + CellsUpTo(board, n)[l].1
    ensures forall r, f :: 0 <= r < 8 && 0 <= f < 8 && 8 * r + f < n && board[r][f].Some? ==>
              (r, f) in CellsUpTo(board, n)
  {
    if n > 0 {
      CellsUpToExact(board, n - 1);
      var c := ((n - 1) / 8, (n - 1) % 8);
      var init := CellsUpTo(board, n - 1);
      var cells := CellsUpTo(board, n);
      assert cells == init + (if board[c.0][c.1].Some? then [c] else []);
      forall r, f | 0 <= r < 8 && 0 <= f < 8 && 8 * r + f < n && board[r][f].Some?
        ensures (r, f) in cells
      {
        if 8 * r + f == n - 1 {
          assert (r, f) == c;
        } else {
          assert (r, f) in init;
        }
      }
    }
  }

  /** A Map with distinct keys, as the list of its entries in insertion order. */
  type Entries = seq<(string, Piece)>

  /** `map.get(key)`. */
  function Get(entries: Entries, key: string): Option<Piece> {
    if entries == [] then None
    else if entries[0].0 == key then Some(entries[0].1)
    else Get(entries[1..], key)
  }

  /** A get finds a value exactly when the key has an entry, and the value is that entry's. */
  lemma {:induction false} GetFound(entries: Entries, key: string)
    ensures Get(entries, key).Some? <==> exists k :: 0 <= k < |entries| && entries[k].0 == key
    ensures Get(entries, key).Some? ==> exists k :: 0 <= k < |entries| && entries[k] == (key, Get(entries, key).value)
  {
    if entries != [] && entries[0].0 != key {
      GetFound(entries[1..], key);
      assert forall k :: 0 <= k < |entries[1..]| ==> entries[1..][k] == entries[k + 1];
      if exists k :: 0 <= k < |entries| && entries[k].0 == key {
        var k :| 0 <= k < |entries| && entries[k].0 == key;
        assert entries[1..][k - 1].0 == key;
      }
    }
  }

  /** A get past a key that is not the one looked up. */
  lemma {:induction false} GetSnoc(entries: Entries, e: (string, Piece), key: string)
    ensures Get(entries + [e], key) == if Get(entries, key).Some? then Get(entries, key)
                                       else if e.0 == key then Some(e.1) else None
  {
    if entries != [] {
      assert (entries + [e])[1..] == entries[1..] + [e];
      if entries[0].0 != key {
        GetSnoc(entries[1..], e, key);
      }
    }
  }

  /** The entries for a list of occupied cells: each square's name with its piece. */
  function EntriesOf(board: Board, cells: seq<(nat, nat)>): (occ: Entries)
    requires IsBoard(board)
    requires forall k :: 0 <= k < |cells| ==> cells[k].0 < 8 && cells[k].1 < 8 && board[cells[k].0][cells[k].1].Some?
    ensures |occ| == |cells|
    ensures forall k :: 0 <= k < |cells| ==>
              occ[k] == (SquareName(cells[k].0, cells[k].1), board[cells[k].0][cells[k].1].value)
  {
    seq(|cells|, k requires 0 <= k < |cells| => (SquareName(cells[k].0, cells[k].1), board[cells[k].0][cells[k].1].value))
  }

  /** The `squareOccupancy` Map of a board: each occupied square with its piece, in reading order. */
  function Occupancy(board: Board): Entries
    requires IsBoard(board)
  {
    EntriesOf(board, Cells(board))
  }

  /** Each key of the Map appears once. */
  predicate DistinctKeys(occ: Entries) {
    forall k, l :: 0 <= k < l < |occ| ==> occ[k].0 != occ[l].0
  }

  /** The Map holds each occupied square once. */
  lemma OccupancyDistinct(board: Board)
    requires IsBoard(board)
    ensures DistinctKeys(Occupancy(board))
  {
    var cells := Cells(board);
    var occ := Occupancy(board);
    CellsUpToExact(board, 64);
    forall k, l | 0 <= k < l < |occ|
      ensures occ[k].0 != occ[l].0
    {
      if occ[k].0 == occ[l].0 {
        SquareNameInjective(cells[k].0, cells[k].1, cells[l].0, cells[l].1);
      }
    }
  }

  /** Looking a square up in the Map gives the board's piece there; anything else is absent. */
  lemma OccupancyGet(board: Board, sq: string)
    requires IsBoard(board)
    ensures Get(Occupancy(board), sq) == if IsSquare(sq) then At(board, sq) else None
  {
    var cells := Cells(board);
    var occ := Occupancy(board);
    GetFound(occ, sq);
    if Get(occ, sq).Some? {
      var k :| 0 <= k < |occ| && occ[k] == (sq, Get(occ, sq).value);
      CellOfName(cells[k].0, cells[k].1);
    } else if IsSquare(sq) && At(board, sq).Some? {
      CellsUpToExact(board, 64);
      NameOfCell(sq);
      assert false;
    }
  }

  /** With distinct keys, each entry is what a get of its key returns. */
  lemma GetEntry(occ: Entries, k: nat)
    requires DistinctKeys(occ) && k < |occ|
    ensures Get(occ, occ[k].0) == Some(occ[k].1)
  {
    var r := Get(occ, occ[k].0);
    GetFound(occ, occ[k].0);
    var l :| 0 <= l < |occ| && occ[l] == (occ[k].0, r.value);
    assert l == k;
  }

  // ---------------------------------------------------------------------------------------
  // Rebuilding the list

  /** The record made for the `i`-th occupied cell when the list is rebuilt at clock reading `stamp`. */
  function Spawned(board: Board, c: (nat, nat), stamp: nat, i: nat): Tracked
    requires IsBoard(board) && c.0 < 8 && c.1 < 8 && board[c.0][c.1].Some?
  {
    var p := board[c.0][c.1].value;
    Tracked(PieceId(stamp, i, p.color, p.kind), p.kind, p.color, SquareName(c.0, c.1), false, None)
  }

  function SpawnOf(board: Board, cells: seq<(nat, nat)>, stamp: nat): (r: seq<Tracked>)
    requires IsBoard(board)
    requires forall k :: 0 <= k < |cells| ==> cells[k].0 < 8 && cells[k].1 < 8 && board[cells[k].0][cells[k].1].Some?
    ensures |r| == |cells|
    ensures forall i :: 0 <= i < |cells| ==> r[i] == Spawned(board, cells[i], stamp, i)
  {
    seq(|cells|, i requires 0 <= i < |cells| => Spawned(board, cells[i], stamp, i))
  }

  /** The list built from scratch: one fresh record per occupied square, in reading order. */
  function Spawn(board: Board, stamp: nat): seq<Tracked>
    requires IsBoard(board)
  {
    SpawnOf(board, Cells(board), stamp)
  }

  /** Each record of a rebuilt list is fresh and shows the piece on its square. */
  lemma SpawnShowsBoard(board: Board, stamp: nat)
    requires IsBoard(board)
    ensures var r := Spawn(board, stamp);
            forall i :: 0 <= i < |r| ==>
              && IsSquare(r[i].square) && At(board, r[i].square) == Some(Piece(r[i].kind, r[i].color))
              && !r[i].captured && r[i].attacker.None?
              && r[i].id == PieceId(stamp, i, r[i].color, r[i].kind)
  {
    var r := Spawn(board, stamp);
    var cells := Cells(board);
    forall i | 0 <= i < |r|
      ensures IsSquare(r[i].square) && At(board, r[i].square) == Some(Piece(r[i].kind, r[i].color))
    {
      CellOfName(cells[i].0, cells[i].1);
    }
  }

  /** A rebuilt list has a record on every occupied square. */
  lemma SpawnCoversBoard(board: Board, stamp: nat)
    requires IsBoard(board)
    ensures var r := Spawn(board, stamp);
            forall sq :: IsSquare(sq) && At(board, sq).Some? ==> exists i :: 0 <= i < |r| && r[i].square == sq
  {
    var r := Spawn(board, stamp);
    var cells := Cells(board);
    CellsUpToExact(board, 64);
    forall sq | IsSquare(sq) && At(board, sq).Some?
      ensures exists i :: 0 <= i < |r| && r[i].square == sq
    {
      NameOfCell(sq);
      var i :| 0 <= i < |cells| && cells[i] == (RowOf(sq), FileOf(sq));
      assert r[i].square == sq;
    }
  }

  /** No two records of a rebuilt list share a square. */
  lemma SpawnDistinct(board: Board, stamp: nat)
    requires IsBoard(board)
    ensures var r := Spawn(board, stamp);
            forall i, j :: 0 <= i < j < |r| ==> r[i].square != r[j].square
  {
    var r := Spawn(board, stamp);
    var cells := Cells(board);
    CellsUpToExact(board, 64);
    forall i, j | 0 <= i < j < |r|
      ensures r[i].square != r[j].square
    {
      if r[i].square == r[j].square {
        SquareNameInjective(cells[i].0, cells[i].1, cells[j].0, cells[j].1);
      }
    }
  }

  // ---------------------------------------------------------------------------------------
  // Moving displaced pieces (the first pass, over the Map's entries)

  /** The three `updatedList.find` tests of the reconciler. */
  datatype Test =
    | StandsOn(square: string, piece: Piece)      // the piece is already tracked on that square
    | Displaced(piece: Piece, occ: Entries)       // a tracked piece that could have moved to a square holding `piece`
    | Attacker(square: string, piece: Piece)      // the record of the piece now on a square

  /** A tracked piece of `piece`'s colour that `piece` can be: the same kind, or a pawn that became a queen. */
  predicate CanBecome(p: Tracked, piece: Piece) {
    p.color == piece.color && (p.kind == piece.kind || (p.kind == Pawn && piece.kind == Queen))
  }

  /** The board no longer shows `p` on its tracked square (nor the queen a pawn there became). */
  predicate Gone(p: Tracked, occ: Entries) {
    match Get(occ, p.square)
    case None => true
    case Some(now) => now.color != p.color || (now.kind != p.kind && !(now.kind == Queen && p.kind == Pawn))
  }

  predicate Passes(t: Test, p: Tracked) {
    match t
    case StandsOn(sq, piece) => !p.captured && p.square == sq && p.kind == piece.kind && p.color == piece.color
    case Displaced(piece, occ) => !p.captured && CanBecome(p, piece) && Gone(p, occ)
    case Attacker(sq, piece) => p.square == sq && p.kind == piece.kind && p.color == piece.color
  }

  /** `list.find(test)`, as the index of the first record passing the test. */
  function Find(list: seq<Tracked>, t: Test): (r: Option<nat>)
    ensures r.Some? ==> r.value < |list| && Passes(t, list[r.value])
                        && forall j :: 0 <= j < r.value ==> !Passes(t, list[j])
    ensures r.None? ==> forall j :: 0 <= j < |list| ==> !Passes(t, list[j])
  {
    if list == [] then None
    else if Passes(t, list[0]) then Some(0)
    else
      match Find(list[1..], t)
      case None => None
      case Some(k) => Some(k + 1)
  }

  /** A record moved to `square`, which holds `piece`: a pawn reaching a queen's square becomes a queen. */
  function MovedTo(p: Tracked, square: string, piece: Piece): Tracked {
    p.(square := square, kind := if p.kind == Pawn && piece.kind == Queen then Queen else p.kind)
  }

  /** One entry of the Map visited: nothing if its piece is already tracked there, else the first displaced candidate moves there. */
  function Step(list: seq<Tracked>, square: string, piece: Piece, occ: Entries): (r: seq<Tracked>)
    ensures |r| == |list|
  {
    if Find(list, StandsOn(square, piece)).Some? then list
    else
      match Find(list, Displaced(piece, occ))
      case None => list
      case Some(j) => list[j := MovedTo(list[j], square, piece)]
  }

  /** The list after the first `k` entries of the Map were visited. */
  function Relocate(list: seq<Tracked>, occ: Entries, k: nat): (r: seq<Tracked>)
    requires k <= |occ|
    ensures |r| == |list|
  {
    if k == 0 then list else Step(Relocate(list, occ, k - 1), occ[k - 1].0, occ[k - 1].1, occ)
  }

  /** `p` stands, uncaptured, on a square that holds exactly its kind and colour. */
  predicate Settled(p: Tracked, occ: Entries) {
    !p.captured && Get(occ, p.square) == Some(Piece(p.kind, p.color))
  }

  /**
   * What the first pass may do to a record `a` to give `b`: id, colour, capture flag and
   * attacker kept; a captured or settled record untouched; a kind changes only from pawn to
   * queen; and a record that moved (or changed kind) stands on a square holding it.
   */
  predicate ConservedAt(a: Tracked, b: Tracked, occ: Entries) {
    && b.id == a.id && b.color == a.color && b.captured == a.captured && b.attacker == a.attacker
    && (a.captured ==> b == a)
    && (Settled(a, occ) ==> b == a)
    && (b.kind == a.kind || (a.kind == Pawn && b.kind == Queen))
    && ((b.square == a.square && b.kind == a.kind) || Get(occ, b.square) == Some(Piece(b.kind, b.color)))
  }

  /** The first pass keeps the list's length and conserves each record. */
  predicate Conserved(a: seq<Tracked>, b: seq<Tracked>, occ: Entries) {
    |a| == |b| && forall i :: 0 <= i < |a| ==> ConservedAt(a[i], b[i], occ)
  }

  lemma ConservedTrans(a: seq<Tracked>, b: seq<Tracked>, c: seq<Tracked>, occ: Entries)
    requires Conserved(a, b, occ) && Conserved(b, c, occ)
    ensures Conserved(a, c, occ)
  {
    forall i | 0 <= i < |a|
      ensures ConservedAt(a[i], c[i], occ)
    {
      assert ConservedAt(a[i], b[i], occ) && ConservedAt(b[i], c[i], occ);
    }
  }

  /** Visiting one more entry of the Map conserves the list. */
  lemma StepConserves(list: seq<Tracked>, occ: Entries, k: nat)
    requires DistinctKeys(occ) && 0 < k <= |occ|
    ensures Conserved(Relocate(list, occ, k - 1), Relocate(list, occ, k), occ)
  {
    GetEntry(occ, k - 1);
  }

  /** The whole first pass conserves the list. */
  lemma {:induction false} RelocateConserves(list: seq<Tracked>, occ: Entries, k: nat)
    requires DistinctKeys(occ) && k <= |occ|
    ensures Conserved(list, Relocate(list, occ, k), occ)
  {
    if k > 0 {
      RelocateConserves(list, occ, k - 1);
      StepConserves(list, occ, k);
      ConservedTrans(list, Relocate(list, occ, k - 1), Relocate(list, occ, k), occ);
    }
  }

  // ---------------------------------------------------------------------------------------
  // Marking captures (the second pass, over the list)

  /** The board still shows `p` on its square: its colour there, with its kind or, for a promoted pawn, any kind. */
  predicate StillExists(p: Tracked, occ: Entries) {
    match Get(occ, p.square)
    case None => false
    case Some(hole) => hole.color == p.color && (hole.kind == p.kind || (p.kind == Queen && Pawnborn(p.id)))
  }

  /** One record after the second pass. */
  function Swept(p: Tracked, occ: Entries): (r: Tracked)
    ensures r.id == p.id && r.kind == p.kind && r.color == p.color && r.square == p.square
  {
    if p.captured || StillExists(p, occ) then p
    else
      match Get(occ, p.square)
      case None => p.(captured := true)
      case Some(hole) => p.(captured := true, attacker := Some(hole.kind))
  }

  function Sweep(list: seq<Tracked>, occ: Entries): (r: seq<Tracked>)
    ensures |r| == |list|
    ensures forall i :: 0 <= i < |list| ==> r[i] == Swept(list[i], occ)
  {
    seq(|list|, i requires 0 <= i < |list| => Swept(list[i], occ))
  }

  /** One side of a battle: the piece as the battle scene draws it. */
  datatype Fighter = Fighter(kind: Kind, color: Color, evolved: bool)

  /** A `battleEvent` payload. */
  datatype Battle = Battle(attacker: Fighter, defender: Fighter)

  /**
   * The battle announced when `p` is found captured on a square some piece now holds; the
   * attacker counts as evolved when the first record on that square with its kind and colour is a promoted pawn.
   */
  function BattleOf(p: Tracked, list: seq<Tracked>, occ: Entries): Option<Battle> {
    if p.captured || StillExists(p, occ) then None
    else
      match Get(occ, p.square)
      case None => None
      case Some(hole) =>
        var tracker := Find(list, Attacker(p.square, hole));
        var evolved := tracker.Some? && Evolved(list[tracker.value]);
        Some(Battle(Fighter(hole.kind, hole.color, evolved), Fighter(p.kind, p.color, Evolved(p))))
  }

  /** A battle is announced for a record exactly when it is newly found captured on an occupied
      square; the record is the defender and the piece now on the square the attacker. */
  lemma BattleOfSpec(p: Tracked, list: seq<Tracked>, occ: Entries)
    ensures var r := BattleOf(p, list, occ);
              && (r.Some? <==> !p.captured && !StillExists(p, occ) && Get(occ, p.square).Some?)
              && (r.Some? ==> && r.value.defender == Fighter(p.kind, p.color, Evolved(p))
                              && Get(occ, p.square) == Some(Piece(r.value.attacker.kind, r.value.attacker.color)))
  {
  }

  /** The battles announced while the second pass visits the first `k` records, in order. */
  function Battles(list: seq<Tracked>, occ: Entries, k: nat): seq<Battle>
    requires k <= |list|
  {
    if k == 0 then [] else Battles(list, occ, k - 1) + Announced(BattleOf(list[k - 1], list, occ))
  }

  function Announced(b: Option<Battle>): seq<Battle> {
    if b.Some? then [b.value] else []
  }

  /** A battle is announced exactly for each record found captured on an occupied square. */
  lemma {:induction false} BattlesExact(list: seq<Tracked>, occ: Entries, k: nat, b: Battle)
    requires k <= |list|
    ensures b in Battles(list, occ, k) <==> exists i :: 0 <= i < k && BattleOf(list[i], list, occ) == Some(b)
  {
    if k > 0 {
      BattlesExact(list, occ, k - 1, b);
      var last := BattleOf(list[k - 1], list, occ);
      var init := Battles(list, occ, k - 1);
      assert Battles(list, occ, k) == init + Announced(last);
      if b in Battles(list, occ, k) && b !in init {
        assert b in Announced(last);
        assert BattleOf(list[k - 1], list, occ) == Some(b);
      }
      forall i | 0 <= i < k && BattleOf(list[i], list, occ) == Some(b)
        ensures b in Battles(list, occ, k)
      {
        if i < k - 1 {
          assert b in init;
        } else {
          assert b in Announced(last);
        }
      }
    }
  }

  // ---------------------------------------------------------------------------------------
  // The reconciliation as a whole

  /**
   * After an incremental reconciliation (a non-empty list, a position other than the initial
   * one) every record keeps its id and colour and its place in the list; captured records and
   * records already standing on their own piece are untouched; a kind changes only by a pawn
   * becoming a queen; a record that moved stands on a square holding its kind and colour; the
   * records left uncaptured are still shown by the board; and the records newly captured are
   * exactly those it no longer shows, each credited to the piece now on its square if any.
   */
  lemma {:induction false} IncrementalExact(current: seq<Tracked>, board: Board)
    requires IsBoard(board)
    ensures var occ := Occupancy(board);
            var next := Sweep(Relocate(current, occ, |occ|), occ);
            && |next| == |current|
            && forall i :: 0 <= i < |current| ==>
                 && next[i].id == current[i].id && next[i].color == current[i].color
                 && (current[i].captured ==> next[i] == current[i])
                 && (Settled(current[i], occ) ==> next[i] == current[i])
                 && (next[i].kind == current[i].kind || (current[i].kind == Pawn && next[i].kind == Queen))
                 && (next[i].square != current[i].square ==> Get(occ, next[i].square) == Some(Piece(next[i].kind, next[i].color)))
                 && (!next[i].captured ==> StillExists(next[i], occ))
                 && (next[i].captured && !current[i].captured ==>
                       && !StillExists(next[i], occ)
                       && (Get(occ, next[i].square).Some? ==> next[i].attacker == Some(Get(occ, next[i].square).value.kind)))
  {
    var occ := Occupancy(board);
    OccupancyDistinct(board);
    RelocateConserves(current, occ, |occ|);
  }

  /**
   * The battles of an incremental reconciliation: one, in list order, for each record newly
   * captured on a square another piece now holds, with that record as the defender and the
   * piece on the square as the attacker.
   */
  lemma IncrementalBattles(current: seq<Tracked>, board: Board, b: Battle)
    requires IsBoard(board)
    ensures var occ := Occupancy(board);
            var moved := Relocate(current, occ, |occ|);
            var next := Sweep(moved, occ);
            b in Battles(moved, occ, |moved|) <==>
              exists i :: 0 <= i < |next| && next[i].captured && !moved[i].captured
                          && Get(occ, next[i].square).Some? && BattleOf(moved[i], moved, occ) == Some(b)
  {
    var occ := Occupancy(board);
    var moved := Relocate(current, occ, |occ|);
    BattlesExact(moved, occ, |moved|, b);
  }

  /** A promoted pawn's id still carries its pawn birth, so it is drawn evolved. */
  lemma PromotedIsEvolved(current: seq<Tracked>, board: Board, i: nat)
    requires IsBoard(board) && i < |current|
    requires current[i].kind == Pawn && current[i].id.born == Pawn
    ensures var occ := Occupancy(board);
            var next := Sweep(Relocate(current, occ, |occ|), occ);
            next[i].kind == Queen ==> Evolved(next[i])
  {
    IncrementalExact(current, board);
    PawnbornIff(current[i].id);
  }

  /** Cell `(r, f)` is the one that follows the first `8 * r + f` cells. */
  lemma CellsStep(board: Board, r: nat, f: nat)
    requires IsBoard(board) && r < 8 && f < 8
    ensures CellsUpTo(board, 8 * r + f + 1)
            == CellsUpTo(board, 8 * r + f) + (if board[r][f].Some? then [(r, f)] else [])
  {
    var n := 8 * r + f + 1;
    assert (n - 1) / 8 == r && (n - 1) % 8 == f;
  }

  lemma SpawnSnoc(board: Board, cells: seq<(nat, nat)>, c: (nat, nat), stamp: nat)
    requires IsBoard(board) && c.0 < 8 && c.1 < 8 && board[c.0][c.1].Some?
    requires forall k :: 0 <= k < |cells| ==> cells[k].0 < 8 && cells[k].1 < 8 && board[cells[k].0][cells[k].1].Some?
    ensures SpawnOf(board, cells + [c], stamp) == SpawnOf(board, cells, stamp) + [Spawned(board, c, stamp, |cells|)]
  {
    assert forall k :: 0 <= k < |cells| ==> (cells + [c])[k] == cells[k];
  }

  lemma EntriesSnoc(board: Board, cells: seq<(nat, nat)>, c: (nat, nat))
    requires IsBoard(board) && c.0 < 8 && c.1 < 8 && board[c.0][c.1].Some?
    requires forall k :: 0 <= k < |cells| ==> cells[k].0 < 8 && cells[k].1 < 8 && board[cells[k].0][cells[k].1].Some?
    ensures EntriesOf(board, cells + [c]) == EntriesOf(board, cells) + [(SquareName(c.0, c.1), board[c.0][c.1].value)]
  {
    assert forall k :: 0 <= k < |cells| ==> (cells + [c])[k] == cells[k];
  }

  /** The rebuild of the list: one fresh record per occupied square, in reading order. */
  method Rebuild(board: Board, stamp: nat) returns (pieces: seq<Tracked>)
    requires IsBoard(board)
    ensures pieces == Spawn(board, stamp)
  {
    pieces := [];
    var pId := 0;
    for r := 0 to 8
      invariant pieces == SpawnOf(board, CellsUpTo(board, 8 * r), stamp) && pId == |pieces|
    {
      for f := 0 to 8
        invariant pieces == SpawnOf(board, CellsUpTo(board, 8 * r + f), stamp) && pId == |pieces|
      {
        ghost var before := CellsUpTo(board, 8 * r + f);
        CellsStep(board, r, f);
        var piece := board[r][f];
        if piece.Some? {
          SpawnSnoc(board, before, (r, f), stamp);
          pieces := pieces + [Tracked(PieceId(stamp, pId, piece.value.color, piece.value.kind), piece.value.kind,
                                      piece.value.color, SquareName(r, f), false, None)];
          pId := pId + 1;
        }
      }
    }
  }

  /** Fills the `squareOccupancy` Map from the board, in reading order. */
  method ScanBoard(board: Board) returns (occ: Entries)
    requires IsBoard(board)
    ensures occ == Occupancy(board)
  {
    occ := [];
    for r := 0 to 8
      invariant occ == EntriesOf(board, CellsUpTo(board, 8 * r))
    {
      for f := 0 to 8
        invariant occ == EntriesOf(board, CellsUpTo(board, 8 * r + f))
      {
        ghost var before := CellsUpTo(board, 8 * r + f);
        CellsStep(board, r, f);
        var piece := board[r][f];
        if piece.Some? {
          EntriesSnoc(board, before, (r, f));
          occ := occ + [(SquareName(r, f), piece.value)];
        }
      }
    }
  }

  /** The first pass: each square of the Map, in order, draws the first displaced piece that can be its occupant. */
  method MoveDisplaced(list: seq<Tracked>, occ: Entries) returns (moved: seq<Tracked>)
    ensures moved == Relocate(list, occ, |occ|)
  {
    moved := list;
    for k := 0 to |occ|
      invariant moved == Relocate(list, occ, k)
    {
      var (square, piece) := occ[k];
      if Find(moved, StandsOn(square, piece)).None? {
        var candidate := Find(moved, Displaced(piece, occ));
        if candidate.Some? {
          var j := candidate.value;
          var p := moved[j].(square := square);
          if moved[j].kind == Pawn && piece.kind == Queen {
            p := p.(kind := Queen);
          }
          moved := moved[j := p];
        }
      }
    }
  }

  /** Records that agree on square, kind and colour give the same answer to the attacker search. */
  lemma {:induction false} FindAttackerAgrees(a: seq<Tracked>, b: seq<Tracked>, square: string, piece: Piece)
    requires |a| == |b|
    requires forall j :: 0 <= j < |a| ==> a[j].square == b[j].square && a[j].kind == b[j].kind && a[j].color == b[j].color
    ensures Find(a, Attacker(square, piece)) == Find(b, Attacker(square, piece))
  {
    if a != [] {
      FindAttackerAgrees(a[1..], b[1..], square, piece);
    }
  }

  /** Two records for the same piece on the same square, captured or not. */
  predicate SameShape(a: Tracked, b: Tracked) {
    a.square == b.square && a.kind == b.kind && a.color == b.color && a.id == b.id
  }

  /** The battle for a record depends only on the squares, kinds, colours and ids of the list. */
  lemma BattleOfAgrees(p: Tracked, a: seq<Tracked>, b: seq<Tracked>, occ: Entries)
    requires |a| == |b|
    requires forall j :: 0 <= j < |a| ==> SameShape(a[j], b[j])
    ensures BattleOf(p, a, occ) == BattleOf(p, b, occ)
  {
    if Get(occ, p.square).Some? {
      FindAttackerAgrees(a, b, p.square, Get(occ, p.square).value);
    }
  }

  /** The second pass on one record: mark it captured if the board no longer shows it, and announce the battle. */
  method Judge(p: Tracked, list: seq<Tracked>, occ: Entries) returns (q: Tracked, announced: seq<Battle>)
    ensures q == Swept(p, occ)
    ensures announced == Announced(BattleOf(p, list, occ))
  {
    q, announced := p, [];
    if !p.captured {
      var hole := Get(occ, p.square);
      var stillExists := hole.Some? && hole.value.color == p.color
                         && (hole.value.kind == p.kind || (p.kind == Queen && Includes(IdText(p.id), "_p")));
      if !stillExists {
        q := q.(captured := true);
        if hole.Some? {
          q := q.(attacker := Some(hole.value.kind));
          var tracker := Find(list, Attacker(p.square, hole.value));
          var attackerEvolved := if tracker.Some? then Includes(IdText(list[tracker.value].id), "_p") && list[tracker.value].kind == Queen
                                 else false;
          var defenderEvolved := Includes(IdText(p.id), "_p") && p.kind == Queen;
          announced := [Battle(Fighter(hole.value.kind, hole.value.color, attackerEvolved),
                               Fighter(p.kind, p.color, defenderEvolved))];
        }
      }
    }
  }

  /** The second pass: each uncaptured record the board no longer shows is marked captured, announcing a battle when a piece took its square. */
  method MarkCaptured(list: seq<Tracked>, occ: Entries) returns (next: seq<Tracked>, battles: seq<Battle>)
    ensures next == Sweep(list, occ)
    ensures battles == Battles(list, occ, |list|)
  {
    next := list;
    battles := [];
    for i := 0 to |list|
      invariant |next| == |list|
      invariant forall j :: 0 <= j < i ==> next[j] == Swept(list[j], occ)
      invariant forall j :: i <= j < |list| ==> next[j] == list[j]
      invariant forall j :: 0 <= j < |list| ==> SameShape(next[j], list[j])
      invariant battles == Battles(list, occ, i)
    {
      var p := next[i];
      BattleOfAgrees(p, next, list, occ);
      var q, announced := Judge(p, next, occ);
      battles := battles + announced;
      next := next[i := q];
    }
  }

  /**
   * The `setPieces` updater: rebuild the list when it is empty or the position is the initial
   * one, or else move displaced pieces and mark vanished ones captured; the battles announced
   * on the way are returned in the order they are emitted.
   */
  method Reconcile(current: seq<Tracked>, board: Board, fen: string, stamp: nat)
    returns (next: seq<Tracked>, battles: seq<Battle>)
    requires IsBoard(board)
    ensures |current| == 0 || fen == InitialFen ==> next == Spawn(board, stamp) && battles == []
    ensures |current| != 0 && fen != InitialFen ==>
              var occ := Occupancy(board);
              var moved := Relocate(current, occ, |occ|);
              next == Sweep(moved, occ) && battles == Battles(moved, occ, |moved|)
  {
    if |current| == 0 || fen == InitialFen {
      next := Rebuild(board, stamp);
      battles := [];
      return;
    }
    var occ := ScanBoard(board);
    var moved := MoveDisplaced(current, occ);
    next, battles := MarkCaptured(moved, occ);
  }
}
