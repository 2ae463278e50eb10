/**
 * Applying and undoing moves on a position value, the record that a saved
 * game is, and the end-of-game classification the user interface performs
 * after every move.
 */
module ChessPlay {
  import opened Wrappers
  import opened ChessRules
  import opened ChessMoves
  import opened Decimal

  // ---------------------------------------------------------------------------
  // The move descriptor stored with each snapshot: "<r>,<c>-><nr>,<nc>".

  function MoveText(r: int, c: int, nr: int, nc: int): string {
    IntText(r) + "," + IntText(c) + "->" + IntText(nr) + "," + IntText(nc)
  }

  // ---------------------------------------------------------------------------
  // The steps of a move, in the order the source performs them.

  /** Zero after a pawn move or a capture, one more otherwise. */
  function HalfmoveAfter(clock: int, moving: char, target: Cell): int {
    if Lower(moving) == 'p' || target.Some? then 0 else clock + 1
  }

  /**
   * A pawn stepping onto the empty en-passant square removes the piece on the
   * square behind that target, seen from the mover, when it is on the board.
   */
  function EnPassantCapture(b: Board, ep: Option<Coord>, moving: char, nr: int, nc: int): Board
    requires InBounds(nr, nc)
  {
    if Lower(moving) == 'p' && ep.Some? && ep.value == (nr, nc) && b[nr][nc] == None then
      var capR := nr - (if IsUpper(moving) then 1 else -1);
      if InBounds(capR, nc) then Put(b, capR, nc, None) else b
    else b
  }

  /** A king moving two files takes the corner rook of its colour to the square it crossed. */
  function RookRelocation(b: Board, moving: char, c: int, nc: int): Board {
    if Lower(moving) == 'k' && Abs(nc - c) == 2 then
      if nc == 6 then
        if IsUpper(moving) then Put(Put(b, 0, 7, None), 0, 5, Some('R'))
        else Put(Put(b, 7, 7, None), 7, 5, Some('r'))
      else
        if IsUpper(moving) then Put(Put(b, 0, 0, None), 0, 3, Some('R'))
        else Put(Put(b, 7, 0, None), 7, 3, Some('r'))
    else b
  }

  function MovePiece(b: Board, m: Move): Board {
    Put(Put(b, m.2, m.3, b[m.0][m.1]), m.0, m.1, None)
  }

  /** Clears the rights a king move or a move from or onto a corner forfeits. */
  function RightsAfter(rights: Rights, moving: char, m: Move): Rights {
    var (r, c, nr, nc) := m;
    var k0 := if moving == 'K' then rights[0 := false][1 := false] else rights;
    var k1 := if moving == 'k' then k0[2 := false][3 := false] else k0;
    var k2 := if (r, c) == (0, 0) || (nr, nc) == (0, 0) then k1[1 := false] else k1;
    var k3 := if (r, c) == (0, 7) || (nr, nc) == (0, 7) then k2[0 := false] else k2;
    var k4 := if (r, c) == (7, 0) || (nr, nc) == (7, 0) then k3[3 := false] else k3;
    if (r, c) == (7, 7) || (nr, nc) == (7, 7) then k4[2 := false] else k4
  }

  /** The square a pawn's two-rank advance skipped, else none. */
  function EnPassantAfter(moving: char, m: Move): Option<Coord> {
    if Lower(moving) == 'p' && Abs(m.2 - m.0) == 2 then
      var skipped: Coord := ((m.0 + m.2) / 2, m.1);
      Some(skipped)
    else None
  }

  /**
   * A White pawn on row 7 becomes the upper-cased choice (default 'Q'), then a
   * Black pawn on row 0 the lower-cased choice (default 'q'). The choice is
   * not checked to be a piece letter.
   */
  function Promote(b: Board, nr: int, nc: int, choice: Option<char>): Board
    requires InBounds(nr, nc)
  {
    var b1 := if b[nr][nc] == Some('P') && nr == 7 then Put(b, nr, nc, Some(Upper(choice.GetOr('Q')))) else b;
    if b1[nr][nc] == Some('p') && nr == 0 then Put(b1, nr, nc, Some(Lower(choice.GetOr('q')))) else b1
  }

  function SnapshotOf(p: Position, m: Move): Snapshot {
    Snapshot(p.board, p.whiteToMove, p.castling, p.enPassant, p.halfmoveClock, p.fullmoveNumber,
             MoveText(m.0, m.1, m.2, m.3))
  }

  /** The board after the accepted move `m`: capture en passant, relocate a castling rook, move, promote. */
  function BoardAfter(b: Board, ep: Option<Coord>, m: Move, choice: Option<char>): Board
    requires b[m.0][m.1].Some?
  {
    var moving := b[m.0][m.1].value;
    var b1 := EnPassantCapture(b, ep, moving, m.2, m.3);
    var b2 := RookRelocation(b1, moving, m.1, m.3);
    var b3 := MovePiece(b2, m);
    Promote(b3, m.2, m.3, choice)
  }

  /** The position after the accepted move `m`. */
  function Apply(p: Position, m: Move, choice: Option<char>): Position
    requires p.board[m.0][m.1].Some?
  {
    var moving := p.board[m.0][m.1].value;
    var side := !p.whiteToMove;
    Position(
      BoardAfter(p.board, p.enPassant, m, choice), side, RightsAfter(p.castling, moving, m), EnPassantAfter(moving, m),
      p.moveHistory + [SnapshotOf(p, m)],
      HalfmoveAfter(p.halfmoveClock, moving, p.board[m.2][m.3]),
      if !side then p.fullmoveNumber + 1 else p.fullmoveNumber)
  }

  /**
   * Moves the piece on `(r, c)` to `(nr, nc)` when that is a legal move for
   * the colour of the piece (not necessarily the side to move); otherwise
   * reports failure and returns the position unchanged.
   */
  function MakeMove(p: Position, r: int, c: int, nr: int, nc: int, choice: Option<char>): (bool, Position)
    requires InBounds(r, c)
  {
    match p.board[r][c]
    case None => (false, p)
    case Some(piece) =>
      if InBounds(nr, nc) && (var m: Move := (r, c, nr, nc); m in LegalMoves(p, ColorOf(piece)))
      then (true, Apply(p, (r, c, nr, nc), choice))
      else (false, p)
  }

  /** Restores the latest snapshot and drops it, or fails on an empty history. */
  function UndoMove(p: Position): (bool, Position) {
    if p.moveHistory == [] then (false, p)
    else
      var s := p.moveHistory[|p.moveHistory| - 1];
      (true, Position(s.board, s.whiteToMove, s.castling, s.enPassant,
                      p.moveHistory[..|p.moveHistory| - 1], s.halfmoveClock, s.fullmoveNumber))
  }

  // ---------------------------------------------------------------------------
  // Saved games, as records of optional fields.

  /** A saved game; a field that is `None` was missing (or, for the en-passant square, null). */
  datatype SavedGame = SavedGame(
    board: Option<Board>,
    whiteToMove: Option<bool>,
    castling: Option<Rights>,
    enPassant: Option<Coord>,
    moveHistory: Option<seq<Snapshot>>,
    halfmoveClock: Option<int>,
    fullmoveNumber: Option<int>)

  function ToJson(p: Position): SavedGame {
    SavedGame(Some(p.board), Some(p.whiteToMove), Some(p.castling), p.enPassant,
              Some(p.moveHistory), Some(p.halfmoveClock), Some(p.fullmoveNumber))
  }

  /**
   * Loads `d` over `p`. The fields are assigned one after the other, so a
   * missing `white_to_move` or `castling` fails after the earlier fields have
   * already been replaced; the last three fields take defaults.
   */
  function LoadJson(p: Position, d: SavedGame): (bool, Position) {
    if d.board.None? then (false, p)
    else if d.whiteToMove.None? then (false, p.(board := d.board.value))
    else if d.castling.None? then (false, p.(board := d.board.value, whiteToMove := d.whiteToMove.value))
    else
      (true, Position(d.board.value, d.whiteToMove.value, d.castling.value, d.enPassant,
                      d.moveHistory.GetOr([]), d.halfmoveClock.GetOr(0), d.fullmoveNumber.GetOr(1)))
  }

  // ---------------------------------------------------------------------------
  // Checkmate and stalemate.

  datatype Status = Checkmate(winner: Color) | Stalemate | InPlay(inCheck: bool)

  /** The classification made for the side to move after each move. */
  function PostMoveStatus(p: Position): Status {
    var side := SideToMove(p);
    if LegalMoves(p, side) == [] then
      if IsInCheck(p.board, side) then Checkmate(Enemy(side)) else Stalemate
    else InPlay(IsInCheck(p.board, side))
  }

  // ---------------------------------------------------------------------------
  // Properties.

  /**
   * A move is refused, with nothing changed, exactly when the origin is empty
   * or the move is not legal for the colour of the piece on it; an accepted
   * move leaves its origin and is applied as `Apply` describes.
   */
  lemma MakeMoveOutcome(p: Position, r: int, c: int, nr: int, nc: int, choice: Option<char>)
    requires InBounds(r, c)
    ensures var (ok, q) := MakeMove(p, r, c, nr, nc, choice);
      (ok <==> p.board[r][c].Some? && InBounds(nr, nc) && IsLegal(p, ColorOf(p.board[r][c].value), (r, c, nr, nc))) &&
      (!ok ==> q == p) &&
      (ok ==> InBounds(nr, nc) && (nr, nc) != (r, c) && q == Apply(p, (r, c, nr, nc), choice))
  {
    if p.board[r][c].Some? && InBounds(nr, nc) {
      LegalMovesSpec(p, ColorOf(p.board[r][c].value), (r, c, nr, nc));
      MovesFromNotOrigin(p, r, c);
    }
  }

  /**
   * An accepted move pushes one snapshot of the state before it, and undoing
   * straight away gives back the position it was made from.
   */
  lemma MakeThenUndo(p: Position, r: int, c: int, nr: int, nc: int, choice: Option<char>)
    requires InBounds(r, c)
    requires MakeMove(p, r, c, nr, nc, choice).0
    ensures var q := MakeMove(p, r, c, nr, nc, choice).1;
      q.moveHistory == p.moveHistory + [Snapshot(p.board, p.whiteToMove, p.castling, p.enPassant,
                                                 p.halfmoveClock, p.fullmoveNumber, MoveText(r, c, nr, nc))] &&
      UndoMove(q) == (true, p)
  {
    var q := MakeMove(p, r, c, nr, nc, choice).1;
    assert q.moveHistory[..|q.moveHistory| - 1] == p.moveHistory;
  }

  /** Undo on an empty history fails and changes nothing. */
  lemma UndoEmpty(p: Position)
    requires p.moveHistory == []
    ensures UndoMove(p) == (false, p)
  {
  }

  /**
   * After a move: the half-move clock is reset by a pawn move or a capture
   * and otherwise counts up; the en-passant square is the one a two-rank pawn
   * advance skipped, and otherwise none; the side to move flips, and the
   * full-move number goes up exactly when White was to move.
   */
  lemma MoveClocks(p: Position, m: Move, choice: Option<char>)
    requires p.board[m.0][m.1].Some?
    ensures var q := Apply(p, m, choice);
      var moving := p.board[m.0][m.1].value;
      q.halfmoveClock == (if Lower(moving) == 'p' || p.board[m.2][m.3].Some? then 0 else p.halfmoveClock + 1) &&
      (q.enPassant.Some? <==> Lower(moving) == 'p' && Abs(m.2 - m.0) == 2) &&
      (q.enPassant.Some? ==> q.enPassant.value == ((m.0 + m.2) / 2, m.1)) &&
      q.whiteToMove == !p.whiteToMove &&
      q.fullmoveNumber == (if p.whiteToMove then p.fullmoveNumber + 1 else p.fullmoveNumber)
  {
  }

  /**
   * Castling rights only ever go from true to false: a king move clears both
   * of its side's flags, and a move from or onto a corner clears that
   * corner's flag.
   */
  lemma RightsOnlyCleared(rights: Rights, moving: char, m: Move)
    ensures var after := RightsAfter(rights, moving, m);
      (forall i :: 0 <= i < 4 && after[i] ==> rights[i]) &&
      (moving == 'K' ==> !after[0] && !after[1]) &&
      (moving == 'k' ==> !after[2] && !after[3]) &&
      ((m.0, m.1) == (0, 7) || (m.2, m.3) == (0, 7) ==> !after[0]) &&
      ((m.0, m.1) == (0, 0) || (m.2, m.3) == (0, 0) ==> !after[1]) &&
      ((m.0, m.1) == (7, 7) || (m.2, m.3) == (7, 7) ==> !after[2]) &&
      ((m.0, m.1) == (7, 0) || (m.2, m.3) == (7, 0) ==> !after[3]) &&
      ((moving != 'K' && moving != 'k' && (m.0, m.1) !in {(0, 0), (0, 7), (7, 0), (7, 7)} &&
        (m.2, m.3) !in {(0, 0), (0, 7), (7, 0), (7, 7)}) ==> after == rights)
  {
  }

  /** A legal king move of two files is a castle from its home square along its home row. */
  lemma KingTwoFilesIsCastle(p: Position, m: Move)
    requires p.board[m.0][m.1].Some? && Lower(p.board[m.0][m.1].value) == 'k'
    requires IsLegal(p, ColorOf(p.board[m.0][m.1].value), m) && Abs(m.3 - m.1) == 2
    ensures var color := ColorOf(p.board[m.0][m.1].value);
      m.0 == HomeRow(color) && m.1 == 4 && m.2 == HomeRow(color) &&
      (m.3 == 6 ==> CanCastleKingside(p, color)) && (m.3 == 2 ==> CanCastleQueenside(p, color))
  {
    var color := ColorOf(p.board[m.0][m.1].value);
    var d: Coord := (m.2, m.3);
    StepMovesSpec(p.board, color, m.0, m.1, KingOffsets, d);
  }

  /**
   * Castling moves the king two files and the matching rook to the square the
   * king crossed, emptying the corner.
   */
  lemma CastlingRelocatesRook(p: Position, r: int, c: int, nr: int, nc: int, choice: Option<char>)
    requires InBounds(r, c)
    requires MakeMove(p, r, c, nr, nc, choice).0
    requires Lower(p.board[r][c].value) == 'k' && Abs(nc - c) == 2
    ensures var q := MakeMove(p, r, c, nr, nc, choice).1;
      var king := p.board[r][c].value;
      var row := HomeRow(ColorOf(king));
      var rook := if IsUpper(king) then 'R' else 'r';
      r == row && c == 4 && nr == row &&
      q.board[row][nc] == Some(king) && q.board[row][4] == None &&
      (nc == 6 ==> q.board[row][5] == Some(rook) && q.board[row][7] == None) &&
      (nc == 2 ==> q.board[row][3] == Some(rook) && q.board[row][0] == None)
  {
    var king := p.board[r][c].value;
    MakeMoveOutcome(p, r, c, nr, nc, choice);
    KingTwoFilesIsCastle(p, (r, c, nr, nc));
  }

  /**
   * A White pawn reaching row 7 becomes the upper-cased choice, 'Q' when none
   * is given, and a Black pawn reaching row 0 the lower-cased choice, 'q'
   * when none is given. (A target that is the en-passant square is excluded:
   * there the capture behind the target could remove the moving pawn itself.)
   */
  lemma PromotionOnLastRank(p: Position, m: Move, choice: Option<char>)
    requires p.board[m.0][m.1].Some? && (m.0, m.1) != (m.2, m.3)
    requires p.enPassant.None? || p.enPassant.value != (m.2, m.3)
    ensures var q := Apply(p, m, choice);
      (p.board[m.0][m.1] == Some('P') && m.2 == 7 ==> q.board[m.2][m.3] == Some(Upper(choice.GetOr('Q')))) &&
      (p.board[m.0][m.1] == Some('p') && m.2 == 0 ==> q.board[m.2][m.3] == Some(Lower(choice.GetOr('q'))))
  {
    var moving := p.board[m.0][m.1].value;
    var b1 := EnPassantCapture(p.board, p.enPassant, moving, m.2, m.3);
    assert b1 == p.board;
    if moving == 'P' || moving == 'p' {
      assert RookRelocation(b1, moving, m.1, m.3) == b1;
    }
  }

  /**
   * A pawn stepping one rank diagonally onto the empty en-passant square
   * removes the piece beside it on its own row, in the move itself as in the
   * legality test.
   */
  lemma EnPassantRemovesBeside(p: Position, m: Move, choice: Option<char>)
    requires p.board[m.0][m.1].Some?
    requires Lower(p.board[m.0][m.1].value) == 'p' && m.2 == m.0 + Forward(ColorOf(p.board[m.0][m.1].value)) && m.3 != m.1
    requires p.enPassant.Some? && p.enPassant.value == (m.2, m.3) && p.board[m.2][m.3] == None
    ensures Apply(p, m, choice).board[m.0][m.3] == None
    ensures Simulate(p.board, p.enPassant, m)[m.0][m.3] == None
  {
  }

  /** Saving and loading gives back every field of the position. */
  lemma SaveLoadRoundTrip(p: Position, over: Position)
    ensures LoadJson(over, ToJson(p)) == (true, p)
  {
  }

  /**
   * Loading fails exactly when `board`, `white_to_move` or `castling` is
   * missing; missing history and clocks default to empty, 0 and 1.
   */
  lemma LoadJsonFields(p: Position, d: SavedGame)
    ensures var (ok, q) := LoadJson(p, d);
      (ok <==> d.board.Some? && d.whiteToMove.Some? && d.castling.Some?) &&
      (ok ==> q.enPassant == d.enPassant &&
              (d.moveHistory.None? ==> q.moveHistory == []) &&
              (d.halfmoveClock.None? ==> q.halfmoveClock == 0) &&
              (d.fullmoveNumber.None? ==> q.fullmoveNumber == 1)) &&
      (d.board.None? ==> q == p)
  {
  }

  /**
   * With no legal move the side to move is checkmated (the other side wins)
   * when in check and stalemated otherwise; with some legal move the game goes on.
   */
  lemma StatusSpec(p: Position)
    ensures var side := SideToMove(p);
      var noMove := forall m: Move :: !IsLegal(p, side, m);
      (PostMoveStatus(p) == Checkmate(Enemy(side)) <==> noMove && IsInCheck(p.board, side)) &&
      (PostMoveStatus(p) == Stalemate <==> noMove && !IsInCheck(p.board, side)) &&
      (PostMoveStatus(p).InPlay? <==> !noMove)
  {
    var side := SideToMove(p);
    var moves := LegalMoves(p, side);
    if moves == [] {
      forall m: Move ensures !IsLegal(p, side, m) {
        LegalMovesSpec(p, side, m);
      }
    } else {
      LegalMovesSpec(p, side, moves[0]);
    }
  }
}
