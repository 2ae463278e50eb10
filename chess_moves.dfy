/**
 * Positions, pseudo-legal move generation per piece, and the legality filter
 * that simulates each candidate on a copy of the board and keeps it only when
 * the mover's own king is not left in check.
 */
module ChessMoves {
  import opened Wrappers
  import opened ChessRules

  /** Castling rights: White kingside, White queenside, Black kingside, Black queenside. */
  type Rights = s: seq<bool> | |s| == 4 witness [true, true, true, true]

  /** A history entry: the full state before a move, and the move as text. */
  datatype Snapshot = Snapshot(
    board: Board,
    whiteToMove: bool,
    castling: Rights,
    enPassant: Option<Coord>,
    halfmoveClock: int,
    fullmoveNumber: int,
    move: string)

  datatype Position = Position(
    board: Board,
    whiteToMove: bool,
    castling: Rights,
    enPassant: Option<Coord>,
    moveHistory: seq<Snapshot>,
    halfmoveClock: int,
    fullmoveNumber: int)

  /** The position a new game starts from. */
  function StartPosition(): (p: Position)
    ensures p.board[0] == [Some('R'), Some('N'), Some('B'), Some('Q'), Some('K'), Some('B'), Some('N'), Some('R')]
    ensures forall c :: 0 <= c < 8 ==> p.board[1][c] == Some('P') && p.board[6][c] == Some('p')
    ensures forall r, c :: 2 <= r < 6 && 0 <= c < 8 ==> p.board[r][c] == None
    ensures p.board[7] == [Some('r'), Some('n'), Some('b'), Some('q'), Some('k'), Some('b'), Some('n'), Some('r')]
    ensures p.whiteToMove && p.castling == [true, true, true, true] && p.enPassant == None
    ensures p.moveHistory == [] && p.halfmoveClock == 0 && p.fullmoveNumber == 1
  {
    Position(StartingBoard(), true, [true, true, true, true], None, [], 0, 1)
  }

  function SideToMove(p: Position): Color {
    if p.whiteToMove then White else Black
  }

  /** The row direction a pawn of `color` advances in. */
  function Forward(color: Color): int {
    if color == White then 1 else -1
  }

  function PawnStartRow(color: Color): int {
    if color == White then 1 else 6
  }

  function HomeRow(color: Color): int {
    if color == White then 0 else 7
  }

  // ---------------------------------------------------------------------------
  // Pseudo-legal moves, piece by piece.

  /** One square forward if empty, then two from the start row if that is empty too. */
  function PawnPushes(b: Board, color: Color, r: int, c: int): seq<Coord> {
    var fr := r + Forward(color);
    if InBounds(fr, c) && b[fr][c] == None then
      var fr2 := r + 2 * Forward(color);
      [(fr, c)] + if r == PawnStartRow(color) && InBounds(fr2, c) && b[fr2][c] == None then [(fr2, c)] else []
    else []
  }

  /** A diagonal capture onto `(fr, fc)` when it holds a piece of the other colour. */
  function PawnCapture(b: Board, color: Color, fr: int, fc: int): seq<Coord> {
    if InBounds(fr, fc) && b[fr][fc].Some? && ColorOf(b[fr][fc].value) != color then [(fr, fc)] else []
  }

  /** The step onto the en-passant square; neither its colour nor its contents are checked. */
  function EnPassantStep(ep: Option<Coord>, fr: int, c: int): seq<Coord> {
    match ep
    case None => []
    case Some(sq) => if fr == sq.0 && Abs(sq.1 - c) == 1 then [(fr, sq.1)] else []
  }

  function PawnMoves(p: Position, color: Color, r: int, c: int): seq<Coord> {
    var fr := r + Forward(color);
    PawnPushes(p.board, color, r, c) + PawnCapture(p.board, color, fr, c - 1) +
      PawnCapture(p.board, color, fr, c + 1) + EnPassantStep(p.enPassant, fr, c)
  }

  const KnightOffsets: seq<(int, int)> := [(2, 1), (2, -1), (-2, 1), (-2, -1), (1, 2), (1, -2), (-1, 2), (-1, -2)]

  /** The eight neighbours, in the order of the source's nested loops over -1, 0, 1. */
  const KingOffsets: seq<(int, int)> := [(-1, -1), (-1, 0), (-1, 1), (0, -1), (0, 1), (1, -1), (1, 0), (1, 1)]

  /** The squares `(r, c) + offset` on the board that are empty or hold a piece of the other colour. */
  function StepMoves(b: Board, color: Color, r: int, c: int, offsets: seq<(int, int)>): seq<Coord> {
    if offsets == [] then []
    else
      var nr, nc := r + offsets[0].0, c + offsets[0].1;
      (if InBounds(nr, nc) && (b[nr][nc] == None || ColorOf(b[nr][nc].value) != color) then [(nr, nc)] else []) +
        StepMoves(b, color, r, c, offsets[1..])
  }

  predicate Direction(d: (int, int)) {
    UnitStep(d.0, d.1) && d != (0, 0)
  }

  /** How many more squares a ray along `(dr, dc)` can visit from `(nr, nc)`. */
  function Span(dr: int, dc: int, nr: int, nc: int): int {
    if dr > 0 then 8 - nr else if dr < 0 then nr + 1 else if dc > 0 then 8 - nc else nc + 1
  }

  /** A ray from `(nr, nc)` on: empty squares, then one capture, stopping at any piece. */
  function Slide(b: Board, color: Color, dr: int, dc: int, nr: int, nc: int): seq<Coord>
    requires Direction((dr, dc))
    decreases Span(dr, dc, nr, nc)
  {
    if !InBounds(nr, nc) then []
    else if b[nr][nc] == None then [(nr, nc)] + Slide(b, color, dr, dc, nr + dr, nc + dc)
    else if ColorOf(b[nr][nc].value) != color then [(nr, nc)]
    else []
  }

  const BishopDirs: seq<(int, int)> := [(1, 1), (1, -1), (-1, 1), (-1, -1)]
  const RookDirs: seq<(int, int)> := [(1, 0), (-1, 0), (0, 1), (0, -1)]

  function SliderDirs(kind: char): (dirs: seq<(int, int)>)
    ensures forall i :: 0 <= i < |dirs| ==> Direction(dirs[i])
  {
    (if kind == 'b' || kind == 'q' then BishopDirs else []) + (if kind == 'r' || kind == 'q' then RookDirs else [])
  }

  function SliderMoves(b: Board, color: Color, r: int, c: int, dirs: seq<(int, int)>): seq<Coord>
    requires forall i :: 0 <= i < |dirs| ==> Direction(dirs[i])
  {
    if dirs == [] then []
    else Slide(b, color, dirs[0].0, dirs[0].1, r + dirs[0].0, c + dirs[0].1) + SliderMoves(b, color, r, c, dirs[1..])
  }

  /** The conditions under which the king of `color` may castle kingside (to column 6). */
  predicate CanCastleKingside(p: Position, color: Color) {
    var row := HomeRow(color);
    var b := p.board;
    p.castling[if color == White then 0 else 2] && b[row][5] == None && b[row][6] == None &&
      !IsInCheck(b, color) && !Attacked(b, Enemy(color), row, 5) && !Attacked(b, Enemy(color), row, 6)
  }

  /** The conditions under which the king of `color` may castle queenside (to column 2). */
  predicate CanCastleQueenside(p: Position, color: Color) {
    var row := HomeRow(color);
    var b := p.board;
    p.castling[if color == White then 1 else 3] && b[row][1] == None && b[row][2] == None && b[row][3] == None &&
      !IsInCheck(b, color) && !Attacked(b, Enemy(color), row, 3) && !Attacked(b, Enemy(color), row, 2)
  }

  function CastleMoves(p: Position, color: Color, r: int, c: int): seq<Coord> {
    if r == HomeRow(color) && c == 4 then
      (if CanCastleKingside(p, color) then [(r, 6)] else []) +
        (if CanCastleQueenside(p, color) then [(r, 2)] else [])
    else []
  }

  /** The pseudo-legal destinations of the piece on `(r, c)`. */
  function MovesFrom(p: Position, r: int, c: int): seq<Coord>
    requires InBounds(r, c)
  {
    match p.board[r][c]
    case None => []
    case Some(piece) =>
      var color := ColorOf(piece);
      var kind := Lower(piece);
      if kind == 'p' then PawnMoves(p, color, r, c)
      else if kind == 'n' then StepMoves(p.board, color, r, c, KnightOffsets)
      else if kind == 'b' || kind == 'r' || kind == 'q' then SliderMoves(p.board, color, r, c, SliderDirs(kind))
      else if kind == 'k' then StepMoves(p.board, color, r, c, KingOffsets) + CastleMoves(p, color, r, c)
      else []
  }

  // ---------------------------------------------------------------------------
  // Legality.

  /**
   * The board after `m` as the legality test sees it: a pawn stepping onto the
   * empty en-passant square removes the piece beside it on its own row; no
   * rook is relocated and no pawn promoted.
   */
  function Simulate(b: Board, ep: Option<Coord>, m: Move): Board {
    var (r, c, nr, nc) := m;
    var b1 :=
      if b[r][c].Some? && Lower(b[r][c].value) == 'p' && ep.Some? && ep.value == (nr, nc) && b[nr][nc] == None
      then Put(b, r, nc, None) else b;
    Put(Put(b1, nr, nc, b1[r][c]), r, c, None)
  }

  /** The candidates from `(r, c)` that do not leave `color` in check, in order. */
  function FilterLegal(p: Position, color: Color, r: int, c: int, cands: seq<Coord>): seq<Move>
    requires InBounds(r, c)
  {
    if cands == [] then []
    else
      var m: Move := (r, c, cands[0].0, cands[0].1);
      (if !IsInCheck(Simulate(p.board, p.enPassant, m), color) then [m] else []) +
        FilterLegal(p, color, r, c, cands[1..])
  }

  function SquareLegal(p: Position, color: Color, r: int, c: int): seq<Move>
    requires InBounds(r, c)
  {
    if p.board[r][c].Some? && Owns(color, p.board[r][c].value) then FilterLegal(p, color, r, c, MovesFrom(p, r, c))
    else []
  }

  /** The legal moves of the pieces at or after `(r, c)` in row-major order. */
  function LegalFrom(p: Position, color: Color, r: int, c: int): seq<Move>
    requires 0 <= r <= 8 && 0 <= c <= 8
    decreases 8 - r, 8 - c
  {
    if r == 8 then []
    else if c == 8 then LegalFrom(p, color, r + 1, 0)
    else SquareLegal(p, color, r, c) + LegalFrom(p, color, r, c + 1)
  }

  function LegalMoves(p: Position, color: Color): seq<Move> {
    LegalFrom(p, color, 0, 0)
  }

  /** What it takes for `m` to be a legal move of `color`. */
  predicate IsLegal(p: Position, color: Color, m: Move) {
    p.board[m.0][m.1].Some? && Owns(color, p.board[m.0][m.1].value) &&
      (m.2, m.3) in MovesFrom(p, m.0, m.1) &&
      !IsInCheck(Simulate(p.board, p.enPassant, m), color)
  }

  // ---------------------------------------------------------------------------
  // Properties.

  lemma {:induction false} FilterLegalSpec(p: Position, color: Color, r: int, c: int, cands: seq<Coord>, m: Move)
    requires InBounds(r, c)
    ensures m in FilterLegal(p, color, r, c, cands) <==>
      m.0 == r && m.1 == c && (m.2, m.3) in cands && !IsInCheck(Simulate(p.board, p.enPassant, m), color)
  {
    if cands != [] {
      FilterLegalSpec(p, color, r, c, cands[1..], m);
      assert cands == [cands[0]] + cands[1..];
    }
  }

  lemma {:induction false} LegalFromSpec(p: Position, color: Color, r: int, c: int, m: Move)
    requires 0 <= r <= 8 && 0 <= c <= 8
    decreases 8 - r, 8 - c
    ensures m in LegalFrom(p, color, r, c) <==> !Before(m.0, m.1, r, c) && r < 8 && c <= 8 && IsLegal(p, color, m)
  {
    if r == 8 {
    } else if c == 8 {
      LegalFromSpec(p, color, r + 1, 0, m);
    } else {
      LegalFromSpec(p, color, r, c + 1, m);
      if p.board[r][c].Some? && Owns(color, p.board[r][c].value) {
        FilterLegalSpec(p, color, r, c, MovesFrom(p, r, c), m);
      } else if m.0 == r && m.1 == c {
        assert !IsLegal(p, color, m);
      }
    }
  }

  /**
   * A move is generated as legal for `color` exactly when a piece of `color`
   * stands on its origin, its destination is pseudo-legal for that piece, and
   * the simulated board does not leave `color` in check.
   */
  lemma LegalMovesSpec(p: Position, color: Color, m: Move)
    ensures m in LegalMoves(p, color) <==> IsLegal(p, color, m)
  {
    LegalFromSpec(p, color, 0, 0, m);
  }

  /** Every destination of a step piece is on the board and holds no piece of its own colour. */
  lemma {:induction false} StepMovesSpec(b: Board, color: Color, r: int, c: int, offsets: seq<(int, int)>, d: Coord)
    ensures d in StepMoves(b, color, r, c, offsets) <==>
      (d.0 - r, d.1 - c) in offsets && (b[d.0][d.1] == None || ColorOf(b[d.0][d.1].value) != color)
  {
    if offsets != [] {
      var rest := offsets[1..];
      StepMovesSpec(b, color, r, c, rest, d);
      var nr, nc := r + offsets[0].0, c + offsets[0].1;
      var head: seq<Coord> := if InBounds(nr, nc) && (b[nr][nc] == None || ColorOf(b[nr][nc].value) != color) then [(nr, nc)] else [];
      assert StepMoves(b, color, r, c, offsets) == head + StepMoves(b, color, r, c, rest);
      assert d in head <==> d == (nr, nc) && (b[d.0][d.1] == None || ColorOf(b[d.0][d.1].value) != color);
      assert (d.0 - r, d.1 - c) in offsets <==> (d.0 - r, d.1 - c) == offsets[0] || (d.0 - r, d.1 - c) in rest;
    }
  }

  lemma {:induction false} SlideNoAlly(b: Board, color: Color, dr: int, dc: int, nr: int, nc: int, d: Coord)
    requires Direction((dr, dc))
    requires d in Slide(b, color, dr, dc, nr, nc)
    decreases Span(dr, dc, nr, nc)
    ensures b[d.0][d.1] == None || ColorOf(b[d.0][d.1].value) != color
  {
    if InBounds(nr, nc) && b[nr][nc] == None && d != (nr, nc) {
      SlideNoAlly(b, color, dr, dc, nr + dr, nc + dc, d);
    }
  }

  lemma {:induction false} SliderMovesNoAlly(b: Board, color: Color, r: int, c: int, dirs: seq<(int, int)>, d: Coord)
    requires forall i :: 0 <= i < |dirs| ==> Direction(dirs[i])
    requires d in SliderMoves(b, color, r, c, dirs)
    ensures b[d.0][d.1] == None || ColorOf(b[d.0][d.1].value) != color
  {
    if dirs != [] {
      if d in Slide(b, color, dirs[0].0, dirs[0].1, r + dirs[0].0, c + dirs[0].1) {
        SlideNoAlly(b, color, dirs[0].0, dirs[0].1, r + dirs[0].0, c + dirs[0].1, d);
      } else {
        SliderMovesNoAlly(b, color, r, c, dirs[1..], d);
      }
    }
  }

  /**
   * No generated destination holds a piece of the mover's own colour, except
   * that a pawn's step onto the en-passant square is not checked at all.
   */
  lemma MovesFromNoAlly(p: Position, r: int, c: int, d: Coord)
    requires InBounds(r, c) && p.board[r][c].Some?
    requires d in MovesFrom(p, r, c)
    ensures var piece := p.board[r][c].value;
      p.board[d.0][d.1] == None || ColorOf(p.board[d.0][d.1].value) != ColorOf(piece) ||
      (Lower(piece) == 'p' && p.enPassant == Some(d))
  {
    var piece := p.board[r][c].value;
    var color, kind := ColorOf(piece), Lower(piece);
    if kind == 'n' {
      StepMovesSpec(p.board, color, r, c, KnightOffsets, d);
    } else if kind == 'b' || kind == 'r' || kind == 'q' {
      SliderMovesNoAlly(p.board, color, r, c, SliderDirs(kind), d);
    } else if kind == 'k' {
      if d in StepMoves(p.board, color, r, c, KingOffsets) {
        StepMovesSpec(p.board, color, r, c, KingOffsets, d);
      }
    }
  }

  /** No piece is offered its own square as a destination. */
  lemma MovesFromNotOrigin(p: Position, r: int, c: int)
    requires InBounds(r, c)
    ensures (r, c) !in MovesFrom(p, r, c)
  {
    if p.board[r][c].Some? && (r, c) in MovesFrom(p, r, c) {
      MovesFromNoAlly(p, r, c, (r, c));
    }
  }

  /**
   * A king on its home square is offered the two-file step to column 6 (or 2)
   * exactly when the matching castling flag is set, the squares between it and
   * the rook are empty, it is not in check, and neither square it crosses or
   * lands on is attacked.
   */
  lemma CastlingOffered(p: Position, color: Color)
    requires p.board[HomeRow(color)][4] == Some(KingOf(color))
    ensures (HomeRow(color), 6) in MovesFrom(p, HomeRow(color), 4) <==> CanCastleKingside(p, color)
    ensures (HomeRow(color), 2) in MovesFrom(p, HomeRow(color), 4) <==> CanCastleQueenside(p, color)
  {
    var row := HomeRow(color);
    assert ColorOf(KingOf(color)) == color && Lower(KingOf(color)) == 'k';
    StepMovesSpec(p.board, color, row, 4, KingOffsets, (row, 6));
    StepMovesSpec(p.board, color, row, 4, KingOffsets, (row, 2));
  }
}
