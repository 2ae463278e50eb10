/**
 * The chess engine's game state as the object the source updates in place:
 * an 8x8 array of optional piece letters, the side to move, the castling
 * flags, the en-passant square, the clocks and the stack of snapshots. Every
 * method is proved against the position value of the pure layer.
 */
module ChessState {
  import opened Wrappers
  import opened ChessRules
  import opened ChessMoves
  import opened ChessPlay

  /** An array shaped like the board. */
  predicate Dims(a: array2<Cell>) {
    a.Length0 == 8 && a.Length1 == 8
  }

  /** The board value an array holds. */
  function Grid(a: array2<Cell>): (g: Board)
    requires Dims(a)
    reads a
    ensures forall r, c :: InBounds(r, c) ==> g[r][c] == a[r, c]
  {
    seq(8, (r: int) reads a requires 0 <= r < 8 => seq(8, (c: int) reads a requires 0 <= c < 8 => a[r, c]))
  }

  /** `g` is the board value the array `a` holds. */
  ghost predicate Holds(a: array2<Cell>, g: Board)
    requires Dims(a)
    reads a
  {
    forall i, j :: InBounds(i, j) ==> g[i][j] == a[i, j]
  }

  /** Two boards agreeing on every square are equal. */
  lemma BoardExt(g: Board, h: Board)
    requires forall r, c :: InBounds(r, c) ==> g[r][c] == h[r][c]
    ensures g == h
  {
    forall r | 0 <= r < 8 ensures g[r] == h[r] {
      assert forall c :: 0 <= c < 8 ==> g[r][c] == h[r][c];
    }
  }

  /** The board value an array holds is the one `Grid` reads off it. */
  lemma GridIs(a: array2<Cell>, g: Board)
    requires Dims(a) && Holds(a, g)
    ensures Grid(a) == g
  {
    BoardExt(Grid(a), g);
  }

  /** One assignment to a square of an array board. */
  method SetCell(a: array2<Cell>, ghost g: Board, r: int, c: int, x: Cell)
    requires Dims(a) && Holds(a, g) && InBounds(r, c)
    modifies a
    ensures Holds(a, Put(g, r, c, x))
  {
    a[r, c] := x;
  }

  /** A fresh array holding `g`. */
  method FromGrid(g: Board) returns (a: array2<Cell>)
    ensures fresh(a) && Dims(a) && Holds(a, g)
  {
    a := new Cell[8, 8]((r, c) => if InBounds(r, c) then g[r][c] else None);
  }

  /** A fresh copy of the array board `a`. */
  method CopyBoard(a: array2<Cell>, ghost g: Board) returns (copy: array2<Cell>)
    requires Dims(a) && Holds(a, g)
    ensures fresh(copy) && Dims(copy) && Holds(copy, g)
  {
    copy := new Cell[8, 8]((r, c) reads a => if InBounds(r, c) then a[r, c] else None);
  }

  /** The line from `(r, c)` to `(tr, tc)` reaches it in `n` unit steps of `(Sign(dr), Sign(dc))`. */
  lemma LineTarget(r: int, c: int, tr: int, tc: int)
    requires Abs(tr - r) == Abs(tc - c) || tr == r || tc == c
    ensures var sr, sc, n := Sign(tr - r), Sign(tc - c), Max(Abs(tr - r), Abs(tc - c));
      UnitStep(sr, sc) && tr == r + Offset(sr, n) && tc == c + Offset(sc, n) && (n >= 1 <==> sr != 0 || sc != 0)
  {
  }

  /**
   * Walks from the square after `(r, c)` towards `(tr, tc)` in steps of
   * `(sr, sc)`, stopping at the first occupied square.
   */
  method RayClear(b: array2<Cell>, ghost g: Board, r: int, c: int, tr: int, tc: int, sr: int, sc: int, ghost n: nat)
    returns (clear: bool)
    requires Dims(b) && Holds(b, g) && InBounds(r, c) && InBounds(tr, tc) && UnitStep(sr, sc)
    requires tr == r + Offset(sr, n) && tc == c + Offset(sc, n) && (n >= 1 <==> sr != 0 || sc != 0)
    ensures clear == ClearPath(g, r, c, sr, sc, n)
  {
    var rr, cc := r + sr, c + sc;
    ghost var pr, pc, m := r, c, n;
    while (rr, cc) != (tr, tc)
      invariant InBounds(pr, pc) && rr == pr + sr && cc == pc + sc
      invariant tr == pr + Offset(sr, m) && tc == pc + Offset(sc, m) && (m >= 1 <==> sr != 0 || sc != 0)
      invariant ClearPath(g, r, c, sr, sc, n) == ClearPath(g, pr, pc, sr, sc, m)
      decreases m
    {
      assert m >= 2;
      if b[rr, cc] != None {
        return false;
      }
      pr, pc, m := rr, cc, m - 1;
      rr, cc := rr + sr, cc + sc;
    }
    return true;
  }

  /** Whether the piece on `src` attacks `dst` on the board `b`. */
  method PieceAttacksSquare(src: Coord, dst: Coord, b: array2<Cell>, ghost g: Board) returns (res: bool)
    requires Dims(b) && Holds(b, g)
    ensures res == Attacks(g, src.0, src.1, dst.0, dst.1)
  {
    var (r, c) := src;
    var (tr, tc) := dst;
    var cell := b[r, c];
    if cell == None {
      return false;
    }
    var p := cell.value;
    var pl := Lower(p);
    var dr, dc := tr - r, tc - c;
    if pl == 'p' {
      var direction := if IsUpper(p) then 1 else -1;
      return dr == direction && Abs(dc) == 1;
    }
    if pl == 'n' {
      return (Abs(dr), Abs(dc)) in [(1, 2), (2, 1)];
    }
    if pl == 'b' {
      if Abs(dr) != Abs(dc) || dr == 0 {
        return false;
      }
      var stepR := if dr > 0 then 1 else -1;
      var stepC := if dc > 0 then 1 else -1;
      LineTarget(r, c, tr, tc);
      res := RayClear(b, g, r, c, tr, tc, stepR, stepC, Max(Abs(dr), Abs(dc)));
      return;
    }
    if pl == 'r' {
      if dr != 0 && dc != 0 {
        return false;
      }
      var stepR := if dr == 0 then 0 else if dr > 0 then 1 else -1;
      var stepC := if dc == 0 then 0 else if dc > 0 then 1 else -1;
      LineTarget(r, c, tr, tc);
      res := RayClear(b, g, r, c, tr, tc, stepR, stepC, Max(Abs(dr), Abs(dc)));
      return;
    }
    if pl == 'q' {
      if (Abs(dr) == Abs(dc) && dr != 0) || (dr == 0 && dc != 0) || (dc == 0 && dr != 0) {
        var stepR := if dr == 0 then 0 else if dr > 0 then 1 else -1;
        var stepC := if dc == 0 then 0 else if dc > 0 then 1 else -1;
        LineTarget(r, c, tr, tc);
        res := RayClear(b, g, r, c, tr, tc, stepR, stepC, Max(Abs(dr), Abs(dc)));
        return;
      }
      return false;
    }
    if pl == 'k' {
      return Max(Abs(dr), Abs(dc)) == 1;
    }
    return false;
  }

  /** Whether some piece of `side` on `b` attacks `(sr, sc)`, scanning in row-major order. */
  method AnyAttacker(b: array2<Cell>, ghost g: Board, side: Color, sr: int, sc: int) returns (found: bool)
    requires Dims(b) && Holds(b, g) && InBounds(sr, sc)
    ensures found == Attacked(g, side, sr, sc)
  {
    var target: Coord := (sr, sc);
    for r := 0 to 8
      invariant forall i, j :: 0 <= i < r && 0 <= j < 8 ==>
        !(g[i][j].Some? && Owns(side, g[i][j].value) && Attacks(g, i, j, sr, sc))
    {
      for c := 0 to 8
        invariant forall i, j :: ((0 <= i < r && 0 <= j < 8) || (i == r && 0 <= j < c)) ==>
          !(g[i][j].Some? && Owns(side, g[i][j].value) && Attacks(g, i, j, sr, sc))
      {
        var p := b[r, c];
        if p == None {
          continue;
        }
        if side == White && !IsUpper(p.value) {
          continue;
        }
        if side == Black && !IsLower(p.value) {
          continue;
        }
        var a := PieceAttacksSquare((r, c), target, b, g);
        if a {
          return true;
        }
      }
    }
    return false;
  }

  // ---------------------------------------------------------------------------
  // Pseudo-legal destinations, read off an array board.

  /** A pawn's pushes, diagonal captures and en-passant step, in the source's order. */
  method PawnTargets(b: array2<Cell>, ghost p: Position, ep: Option<Coord>, color: Color, r: int, c: int)
    returns (moves: seq<Coord>)
    requires Dims(b) && Holds(b, p.board) && ep == p.enPassant && InBounds(r, c)
    ensures moves == PawnMoves(p, color, r, c)
  {
    var direction := Forward(color);
    var fr := r + direction;
    moves := [];
    if InBounds(fr, c) && b[fr, c] == None {
      var one: Coord := (fr, c);
      moves := moves + [one];
      var startRow := PawnStartRow(color);
      var fr2 := r + 2 * direction;
      if r == startRow && InBounds(fr2, c) && b[fr2, c] == None {
        var two: Coord := (fr2, c);
        moves := moves + [two];
      }
    }
    assert moves == PawnPushes(p.board, color, r, c);
    var sides := [-1, 1];
    for k := 0 to 2
      invariant moves == PawnPushes(p.board, color, r, c) +
        (if k >= 1 then PawnCapture(p.board, color, fr, c - 1) else []) +
        (if k >= 2 then PawnCapture(p.board, color, fr, c + 1) else [])
    {
      var fc := c + sides[k];
      if InBounds(fr, fc) {
        var target := b[fr, fc];
        if target.Some? && ColorOf(target.value) != color {
          var sq: Coord := (fr, fc);
          moves := moves + [sq];
        }
      }
    }
    if ep.Some? {
      var (epR, epC) := ep.value;
      if fr == epR && Abs(epC - c) == 1 {
        var sq: Coord := (fr, epC);
        moves := moves + [sq];
      }
    }
  }

  /** The squares `(r, c) + offset` that are on the board and empty or held by the other colour. */
  method StepTargets(b: array2<Cell>, ghost g: Board, color: Color, r: int, c: int, offsets: seq<(int, int)>)
    returns (moves: seq<Coord>)
    requires Dims(b) && Holds(b, g)
    ensures moves == StepMoves(g, color, r, c, offsets)
  {
    moves := [];
    for i := 0 to |offsets|
      invariant moves + StepMoves(g, color, r, c, offsets[i..]) == StepMoves(g, color, r, c, offsets)
    {
      assert offsets[i..][1..] == offsets[i + 1..];
      var (dr, dc) := offsets[i];
      var nr, nc := r + dr, c + dc;
      if !InBounds(nr, nc) {
        continue;
      }
      if b[nr, nc] == None || ColorOf(b[nr, nc].value) != color {
        var sq: Coord := (nr, nc);
        moves := moves + [sq];
      }
    }
  }

  /** One ray from `(r, c)` along `(dr, dc)`: empty squares, then one capture, stopping at any piece. */
  method SlideTargets(b: array2<Cell>, ghost g: Board, color: Color, r: int, c: int, dr: int, dc: int)
    returns (moves: seq<Coord>)
    requires Dims(b) && Holds(b, g) && Direction((dr, dc))
    ensures moves == Slide(g, color, dr, dc, r + dr, c + dc)
  {
    moves := [];
    var nr, nc := r + dr, c + dc;
    while InBounds(nr, nc)
      invariant moves + Slide(g, color, dr, dc, nr, nc) == Slide(g, color, dr, dc, r + dr, c + dc)
      decreases Span(dr, dc, nr, nc)
    {
      var sq: Coord := (nr, nc);
      if b[nr, nc] == None {
        moves := moves + [sq];
      } else {
        if ColorOf(b[nr, nc].value) != color {
          moves := moves + [sq];
        }
        break;
      }
      nr, nc := nr + dr, nc + dc;
    }
  }

  /** The rays along every direction in `dirs`, in order. */
  method SliderTargets(b: array2<Cell>, ghost g: Board, color: Color, r: int, c: int, dirs: seq<(int, int)>)
    returns (moves: seq<Coord>)
    requires Dims(b) && Holds(b, g)
    requires forall i :: 0 <= i < |dirs| ==> Direction(dirs[i])
    ensures moves == SliderMoves(g, color, r, c, dirs)
  {
    moves := [];
    for i := 0 to |dirs|
      invariant moves + SliderMoves(g, color, r, c, dirs[i..]) == SliderMoves(g, color, r, c, dirs)
    {
      assert dirs[i..][1..] == dirs[i + 1..];
      var ray := SlideTargets(b, g, color, r, c, dirs[i].0, dirs[i].1);
      moves := moves + ray;
    }
  }

  /** One step of the filter: the candidate at `i` is kept exactly when the simulated move leaves no check. */
  lemma FilterLegalStep(p: Position, color: Color, r: int, c: int, cands: seq<Coord>, i: int)
    requires InBounds(r, c) && 0 <= i < |cands|
    ensures FilterLegal(p, color, r, c, cands[i..]) ==
      (if !IsInCheck(Simulate(p.board, p.enPassant, (r, c, cands[i].0, cands[i].1)), color)
       then [(r, c, cands[i].0, cands[i].1)] else []) + FilterLegal(p, color, r, c, cands[i + 1..])
  {
    assert cands[i..][1..] == cands[i + 1..];
  }

  /** A square without a piece of `color` adds nothing to the scan. */
  lemma LegalFromSkip(p: Position, color: Color, r: int, c: int)
    requires InBounds(r, c) && !(p.board[r][c].Some? && Owns(color, p.board[r][c].value))
    ensures LegalFrom(p, color, r, c) == LegalFrom(p, color, r, c + 1)
  {
    assert SquareLegal(p, color, r, c) == [];
  }

  /** A square with a piece of `color` adds its filtered destinations first. */
  lemma LegalFromTake(p: Position, color: Color, r: int, c: int)
    requires InBounds(r, c) && p.board[r][c].Some? && Owns(color, p.board[r][c].value)
    ensures LegalFrom(p, color, r, c) == FilterLegal(p, color, r, c, MovesFrom(p, r, c)) + LegalFrom(p, color, r, c + 1)
  {
  }

  lemma AppendAssoc(a: seq<Move>, b: seq<Move>, c: seq<Move>)
    ensures a + b + c == a + (b + c)
  {
  }

  /** How the outcome of a move follows from whether it was found among the legal moves. */
  lemma MakeMoveListed(p: Position, r: int, c: int, nr: int, nc: int, choice: Option<char>, legal: bool)
    requires InBounds(r, c) && p.board[r][c].Some?
    requires legal <==> InBounds(nr, nc) && (r, c, nr, nc) in LegalMoves(p, ColorOf(p.board[r][c].value))
    ensures !legal ==> ChessPlay.MakeMove(p, r, c, nr, nc, choice) == (false, p)
    ensures legal ==> InBounds(nr, nc) && ChessPlay.MakeMove(p, r, c, nr, nc, choice) == (true, Apply(p, (r, c, nr, nc), choice))
  {
  }

  class GameState {
    var board: array2<Cell>
    /** The board value `board` holds. */
    ghost var grid: Board
    var whiteToMove: bool
    /** White kingside, White queenside, Black kingside, Black queenside. */
    var castling: Rights
    var enPassant: Option<Coord>
    var moveHistory: seq<Snapshot>
    var halfmoveClock: int
    var fullmoveNumber: int

    ghost predicate Valid()
      reads this, board
    {
      Dims(board) && Holds(board, grid)
    }

    /** The position this object stands for. */
    ghost function Model(): Position
      reads this
    {
      Position(grid, whiteToMove, castling, enPassant, moveHistory, halfmoveClock, fullmoveNumber)
    }

    /** A new game. */
    constructor ()
      ensures Valid() && fresh(board)
      ensures Model() == StartPosition()
    {
      var b := GameState.CreateStartingBoard();
      board := b;
      grid := StartingBoard();
      whiteToMove := true;
      castling := [true, true, true, true];
      enPassant := None;
      moveHistory := [];
      halfmoveClock := 0;
      fullmoveNumber := 1;
    }

    /** A deep copy of `other`: the same position on a board array of its own. */
    constructor Copy(other: GameState)
      requires other.Valid()
      ensures Valid() && fresh(board)
      ensures Model() == other.Model()
    {
      var b := CopyBoard(other.board, other.grid);
      board := b;
      grid := other.grid;
      whiteToMove := other.whiteToMove;
      castling := other.castling;
      enPassant := other.enPassant;
      moveHistory := other.moveHistory;
      halfmoveClock := other.halfmoveClock;
      fullmoveNumber := other.fullmoveNumber;
    }

    /** The starting layout: pawns on rows 1 and 6, the pieces behind them on rows 0 and 7. */
    static method CreateStartingBoard() returns (b: array2<Cell>)
      ensures fresh(b) && Dims(b) && Holds(b, StartingBoard())
    {
      b := new Cell[8, 8]((r, c) => None);
      for c := 0 to 8
        invariant forall i, j :: InBounds(i, j) ==>
          b[i, j] == if i == 1 && j < c then Some('P') else if i == 6 && j < c then Some('p') else None
      {
        b[1, c] := Some('P');
        b[6, c] := Some('p');
      }
      PlaceWhitePieces(b);
      PlaceBlackPieces(b);
      forall i, j | InBounds(i, j) ensures b[i, j] == StartingBoard()[i][j] {
        assert StartingBoard()[i] == StartingRank(i);
      }
    }

    /** White's pieces on row 0. */
    static method PlaceWhitePieces(b: array2<Cell>)
      requires Dims(b)
      modifies b
      ensures forall j :: 0 <= j < 8 ==> b[0, j] == StartingRank(0)[j]
      ensures forall i, j :: InBounds(i, j) && i != 0 ==> b[i, j] == old(b[i, j])
    {
      b[0, 0], b[0, 7] := Some('R'), Some('R');
      b[0, 1], b[0, 6] := Some('N'), Some('N');
      b[0, 2], b[0, 5] := Some('B'), Some('B');
      b[0, 3] := Some('Q');
      b[0, 4] := Some('K');
    }

    /** Black's pieces on row 7. */
    static method PlaceBlackPieces(b: array2<Cell>)
      requires Dims(b)
      modifies b
      ensures forall j :: 0 <= j < 8 ==> b[7, j] == StartingRank(7)[j]
      ensures forall i, j :: InBounds(i, j) && i != 7 ==> b[i, j] == old(b[i, j])
    {
      b[7, 0], b[7, 7] := Some('r'), Some('r');
      b[7, 1], b[7, 6] := Some('n'), Some('n');
      b[7, 2], b[7, 5] := Some('b'), Some('b');
      b[7, 3] := Some('q');
      b[7, 4] := Some('k');
    }

    /** The first square in row-major order holding the king of `color`, if any. */
    static method LocateKing(color: Color, b: array2<Cell>, ghost g: Board) returns (pos: Option<Coord>)
      requires Dims(b) && Holds(b, g)
      ensures pos == ChessRules.LocateKing(g, color)
    {
      var target := KingOf(color);
      for r := 0 to 8
        invariant FindFrom(g, target, 0, 0) == FindFrom(g, target, r, 0)
      {
        for c := 0 to 8
          invariant FindFrom(g, target, 0, 0) == FindFrom(g, target, r, c)
        {
          if b[r, c] == Some(target) {
            var k: Coord := (r, c);
            return Some(k);
          }
        }
      }
      return None;
    }

    /** Whether `color` is in check on `b`: its king is missing or an enemy piece attacks it. */
    static method IsInCheck(color: Color, b: array2<Cell>, ghost g: Board) returns (inCheck: bool)
      requires Dims(b) && Holds(b, g)
      ensures inCheck == ChessRules.IsInCheck(g, color)
    {
      var kingPos := LocateKing(color, b, g);
      if kingPos.None? {
        return true;
      }
      inCheck := AnyAttacker(b, g, Enemy(color), kingPos.value.0, kingPos.value.1);
    }

    /** Whether a piece of the enemy of `color` attacks `square` on the current board. */
    method SquareUnderAttack(square: Coord, color: Color) returns (attacked: bool)
      requires Valid()
      ensures attacked == Attacked(Model().board, Enemy(color), square.0, square.1)
    {
      attacked := AnyAttacker(board, grid, Enemy(color), square.0, square.1);
    }

    /** Kingside castling for `color`: the flag, the two squares between empty, not in check, neither square attacked. */
    method CastleKingside(color: Color) returns (ok: bool)
      requires Valid()
      ensures ok == CanCastleKingside(Model(), color)
    {
      var row := HomeRow(color);
      var flag := if color == White then 0 else 2;
      ok := false;
      if castling[flag] && board[row, 5] == None && board[row, 6] == None {
        var inCheck := IsInCheck(color, board, grid);
        if !inCheck {
          var a5 := SquareUnderAttack((row, 5), color);
          if !a5 {
            var a6 := SquareUnderAttack((row, 6), color);
            ok := !a6;
          }
        }
      }
    }

    /**
     * Queenside castling for `color`: the flag, the three squares between
     * empty, not in check, neither square crossed or reached attacked.
     */
    method CastleQueenside(color: Color) returns (ok: bool)
      requires Valid()
      ensures ok == CanCastleQueenside(Model(), color)
    {
      var row := HomeRow(color);
      var flag := if color == White then 1 else 3;
      ok := false;
      if castling[flag] && board[row, 1] == None && board[row, 2] == None && board[row, 3] == None {
        var inCheck := IsInCheck(color, board, grid);
        if !inCheck {
          var a3 := SquareUnderAttack((row, 3), color);
          if !a3 {
            var a2 := SquareUnderAttack((row, 2), color);
            ok := !a2;
          }
        }
      }
    }

    /** A king's steps, then its castling moves when it stands on its home square. */
    method KingTargets(color: Color, r: int, c: int) returns (moves: seq<Coord>)
      requires Valid() && InBounds(r, c)
      ensures moves == StepMoves(Model().board, color, r, c, KingOffsets) + CastleMoves(Model(), color, r, c)
    {
      moves := StepTargets(board, grid, color, r, c, KingOffsets);
      if r == HomeRow(color) && c == 4 {
        var kingside := CastleKingside(color);
        if kingside {
          moves := moves + [(r, 6)];
        }
        var queenside := CastleQueenside(color);
        if queenside {
          moves := moves + [(r, 2)];
        }
      }
    }

    /** The pseudo-legal destinations of the piece on `(r, c)`, for the colour of that piece. */
    method GenerateMovesForSquare(r: int, c: int) returns (moves: seq<Coord>)
      requires Valid() && InBounds(r, c)
      ensures moves == MovesFrom(Model(), r, c)
    {
      var cell := board[r, c];
      if cell == None {
        return [];
      }
      var piece := cell.value;
      var color := ColorOf(piece);
      var kind := Lower(piece);
      if kind == 'p' {
        moves := PawnTargets(board, Model(), enPassant, color, r, c);
      } else if kind == 'n' {
        moves := StepTargets(board, grid, color, r, c, KnightOffsets);
      } else if kind == 'b' || kind == 'r' || kind == 'q' {
        var directions := [];
        if kind == 'b' || kind == 'q' {
          directions := directions + BishopDirs;
        }
        if kind == 'r' || kind == 'q' {
          directions := directions + RookDirs;
        }
        assert directions == SliderDirs(kind);
        moves := SliderTargets(board, grid, color, r, c, directions);
      } else if kind == 'k' {
        moves := KingTargets(color, r, c);
      } else {
        moves := [];
      }
    }

    /** A copy of the board with `m` played as the legality test plays it. */
    method SimulatedBoard(m: Move) returns (nb: array2<Cell>)
      requires Valid()
      ensures fresh(nb) && Dims(nb) && Holds(nb, Simulate(Model().board, enPassant, m))
    {
      var (r, c, nr, nc) := m;
      nb := CopyBoard(board, grid);
      ghost var g := grid;
      var moving := nb[r, c];
      if moving.Some? && Lower(moving.value) == 'p' && enPassant.Some? && enPassant.value == (nr, nc) && nb[nr, nc] == None {
        SetCell(nb, g, r, nc, None);
        g := Put(g, r, nc, None);
      }
      var x := nb[r, c];
      SetCell(nb, g, nr, nc, x);
      g := Put(g, nr, nc, x);
      SetCell(nb, g, r, c, None);
      g := Put(g, r, c, None);
      assert g == Simulate(grid, enPassant, m);
    }

    /** The moves from `(r, c)` to `candidates` that do not leave `color` in check, in order. */
    method KeepLegal(color: Color, r: int, c: int, candidates: seq<Coord>) returns (here: seq<Move>)
      requires Valid() && InBounds(r, c)
      ensures here == FilterLegal(Model(), color, r, c, candidates)
    {
      ghost var p := Model();
      here := [];
      for i := 0 to |candidates|
        invariant here + FilterLegal(p, color, r, c, candidates[i..]) == FilterLegal(p, color, r, c, candidates)
      {
        here := KeepIfLegal(color, r, c, candidates, i, here);
      }
    }

    /** One candidate of `KeepLegal`: the move is kept when playing it on a copy leaves no check. */
    method KeepIfLegal(color: Color, r: int, c: int, candidates: seq<Coord>, i: int, here: seq<Move>)
      returns (here': seq<Move>)
      requires Valid() && InBounds(r, c) && 0 <= i < |candidates|
      ensures here' + FilterLegal(Model(), color, r, c, candidates[i + 1..]) ==
        here + FilterLegal(Model(), color, r, c, candidates[i..])
    {
      ghost var p := Model();
      var m: Move := (r, c, candidates[i].0, candidates[i].1);
      var nb := SimulatedBoard(m);
      var inCheck := IsInCheck(color, nb, Simulate(p.board, p.enPassant, m));
      FilterLegalStep(p, color, r, c, candidates, i);
      ghost var rest := FilterLegal(p, color, r, c, candidates[i + 1..]);
      if !inCheck {
        assert FilterLegal(p, color, r, c, candidates[i..]) == [m] + rest;
        assert here + [m] + rest == here + ([m] + rest);
        here' := here + [m];
      } else {
        assert FilterLegal(p, color, r, c, candidates[i..]) == [] + rest;
        assert [] + rest == rest;
        here' := here;
      }
    }

    /**
     * One square of the scan: when the piece on `(r, c)` belongs to `color`,
     * its moves that leave no check are appended to `moves`.
     */
    method AppendSquare(color: Color, r: int, c: int, ghost p: Position, moves: seq<Move>) returns (moves': seq<Move>)
      requires Valid() && p == Model() && InBounds(r, c)
      ensures moves' + LegalFrom(p, color, r, c + 1) == moves + LegalFrom(p, color, r, c)
    {
      var piece := board[r, c];
      if piece == None || (color == White && !IsUpper(piece.value)) || (color == Black && !IsLower(piece.value)) {
        LegalFromSkip(p, color, r, c);
        return moves;
      }
      var candidates := GenerateMovesForSquare(r, c);
      var here := KeepLegal(color, r, c, candidates);
      assert here == FilterLegal(p, color, r, c, MovesFrom(p, r, c));
      LegalFromTake(p, color, r, c);
      AppendAssoc(moves, here, LegalFrom(p, color, r, c + 1));
      moves' := moves + here;
    }

    /** The moves of `color` that do not leave its own king attacked, in row-major order of their origin. */
    method GenerateLegalMoves(color: Color) returns (moves: seq<Move>)
      requires Valid()
      ensures moves == LegalMoves(Model(), color)
    {
      ghost var p := Model();
      moves := [];
      for r := 0 to 8
        invariant moves + LegalFrom(p, color, r, 0) == LegalMoves(p, color)
      {
        for c := 0 to 8
          invariant moves + LegalFrom(p, color, r, c) == LegalMoves(p, color)
        {
          moves := AppendSquare(color, r, c, p, moves);
        }
      }
    }

    // -------------------------------------------------------------------------
    // Making and undoing moves.

    /** The en-passant capture step of a move: the piece behind the target square disappears. */
    method CaptureEnPassant(moving: char, nr: int, nc: int)
      requires Valid() && InBounds(nr, nc)
      modifies this`grid, board
      ensures Valid()
      ensures grid == EnPassantCapture(old(grid), enPassant, moving, nr, nc)
    {
      if Lower(moving) == 'p' && enPassant.Some? && enPassant.value == (nr, nc) && board[nr, nc] == None {
        var capR := nr - (if IsUpper(moving) then 1 else -1);
        if InBounds(capR, nc) {
          SetCell(board, grid, capR, nc, None);
          grid := Put(grid, capR, nc, None);
        }
      }
    }

    /** The castling step of a move: a king moving two files brings the corner rook across. */
    method RelocateRook(moving: char, c: int, nc: int)
      requires Valid()
      modifies this`grid, board
      ensures Valid()
      ensures grid == RookRelocation(old(grid), moving, c, nc)
    {
      if Lower(moving) == 'k' && Abs(nc - c) == 2 {
        var row, rook := if IsUpper(moving) then 0 else 7, if IsUpper(moving) then 'R' else 'r';
        var corner, crossed := if nc == 6 then 7 else 0, if nc == 6 then 5 else 3;
        SetCell(board, grid, row, corner, None);
        grid := Put(grid, row, corner, None);
        SetCell(board, grid, row, crossed, Some(rook));
        grid := Put(grid, row, crossed, Some(rook));
      }
    }

    /** The piece on the origin goes to the target, leaving the origin empty. */
    method ShiftPiece(m: Move)
      requires Valid()
      modifies this`grid, board
      ensures Valid()
      ensures grid == MovePiece(old(grid), m)
    {
      var x := board[m.0, m.1];
      SetCell(board, grid, m.2, m.3, x);
      grid := Put(grid, m.2, m.3, x);
      SetCell(board, grid, m.0, m.1, None);
      grid := Put(grid, m.0, m.1, None);
    }

    /** A pawn on the far row becomes the chosen piece, a queen by default. */
    method PromotePawn(nr: int, nc: int, promotionChoice: Option<char>)
      requires Valid() && InBounds(nr, nc)
      modifies this`grid, board
      ensures Valid()
      ensures grid == Promote(old(grid), nr, nc, promotionChoice)
    {
      if board[nr, nc] == Some('P') && nr == 7 {
        var x := Some(Upper(promotionChoice.GetOr('Q')));
        SetCell(board, grid, nr, nc, x);
        grid := Put(grid, nr, nc, x);
      }
      if board[nr, nc] == Some('p') && nr == 0 {
        var x := Some(Lower(promotionChoice.GetOr('q')));
        SetCell(board, grid, nr, nc, x);
        grid := Put(grid, nr, nc, x);
      }
    }

    /** Whether `(r, c, nr, nc)` is one of `moves`, looked up in order. */
    static method Listed(moves: seq<Move>, r: int, c: int, nr: int, nc: int) returns (legal: bool)
      ensures legal <==> InBounds(nr, nc) && (r, c, nr, nc) in moves
    {
      legal := false;
      for i := 0 to |moves|
        invariant !legal && (r, c, nr, nc) !in moves[..i]
      {
        if moves[i] == (r, c, nr, nc) {
          legal := true;
          break;
        }
      }
      assert moves[..|moves|] == moves;
    }

    /**
     * Plays `(r, c)` to `(nr, nc)` when that is a legal move for the colour of
     * the piece on `(r, c)`, pushing a snapshot of the state before it;
     * otherwise reports failure and changes nothing.
     */
    method MakeMove(r: int, c: int, nr: int, nc: int, promotionChoice: Option<char>) returns (ok: bool)
      requires Valid() && InBounds(r, c)
      modifies this, board
      ensures Valid() && board == old(board)
      ensures (ok, Model()) == ChessPlay.MakeMove(old(Model()), r, c, nr, nc, promotionChoice)
    {
      var piece := board[r, c];
      if piece == None {
        return false;
      }
      var color := ColorOf(piece.value);
      var moves := GenerateLegalMoves(color);
      var legal := Listed(moves, r, c, nr, nc);
      MakeMoveListed(Model(), r, c, nr, nc, promotionChoice, legal);
      if !legal {
        return false;
      }
      Play((r, c, nr, nc), promotionChoice);
      return true;
    }

    /**
     * The board steps of an accepted move: the en-passant capture, the castling
     * rook, the piece itself, then promotion.
     */
    method MoveOnBoard(m: Move, promotionChoice: Option<char>)
      requires Valid() && board[m.0, m.1].Some?
      modifies this`grid, board
      ensures Valid()
      ensures grid == BoardAfter(old(grid), enPassant, m, promotionChoice)
    {
      var moving := board[m.0, m.1].value;
      CaptureEnPassant(moving, m.2, m.3);
      RelocateRook(moving, m.1, m.3);
      ShiftPiece(m);
      PromotePawn(m.2, m.3, promotionChoice);
    }

    /** Clears the castling flags the move forfeits, in the order the source checks them. */
    method ClearRights(moving: char, m: Move)
      modifies this`castling
      ensures castling == RightsAfter(old(castling), moving, m)
    {
      var (r, c, nr, nc) := m;
      if moving == 'K' {
        castling := castling[0 := false][1 := false];
      }
      if moving == 'k' {
        castling := castling[2 := false][3 := false];
      }
      if (r, c) == (0, 0) || (nr, nc) == (0, 0) {
        castling := castling[1 := false];
      }
      if (r, c) == (0, 7) || (nr, nc) == (0, 7) {
        castling := castling[0 := false];
      }
      if (r, c) == (7, 0) || (nr, nc) == (7, 0) {
        castling := castling[3 := false];
      }
      if (r, c) == (7, 7) || (nr, nc) == (7, 7) {
        castling := castling[2 := false];
      }
    }

    /** Records the square a two-rank pawn advance skipped, and otherwise clears it. */
    method NoteSkippedSquare(moving: char, m: Move)
      modifies this`enPassant
      ensures enPassant == EnPassantAfter(moving, m)
    {
      enPassant := None;
      if Lower(moving) == 'p' && Abs(m.2 - m.0) == 2 {
        var skipped: Coord := ((m.0 + m.2) / 2, m.1);
        enPassant := Some(skipped);
      }
    }

    /** Saves the position before `m` on the history stack. */
    method PushSnapshot(m: Move)
      requires Valid()
      modifies this`moveHistory
      ensures Valid()
      ensures moveHistory == old(moveHistory) + [SnapshotOf(old(Model()), m)]
    {
      var (r, c, nr, nc) := m;
      GridIs(board, grid);
      var snapshot := Snapshot(Grid(board), whiteToMove, castling, enPassant, halfmoveClock, fullmoveNumber,
                               MoveText(r, c, nr, nc));
      moveHistory := moveHistory + [snapshot];
    }

    /** The steps of an accepted move, in the order the source takes them. */
    method Play(m: Move, promotionChoice: Option<char>)
      requires Valid() && board[m.0, m.1].Some?
      modifies this, board
      ensures Valid() && board == old(board)
      ensures Model() == Apply(old(Model()), m, promotionChoice)
    {
      var moving := board[m.0, m.1].value;
      PlayOnBoard(m, promotionChoice);
      PlayFlags(moving, m);
    }

    /** The snapshot, the half-move clock and the board changes of an accepted move. */
    method PlayOnBoard(m: Move, promotionChoice: Option<char>)
      requires Valid() && board[m.0, m.1].Some?
      modifies this`moveHistory, this`halfmoveClock, this`grid, board
      ensures Valid()
      ensures var p := old(Model());
        Model() == p.(board := BoardAfter(p.board, p.enPassant, m, promotionChoice),
                      moveHistory := p.moveHistory + [SnapshotOf(p, m)],
                      halfmoveClock := HalfmoveAfter(p.halfmoveClock, p.board[m.0][m.1].value, p.board[m.2][m.3]))
    {
      ghost var p := Model();
      var (r, c, nr, nc) := m;
      PushSnapshot(m);

      var moving := board[r, c].value;
      var target := board[nr, nc];
      assert moving == p.board[r][c].value && target == p.board[nr][nc];
      if Lower(moving) == 'p' || target != None {
        halfmoveClock := 0;
      } else {
        halfmoveClock := halfmoveClock + 1;
      }

      MoveOnBoard(m, promotionChoice);
    }

    /** The castling rights, the en-passant square, the side to move and the move number after `moving` made `m`. */
    method PlayFlags(moving: char, m: Move)
      modifies this`castling, this`enPassant, this`whiteToMove, this`fullmoveNumber
      ensures var p := old(Model());
        Model() == p.(castling := RightsAfter(p.castling, moving, m), enPassant := EnPassantAfter(moving, m),
                      whiteToMove := !p.whiteToMove,
                      fullmoveNumber := if p.whiteToMove then p.fullmoveNumber + 1 else p.fullmoveNumber)
    {
      ClearRights(moving, m);

      NoteSkippedSquare(moving, m);

      whiteToMove := !whiteToMove;
      if !whiteToMove {
        fullmoveNumber := fullmoveNumber + 1;
      }
    }

    /** Restores the latest snapshot and drops it from the history; fails when there is none. */
    method UndoMove() returns (ok: bool)
      requires Valid()
      modifies this
      ensures Valid()
      ensures (ok, Model()) == ChessPlay.UndoMove(old(Model()))
    {
      if moveHistory == [] {
        return false;
      }
      var last := moveHistory[|moveHistory| - 1];
      moveHistory := moveHistory[..|moveHistory| - 1];
      var b := FromGrid(last.board);
      board, grid := b, last.board;
      whiteToMove := last.whiteToMove;
      castling := last.castling;
      enPassant := last.enPassant;
      halfmoveClock := last.halfmoveClock;
      fullmoveNumber := last.fullmoveNumber;
      return true;
    }

    // -------------------------------------------------------------------------
    // Saving and loading.

    /** The saved form of the current state. */
    method ToJson() returns (d: SavedGame)
      requires Valid()
      ensures d == ChessPlay.ToJson(Model())
    {
      GridIs(board, grid);
      d := SavedGame(Some(Grid(board)), Some(whiteToMove), Some(castling), enPassant,
                     Some(moveHistory), Some(halfmoveClock), Some(fullmoveNumber));
    }

    /**
     * Loads the fields of `d` one after the other; a missing board, side to
     * move or castling field stops the load, after the fields before it have
     * been replaced.
     */
    method LoadJson(d: SavedGame) returns (ok: bool)
      requires Valid()
      modifies this
      ensures Valid()
      ensures (ok, Model()) == ChessPlay.LoadJson(old(Model()), d)
    {
      if d.board.None? {
        return false;
      }
      var b := FromGrid(d.board.value);
      board, grid := b, d.board.value;
      if d.whiteToMove.None? {
        return false;
      }
      whiteToMove := d.whiteToMove.value;
      if d.castling.None? {
        return false;
      }
      castling := d.castling.value;
      enPassant := d.enPassant;
      moveHistory := d.moveHistory.GetOr([]);
      halfmoveClock := d.halfmoveClock.GetOr(0);
      fullmoveNumber := d.fullmoveNumber.GetOr(1);
      return true;
    }
  }
}
