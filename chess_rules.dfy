/**
 * The board of the chess engine and its attack geometry, as values.
 *
 * A board is an 8x8 grid of optional piece letters: upper case is White,
 * lower case is Black, and the letter (P N B R Q K) is the kind. Row 0 is
 * White's home rank and row 7 Black's. Character case is ASCII case.
 */
module ChessRules {
  import opened Wrappers

  type Cell = Option<char>

  /** An 8x8 grid of cells, indexed `b[row][col]`. */
  type Board = b: seq<seq<Cell>> | |b| == 8 && forall r :: 0 <= r < 8 ==> |b[r]| == 8
    witness seq(8, _ => seq(8, _ => None))

  datatype Color = White | Black

  function Enemy(color: Color): Color {
    if color == White then Black else White
  }

  predicate InBounds(r: int, c: int) {
    0 <= r < 8 && 0 <= c < 8
  }

  /** A square on the board, `(row, col)`. */
  type Coord = s: (int, int) | InBounds(s.0, s.1) witness (0, 0)

  /** A move `(row, col, newRow, newCol)` between two squares on the board. */
  type Move = m: (int, int, int, int) | InBounds(m.0, m.1) && InBounds(m.2, m.3)
    witness (0, 0, 0, 0)

  predicate IsUpper(ch: char) { 'A' <= ch <= 'Z' }

  predicate IsLower(ch: char) { 'a' <= ch <= 'z' }

  function Lower(ch: char): (r: char)
    ensures IsUpper(ch) ==> IsLower(r)
    ensures !IsUpper(ch) ==> r == ch
  {
    if IsUpper(ch) then (ch as int + 32) as char else ch
  }

  function Upper(ch: char): (r: char)
    ensures IsLower(ch) ==> IsUpper(r)
    ensures !IsLower(ch) ==> r == ch
  {
    if IsLower(ch) then (ch as int - 32) as char else ch
  }

  /** The colour the move generator and the attack test give a piece letter. */
  function ColorOf(piece: char): Color {
    if IsUpper(piece) then White else Black
  }

  /** The filter the board scans apply: White owns upper case, Black lower case. */
  predicate Owns(color: Color, piece: char) {
    if color == White then IsUpper(piece) else IsLower(piece)
  }

  function KingOf(color: Color): char {
    if color == White then 'K' else 'k'
  }

  function Abs(x: int): nat { if x < 0 then -x else x }

  function Max(x: int, y: int): int { if x < y then y else x }

  function Sign(x: int): int { if x > 0 then 1 else if x < 0 then -1 else 0 }

  /** The board with the cell at `(r, c)` replaced by `x`. */
  function Put(b: Board, r: int, c: int, x: Cell): (b': Board)
    requires InBounds(r, c)
    ensures forall i, j :: InBounds(i, j) ==> b'[i][j] == if i == r && j == c then x else b[i][j]
  {
    b[r := b[r][c := x]]
  }

  /** The rank that `row` of the starting position holds, left to right. */
  function StartingRank(row: int): seq<Cell> {
    if row == 0 then [Some('R'), Some('N'), Some('B'), Some('Q'), Some('K'), Some('B'), Some('N'), Some('R')]
    else if row == 1 then seq(8, _ => Some('P'))
    else if row == 6 then seq(8, _ => Some('p'))
    else if row == 7 then [Some('r'), Some('n'), Some('b'), Some('q'), Some('k'), Some('b'), Some('n'), Some('r')]
    else seq(8, _ => None)
  }

  function StartingBoard(): Board {
    seq(8, r => StartingRank(r))
  }

  // ---------------------------------------------------------------------------
  // Locating a king: the first square in row-major order holding it.

  /** `(r, c)` comes strictly before `(r0, c0)` in row-major order. */
  predicate Before(r: int, c: int, r0: int, c0: int) {
    r < r0 || (r == r0 && c < c0)
  }

  /** The first square at or after `(r, c)`, in row-major order, that holds `t`. */
  function FindFrom(b: Board, t: char, r: int, c: int): Option<Coord>
    requires 0 <= r <= 8 && 0 <= c <= 8
    decreases 8 - r, 8 - c
  {
    if r == 8 then None
    else if c == 8 then FindFrom(b, t, r + 1, 0)
    else if b[r][c] == Some(t) then Some((r, c))
    else FindFrom(b, t, r, c + 1)
  }

  function LocateKing(b: Board, color: Color): Option<Coord> {
    FindFrom(b, KingOf(color), 0, 0)
  }

  lemma {:induction false} FindFromSpec(b: Board, t: char, r0: int, c0: int)
    requires 0 <= r0 <= 8 && 0 <= c0 <= 8
    decreases 8 - r0, 8 - c0
    ensures FindFrom(b, t, r0, c0).None? <==>
      forall r, c :: InBounds(r, c) && !Before(r, c, r0, c0) ==> b[r][c] != Some(t)
    ensures FindFrom(b, t, r0, c0).Some? ==>
      var k := FindFrom(b, t, r0, c0).value;
      b[k.0][k.1] == Some(t) && !Before(k.0, k.1, r0, c0) &&
      forall r, c :: InBounds(r, c) && !Before(r, c, r0, c0) && Before(r, c, k.0, k.1) ==> b[r][c] != Some(t)
  {
    if r0 == 8 {
    } else if c0 == 8 {
      FindFromSpec(b, t, r0 + 1, 0);
    } else if b[r0][c0] == Some(t) {
    } else {
      FindFromSpec(b, t, r0, c0 + 1);
    }
  }

  /** LocateKing finds a king of `color` when there is one, and the first one. */
  lemma LocateKingSpec(b: Board, color: Color)
    ensures LocateKing(b, color).None? <==> forall r, c :: InBounds(r, c) ==> b[r][c] != Some(KingOf(color))
    ensures LocateKing(b, color).Some? ==>
      var k := LocateKing(b, color).value;
      b[k.0][k.1] == Some(KingOf(color)) &&
      forall r, c :: InBounds(r, c) && Before(r, c, k.0, k.1) ==> b[r][c] != Some(KingOf(color))
  {
    FindFromSpec(b, KingOf(color), 0, 0);
  }

  // ---------------------------------------------------------------------------
  // Attacks.

  /** `i` steps of size `s` (one of -1, 0, 1). */
  function Offset(s: int, i: int): int {
    if s > 0 then i else if s < 0 then -i else 0
  }

  predicate UnitStep(sr: int, sc: int) {
    -1 <= sr <= 1 && -1 <= sc <= 1
  }

  /** The squares 1 .. n-1 steps from `(r, c)` along `(sr, sc)` are empty. */
  predicate ClearPath(b: Board, r: int, c: int, sr: int, sc: int, n: nat)
    requires InBounds(r, c) && UnitStep(sr, sc)
    requires InBounds(r + Offset(sr, n), c + Offset(sc, n))
    decreases n
  {
    n <= 1 || (b[r + sr][c + sc] == None && ClearPath(b, r + sr, c + sc, sr, sc, n - 1))
  }

  /** The cell `i` steps from `(r, c)` along `(sr, sc)`. */
  function RayCell(b: Board, r: int, c: int, sr: int, sc: int, i: int): Cell
    requires InBounds(r + Offset(sr, i), c + Offset(sc, i))
  {
    b[r + Offset(sr, i)][c + Offset(sc, i)]
  }

  /** Whether the offset `(dr, dc)` lies on the lines a slider of kind `kind` moves along. */
  predicate SliderLine(kind: char, dr: int, dc: int) {
    if kind == 'b' then Abs(dr) == Abs(dc) && dr != 0
    else if kind == 'r' then dr == 0 || dc == 0
    else (Abs(dr) == Abs(dc) && dr != 0) || (dr == 0 && dc != 0) || (dc == 0 && dr != 0)
  }

  /** Whether the piece on `(r, c)` attacks `(tr, tc)`; an empty square attacks nothing. */
  predicate Attacks(b: Board, r: int, c: int, tr: int, tc: int)
    requires InBounds(r, c) && InBounds(tr, tc)
  {
    match b[r][c]
    case None => false
    case Some(p) =>
      var dr := tr - r;
      var dc := tc - c;
      var kind := Lower(p);
      if kind == 'p' then dr == (if IsUpper(p) then 1 else -1) && Abs(dc) == 1
      else if kind == 'n' then (Abs(dr) == 1 && Abs(dc) == 2) || (Abs(dr) == 2 && Abs(dc) == 1)
      else if kind == 'b' || kind == 'r' || kind == 'q' then
        SliderLine(kind, dr, dc) && ClearPath(b, r, c, Sign(dr), Sign(dc), Max(Abs(dr), Abs(dc)))
      else if kind == 'k' then Max(Abs(dr), Abs(dc)) == 1
      else false
  }

  /** Some piece that `side` owns attacks `(sr, sc)`. */
  predicate Attacked(b: Board, side: Color, sr: int, sc: int)
    requires InBounds(sr, sc)
  {
    exists r, c | 0 <= r < 8 && 0 <= c < 8 ::
      b[r][c].Some? && Owns(side, b[r][c].value) && Attacks(b, r, c, sr, sc)
  }

  /** A side is in check when its king is missing or an enemy piece attacks it. */
  predicate IsInCheck(b: Board, color: Color) {
    match LocateKing(b, color)
    case None => true
    case Some(k) => Attacked(b, Enemy(color), k.0, k.1)
  }

  // ---------------------------------------------------------------------------
  // Properties.

  lemma {:induction false} ClearPathIff(b: Board, r: int, c: int, sr: int, sc: int, n: nat)
    requires InBounds(r, c) && UnitStep(sr, sc)
    requires InBounds(r + Offset(sr, n), c + Offset(sc, n))
    decreases n
    ensures ClearPath(b, r, c, sr, sc, n) <==>
      forall i :: 1 <= i < n ==> RayCell(b, r, c, sr, sc, i) == None
  {
    if n > 1 {
      var r1, c1 := r + sr, c + sc;
      ClearPathIff(b, r1, c1, sr, sc, n - 1);
      assert RayCell(b, r, c, sr, sc, 1) == b[r1][c1];
      if ClearPath(b, r, c, sr, sc, n) {
        forall i | 1 <= i < n ensures RayCell(b, r, c, sr, sc, i) == None {
          if i > 1 {
            assert RayCell(b, r1, c1, sr, sc, i - 1) == RayCell(b, r, c, sr, sc, i);
          }
        }
      } else if b[r1][c1] == None {
        var j :| 1 <= j < n - 1 && RayCell(b, r1, c1, sr, sc, j) != None;
        assert RayCell(b, r1, c1, sr, sc, j) == RayCell(b, r, c, sr, sc, j + 1);
      }
    }
  }

  /** The direction, -1, 0 or 1, from `x` towards `y`. */
  function Dir(x: int, y: int): int {
    Sign(y - x)
  }

  /**
   * A bishop, rook or queen attacks a square exactly when the offset lies on
   * one of its lines and every square strictly between is empty. The rook's
   * test lets a zero offset through, as the source's does.
   */
  lemma SliderAttacks(b: Board, r: int, c: int, tr: int, tc: int)
    requires InBounds(r, c) && InBounds(tr, tc)
    requires b[r][c].Some? && Lower(b[r][c].value) in {'b', 'r', 'q'}
    ensures Attacks(b, r, c, tr, tc) <==>
      SliderLine(Lower(b[r][c].value), tr - r, tc - c) &&
      forall i :: 1 <= i < Max(Abs(tr - r), Abs(tc - c)) ==>
        RayCell(b, r, c, Dir(r, tr), Dir(c, tc), i) == None
  {
    var dr, dc := tr - r, tc - c;
    assert Dir(r, tr) == Sign(dr) && Dir(c, tc) == Sign(dc);
    if SliderLine(Lower(b[r][c].value), dr, dc) {
      ClearPathIff(b, r, c, Sign(dr), Sign(dc), Max(Abs(dr), Abs(dc)));
    }
  }

  /**
   * When `(kr, kc)` holds the only king of `color`, the side is in check
   * exactly when some enemy piece attacks that square.
   */
  lemma CheckIffKingAttacked(b: Board, color: Color, kr: int, kc: int)
    requires InBounds(kr, kc) && b[kr][kc] == Some(KingOf(color))
    requires forall r, c :: InBounds(r, c) && b[r][c] == Some(KingOf(color)) ==> r == kr && c == kc
    ensures IsInCheck(b, color) <==>
      exists r, c :: InBounds(r, c) && b[r][c].Some? && Owns(Enemy(color), b[r][c].value) &&
        Attacks(b, r, c, kr, kc)
  {
    LocateKingSpec(b, color);
  }

  /** With no king of its colour on the board a side counts as in check. */
  lemma NoKingIsCheck(b: Board, color: Color)
    requires forall r, c :: InBounds(r, c) ==> b[r][c] != Some(KingOf(color))
    ensures IsInCheck(b, color)
  {
    LocateKingSpec(b, color);
  }
}
