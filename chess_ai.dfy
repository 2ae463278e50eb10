/**
 * The computer player: a material-plus-mobility evaluation, a fixed-depth
 * minimax search with alpha-beta pruning over copies of the game state, and
 * the three move-selection levels.
 *
 * The search is proved against an unpruned reference value defined on
 * position values; random choices are an index `pick` supplied by the caller.
 */
module ChessAI {
  import opened Wrappers
  import opened ChessRules
  import opened ChessMoves
  import opened ChessPlay
  import opened ChessState

  // ---------------------------------------------------------------------------
  // Evaluation.

  /** The piece-value table, with the value the caller gives for any other letter. */
  function PieceValue(kind: char, default: int): int {
    if kind == 'p' then 1
    else if kind == 'n' || kind == 'b' then 3
    else if kind == 'r' then 5
    else if kind == 'q' then 9
    else if kind == 'k' then 1000
    else default
  }

  /** An upper-case piece counts for White, any other letter against it. */
  function CellValue(x: Cell): int {
    match x
    case None => 0
    case Some(piece) => if IsUpper(piece) then PieceValue(Lower(piece), 0) else -PieceValue(Lower(piece), 0)
  }

  /** The material balance of the cells at or after `(r, c)` in row-major order. */
  function MaterialFrom(b: Board, r: int, c: int): int
    requires 0 <= r <= 8 && 0 <= c <= 8
    decreases 8 - r, 8 - c
  {
    if r == 8 then 0
    else if c == 8 then MaterialFrom(b, r + 1, 0)
    else CellValue(b[r][c]) + MaterialFrom(b, r, c + 1)
  }

  function Material(b: Board): int {
    MaterialFrom(b, 0, 0)
  }

  /** White's material minus Black's, plus a twentieth of White's surplus of legal moves. */
  function Evaluate(p: Position): real {
    Material(p.board) as real + 0.05 * (|LegalMoves(p, White)| - |LegalMoves(p, Black)|) as real
  }

  /** The scan of the board, then the two move counts. */
  method EvaluateBoard(gs: GameState) returns (score: real)
    requires gs.Valid()
    ensures score == Evaluate(gs.Model())
  {
    ghost var g := gs.grid;
    var material := 0;
    for r := 0 to 8
      invariant material + MaterialFrom(g, r, 0) == Material(g)
    {
      for c := 0 to 8
        invariant material + MaterialFrom(g, r, c) == Material(g)
      {
        var x := gs.board[r, c];
        if x == None {
          continue;
        }
        var v := PieceValue(Lower(x.value), 0);
        if IsUpper(x.value) {
          material := material + v;
        } else {
          material := material - v;
        }
      }
    }
    var whiteMoves := gs.GenerateLegalMoves(White);
    var blackMoves := gs.GenerateLegalMoves(Black);
    score := material as real + 0.05 * (|whiteMoves| - |blackMoves|) as real;
  }

  // ---------------------------------------------------------------------------
  // Scores with infinities, for the search window.

  datatype Bound = NegInf | Finite(value: real) | PosInf

  /** Strictly less. */
  predicate Below(a: Bound, b: Bound) {
    match a
    case NegInf => !b.NegInf?
    case Finite(x) => b.PosInf? || (b.Finite? && x < b.value)
    case PosInf => false
  }

  predicate AtMost(a: Bound, b: Bound) {
    !Below(b, a)
  }

  /** `max(a, b)`: `b` only when it is strictly greater. */
  function Larger(a: Bound, b: Bound): Bound {
    if Below(a, b) then b else a
  }

  /** `min(a, b)`: `b` only when it is strictly smaller. */
  function Smaller(a: Bound, b: Bound): Bound {
    if Below(b, a) then b else a
  }

  // ---------------------------------------------------------------------------
  // The search tree.

  function SideOf(maximizing: bool): Color {
    if maximizing then White else Black
  }

  /** The promotion letter the search passes: a queen for a pawn reaching the far row, else none. */
  function PromoFor(p: Position, m: Move): Option<char> {
    var x := p.board[m.0][m.1];
    if x.Some? && Lower(x.value) == 'p' then
      if IsUpper(x.value) && m.2 == 7 then Some('Q')
      else if IsLower(x.value) && m.2 == 0 then Some('q')
      else None
    else None
  }

  /** The position a search step moves to: `m` played on a copy. */
  function Child(p: Position, m: Move): Position {
    ChessPlay.MakeMove(p, m.0, m.1, m.2, m.3, PromoFor(p, m)).1
  }

  /** The score of a side with no legal move: mated, or a draw. */
  function Terminal(p: Position, maximizing: bool): real {
    if IsInCheck(p.board, SideOf(maximizing)) then (if maximizing then -9999.0 else 9999.0) else 0.0
  }

  /** The better of two scores for the side choosing. */
  function Prefer(maximizing: bool, a: Bound, b: Bound): Bound {
    if maximizing then Larger(a, b) else Smaller(a, b)
  }

  function Worst(maximizing: bool): Bound {
    if maximizing then NegInf else PosInf
  }

  /** The plain minimax value, with every child searched to the full depth. */
  function MinimaxValue(p: Position, depth: nat, maximizing: bool): Bound
    decreases depth, 2
  {
    if depth == 0 then Finite(Evaluate(p))
    else
      var moves := LegalMoves(p, SideOf(maximizing));
      if moves == [] then Finite(Terminal(p, maximizing))
      else BestOf(maximizing, ChildValues(p, depth, maximizing, moves), |moves|)
  }

  /** The values of the children reached by `moves`, in order. */
  function ChildValues(p: Position, depth: nat, maximizing: bool, moves: seq<Move>): (vals: seq<Bound>)
    requires 1 <= depth
    decreases depth, 1, |moves|
    ensures |vals| == |moves|
  {
    if moves == [] then []
    else [MoveValue(p, moves[0], depth - 1, !maximizing)] + ChildValues(p, depth, maximizing, moves[1..])
  }

  /** The value of playing `m` from `p`: the value of the child, `depth` plies deep. */
  function MoveValue(p: Position, m: Move, depth: nat, maximizing: bool): Bound
    decreases depth, 3
  {
    MinimaxValue(Child(p, m), depth, maximizing)
  }

  /** The best of the first `n` values, for the side choosing. */
  function BestOf(maximizing: bool, vals: seq<Bound>, n: nat): Bound
    requires n <= |vals|
  {
    if n == 0 then Worst(maximizing)
    else Prefer(maximizing, BestOf(maximizing, vals, n - 1), vals[n - 1])
  }

  /**
   * What a search with window `(alpha, beta)` promises about its score `v`
   * against the true value `t`: exact strictly inside the window, an upper
   * bound at or below `alpha`, a lower bound at or above `beta`.
   */
  predicate Window(alpha: Bound, beta: Bound, v: Bound, t: Bound) {
    (Below(alpha, v) && Below(v, beta) ==> v == t) &&
    (AtMost(v, alpha) ==> AtMost(t, v)) &&
    (AtMost(beta, v) ==> AtMost(v, t))
  }

  // ---------------------------------------------------------------------------
  // Properties of the order and of the reference value.

  lemma AtMostTrans(a: Bound, b: Bound, c: Bound)
    requires AtMost(a, b) && AtMost(b, c)
    ensures AtMost(a, c)
  {
  }

  /** `BestOf` only improves as more values are seen. */
  lemma {:induction false} BestOfMonotone(maximizing: bool, vals: seq<Bound>, i: nat, j: nat)
    requires i <= j <= |vals|
    ensures maximizing ==> AtMost(BestOf(maximizing, vals, i), BestOf(maximizing, vals, j))
    ensures !maximizing ==> AtMost(BestOf(maximizing, vals, j), BestOf(maximizing, vals, i))
    decreases j
  {
    if i < j {
      BestOfMonotone(maximizing, vals, i, j - 1);
    }
  }

  lemma BestOfNext(maximizing: bool, vals: seq<Bound>, n: nat)
    requires n < |vals|
    ensures BestOf(maximizing, vals, n + 1) == Prefer(maximizing, BestOf(maximizing, vals, n), vals[n])
  {
  }

  /** The best of a prefix is at least as good as every value in it. */
  lemma {:induction false} BestOfBounds(maximizing: bool, vals: seq<Bound>, k: nat, n: nat)
    requires k < n <= |vals|
    ensures maximizing ==> AtMost(vals[k], BestOf(maximizing, vals, n))
    ensures !maximizing ==> AtMost(BestOf(maximizing, vals, n), vals[k])
  {
    BestOfMonotone(maximizing, vals, k + 1, n);
  }

  // ---------------------------------------------------------------------------
  // The search.

  /**
   * Minimax with alpha-beta pruning. The children of a node are searched in
   * generation order on copies of `gs`; a child replaces the best move only
   * when it is strictly better, and the siblings are cut off once the window
   * closes. `gs` itself is not changed.
   */
  method Minimax(gs: GameState, ghost p: Position, depth: nat, alpha: Bound, beta: Bound, maximizing: bool)
    returns (value: Bound, best: Option<Move>)
    requires gs.Valid() && gs.Model() == p
    decreases 3 * depth + 2
    ensures value.Finite?
    ensures Below(alpha, beta) ==> Window(alpha, beta, value, MinimaxValue(p, depth, maximizing))
    ensures alpha == NegInf && beta == PosInf ==> value == MinimaxValue(p, depth, maximizing)
    ensures depth == 0 ==> value == Finite(Evaluate(p)) && best == None
    ensures var moves := LegalMoves(p, SideOf(maximizing));
      depth > 0 ==> (best.Some? <==> moves != []) && (best.Some? ==> best.value in moves)
    ensures depth > 0 && LegalMoves(p, SideOf(maximizing)) == [] ==>
      value == Finite(Terminal(p, maximizing))
    ensures var moves := LegalMoves(p, SideOf(maximizing));
      depth > 0 && best.Some? && Below(alpha, value) && Below(value, beta) ==>
        MoveValue(p, best.value, depth - 1, !maximizing) == value &&
        exists i :: 0 <= i < |moves| && moves[i] == best.value &&
          forall j :: 0 <= j < i ==> MoveValue(p, moves[j], depth - 1, !maximizing) != value
  {
    if depth == 0 {
      var score := EvaluateBoard(gs);
      return Finite(score), None;
    }
    var color := SideOf(maximizing);
    var moves := gs.GenerateLegalMoves(color);
    if moves == [] {
      var inCheck := GameState.IsInCheck(color, gs.board, gs.grid);
      if inCheck {
        return Finite(if maximizing then -9999.0 else 9999.0), None;
      }
      return Finite(0.0), None;
    }
    ghost var bi;
    value, best, bi := SearchChildren(gs, p, depth, alpha, beta, maximizing, moves, ChildValues(p, depth, maximizing, moves));
    if Below(alpha, value) && Below(value, beta) {
      FirstBestValue(p, depth, maximizing, moves, bi, value);
    }
  }

  /** The loop over the children of a node with at least one legal move. */
  method SearchChildren(gs: GameState, ghost p: Position, depth: nat, alpha: Bound, beta: Bound, maximizing: bool,
                        moves: seq<Move>, ghost vals: seq<Bound>)
    returns (value: Bound, best: Option<Move>, ghost bi: nat)
    requires gs.Valid() && gs.Model() == p && depth >= 1 && moves != []
    requires vals == ChildValues(p, depth, maximizing, moves)
    decreases 3 * depth + 1
    ensures value.Finite? && best.Some? && best.value in moves
    ensures Below(alpha, beta) ==> Window(alpha, beta, value, BestOf(maximizing, vals, |vals|))
    ensures FirstBest(alpha, beta, vals, moves, |vals|, value, best, bi)
  {
    var a, b := alpha, beta;
    value := Worst(maximizing);
    best := None;
    bi := 0;
    var i := 0;
    while i < |moves|
      invariant 0 <= i <= |moves| && |vals| == |moves|
      invariant i == 0 <==> best == None
      invariant i == 0 ==> value == Worst(maximizing)
      invariant i > 0 ==> value.Finite? && best.value in moves
      invariant Searched(maximizing, alpha, beta, vals, i, value, a, b)
      invariant FirstBest(alpha, beta, vals, moves, i, value, best, bi)
      decreases |moves| - i
    {
      var v := SearchChild(gs, p, depth, a, b, maximizing, moves, i, vals);
      value, best, a, b, bi := Absorb(maximizing, alpha, beta, vals, moves, i, value, best, bi, a, b, v);
      i := i + 1;
      if AtMost(b, a) {
        return;
      }
    }
    ExitWindow(maximizing, alpha, beta, vals, value, a, b);
  }

  /**
   * The state of a node after its first `n` children: the window tracks the
   * running best `value`, which bounds the best `n` child values from the
   * chooser's side and equals it whenever it lies inside `(alpha, beta)`.
   */
  predicate Searched(maximizing: bool, alpha: Bound, beta: Bound, vals: seq<Bound>, n: nat, value: Bound, a: Bound, b: Bound)
    requires n <= |vals|
  {
    (maximizing ==> b == beta && a == Larger(alpha, value)) &&
    (!maximizing ==> a == alpha && b == Smaller(beta, value)) &&
    (Below(alpha, beta) ==> Below(a, b)) &&
    (Below(alpha, beta) && maximizing ==>
      AtMost(BestOf(maximizing, vals, n), value) && (Below(alpha, value) ==> AtMost(value, BestOf(maximizing, vals, n)))) &&
    (Below(alpha, beta) && !maximizing ==>
      AtMost(value, BestOf(maximizing, vals, n)) && (Below(value, beta) ==> AtMost(BestOf(maximizing, vals, n), value)))
  }

  /**
   * The running best move is `moves[bi]`, one of the first `n`. When the
   * running best score lies strictly inside `(alpha, beta)` it is that move's
   * true value, and no earlier move has that value.
   */
  predicate FirstBest(alpha: Bound, beta: Bound, vals: seq<Bound>, moves: seq<Move>, n: nat, value: Bound, best: Option<Move>, bi: nat)
    requires |vals| == |moves| && n <= |vals|
  {
    best.Some? ==>
      bi < n && best.value == moves[bi] &&
      (Below(alpha, value) && Below(value, beta) ==> vals[bi] == value && forall j :: 0 <= j < bi ==> vals[j] != value)
  }

  /**
   * Takes the score `v` of child `n` (reached by `moves[n]`) into account: a strictly
   * better score replaces the running best and its move, and the window
   * narrows on the chooser's side. If the window closes, the running best is
   * already a correct bound for the whole node; otherwise the state is the one
   * after `n + 1` children.
   */
  method Absorb(maximizing: bool, alpha: Bound, beta: Bound, ghost vals: seq<Bound>, moves: seq<Move>, n: nat,
                value: Bound, best: Option<Move>, ghost bi: nat, a: Bound, b: Bound, v: Bound)
    returns (value': Bound, best': Option<Move>, a': Bound, b': Bound, ghost bi': nat)
    requires n < |vals| == |moves| && Searched(maximizing, alpha, beta, vals, n, value, a, b)
    requires (best == None ==> value == Worst(maximizing)) && (best.Some? ==> value.Finite?)
    requires FirstBest(alpha, beta, vals, moves, n, value, best, bi)
    requires v.Finite? && (Below(a, b) ==> Window(a, b, v, vals[n]))
    ensures value'.Finite? && best'.Some? && (best' == best || best' == Some(moves[n]))
    ensures FirstBest(alpha, beta, vals, moves, n + 1, value', best', bi')
    ensures AtMost(b', a') && Below(alpha, beta) ==> Window(alpha, beta, value', BestOf(maximizing, vals, |vals|))
    ensures !AtMost(b', a') ==> Searched(maximizing, alpha, beta, vals, n + 1, value', a', b')
  {
    value', best', a', b', bi' := value, best, a, b, bi;
    if maximizing {
      if Below(value, v) {
        value', best', bi' := v, Some(moves[n]), n;
        if Below(alpha, v) && Below(v, beta) {
          NoEarlierEqual(maximizing, vals, n, value, v);
        }
      }
      a' := Larger(a, v);
    } else {
      if Below(v, value) {
        value', best', bi' := v, Some(moves[n]), n;
        if Below(alpha, v) && Below(v, beta) {
          NoEarlierEqual(maximizing, vals, n, value, v);
        }
      }
      b' := Smaller(b, v);
    }
    if Below(alpha, beta) {
      if maximizing {
        MaxStep(maximizing, alpha, beta, vals, n + 1, value, a, v, value', a');
      } else {
        MinStep(maximizing, alpha, beta, vals, n + 1, value, b, v, value', b');
      }
      if AtMost(b', a') {
        CutoffBound(maximizing, vals, n + 1, alpha, beta, value');
      }
    }
  }

  /** The score of the child reached by `moves[i]`, searched one level down. */
  method SearchChild(gs: GameState, ghost p: Position, depth: nat, a: Bound, b: Bound, maximizing: bool,
                     moves: seq<Move>, i: nat, ghost vals: seq<Bound>)
    returns (v: Bound)
    requires gs.Valid() && gs.Model() == p && depth >= 1 && i < |moves|
    requires vals == ChildValues(p, depth, maximizing, moves)
    decreases 3 * depth
    ensures v.Finite?
    ensures Below(a, b) ==> Window(a, b, v, vals[i])
  {
    var child := PlayOnCopy(gs, p, moves[i]);
    var childBest;
    v, childBest := Minimax(child, Child(p, moves[i]), depth - 1, a, b, !maximizing);
    ChildValueAt(p, depth, maximizing, moves, i);
  }

  /** A copy of `gs` with `m` played on it, promoting a pawn to a queen. */
  method PlayOnCopy(gs: GameState, ghost p: Position, m: Move) returns (child: GameState)
    requires gs.Valid() && gs.Model() == p
    ensures fresh(child) && child.Valid() && child.Model() == Child(p, m)
  {
    var (r, c, nr, nc) := m;
    child := new GameState.Copy(gs);
    var moving := child.board[r, c];
    var promo := None;
    if moving.Some? && Lower(moving.value) == 'p' {
      if IsUpper(moving.value) && nr == 7 {
        promo := Some('Q');
      }
      if IsLower(moving.value) && nr == 0 {
        promo := Some('q');
      }
    }
    assert promo == PromoFor(p, m);
    var _ := child.MakeMove(r, c, nr, nc, promo);
  }

  // ---------------------------------------------------------------------------
  // The steps of the correctness proof of the pruning.

  lemma {:induction false} ChildValueAt(p: Position, depth: nat, maximizing: bool, moves: seq<Move>, i: nat)
    requires 1 <= depth && i < |moves|
    ensures ChildValues(p, depth, maximizing, moves)[i] == MinimaxValue(Child(p, moves[i]), depth - 1, !maximizing)
    decreases i
  {
    if i > 0 {
      ChildValueAt(p, depth, maximizing, moves[1..], i - 1);
    }
  }

  /**
   * One child of a maximizing node. Before it, the running best `bv` bounds
   * the true best `bp` of the children seen from above, and equals it once
   * it is above `alpha`; the child's score `v` is correct for the window
   * `(a, beta)` against its true value `t`. Afterwards the same holds, and a
   * cut-off happens only on a score at or above `beta`.
   */
  lemma MaxStep(maximizing: bool, alpha: Bound, beta: Bound, vals: seq<Bound>, n: nat,
                bv: Bound, a: Bound, v: Bound, bv': Bound, a': Bound)
    requires maximizing && 0 < n <= |vals|
    requires Below(alpha, beta) && a == Larger(alpha, bv) && Below(a, beta)
    requires AtMost(BestOf(maximizing, vals, n - 1), bv) && (Below(alpha, bv) ==> AtMost(bv, BestOf(maximizing, vals, n - 1)))
    requires Window(a, beta, v, vals[n - 1])
    requires bv' == Larger(bv, v) && a' == Larger(a, v)
    ensures a' == Larger(alpha, bv')
    ensures Below(a', beta) ==>
      AtMost(BestOf(maximizing, vals, n), bv') && (Below(alpha, bv') ==> AtMost(bv', BestOf(maximizing, vals, n)))
    ensures AtMost(beta, a') ==> AtMost(beta, bv') && AtMost(bv', BestOf(maximizing, vals, n))
  {
    BestOfNext(maximizing, vals, n - 1);
  }

  /** The mirror image of `MaxStep` for a minimizing node. */
  lemma MinStep(maximizing: bool, alpha: Bound, beta: Bound, vals: seq<Bound>, n: nat,
                bv: Bound, b: Bound, v: Bound, bv': Bound, b': Bound)
    requires !maximizing && 0 < n <= |vals|
    requires Below(alpha, beta) && b == Smaller(beta, bv) && Below(alpha, b)
    requires AtMost(bv, BestOf(maximizing, vals, n - 1)) && (Below(bv, beta) ==> AtMost(BestOf(maximizing, vals, n - 1), bv))
    requires Window(alpha, b, v, vals[n - 1])
    requires bv' == Smaller(bv, v) && b' == Smaller(b, v)
    ensures b' == Smaller(beta, bv')
    ensures Below(alpha, b') ==>
      AtMost(bv', BestOf(maximizing, vals, n)) && (Below(bv', beta) ==> AtMost(BestOf(maximizing, vals, n), bv'))
    ensures AtMost(b', alpha) ==> AtMost(bv', alpha) && AtMost(BestOf(maximizing, vals, n), bv')
  {
    BestOfNext(maximizing, vals, n - 1);
  }

  /** A score strictly better than the running best is the value of none of the children seen so far. */
  lemma NoEarlierEqual(maximizing: bool, vals: seq<Bound>, n: nat, value: Bound, v: Bound)
    requires n <= |vals|
    requires maximizing ==> AtMost(BestOf(maximizing, vals, n), value) && Below(value, v)
    requires !maximizing ==> AtMost(value, BestOf(maximizing, vals, n)) && Below(v, value)
    ensures forall j :: 0 <= j < n ==> vals[j] != v
  {
    forall j | 0 <= j < n
      ensures vals[j] != v
    {
      BestOfBounds(maximizing, vals, j, n);
    }
  }

  /** The values `FirstBest` speaks of are the values of the moves themselves. */
  lemma FirstBestValue(p: Position, depth: nat, maximizing: bool, moves: seq<Move>, bi: nat, value: Bound)
    requires 1 <= depth && bi < |moves|
    requires ChildValues(p, depth, maximizing, moves)[bi] == value
    requires forall j :: 0 <= j < bi ==> ChildValues(p, depth, maximizing, moves)[j] != value
    ensures MoveValue(p, moves[bi], depth - 1, !maximizing) == value
    ensures forall j :: 0 <= j < bi ==> MoveValue(p, moves[j], depth - 1, !maximizing) != value
  {
    ChildValueAt(p, depth, maximizing, moves, bi);
    forall j | 0 <= j < bi
      ensures MoveValue(p, moves[j], depth - 1, !maximizing) != value
    {
      ChildValueAt(p, depth, maximizing, moves, j);
    }
  }

  /** Once every child is searched without a cut-off, the running best is correct for the window. */
  lemma ExitWindow(maximizing: bool, alpha: Bound, beta: Bound, vals: seq<Bound>, value: Bound, a: Bound, b: Bound)
    requires Searched(maximizing, alpha, beta, vals, |vals|, value, a, b)
    ensures Below(alpha, beta) ==> Window(alpha, beta, value, BestOf(maximizing, vals, |vals|))
  {
  }

  /** A cut-off score is a correct bound on the value of the whole node. */
  lemma CutoffBound(maximizing: bool, vals: seq<Bound>, n: nat, alpha: Bound, beta: Bound, v: Bound)
    requires 1 <= n <= |vals| && Below(alpha, beta)
    requires maximizing ==> AtMost(beta, v) && AtMost(v, BestOf(maximizing, vals, n))
    requires !maximizing ==> AtMost(v, alpha) && AtMost(BestOf(maximizing, vals, n), v)
    ensures Window(alpha, beta, v, BestOf(maximizing, vals, |vals|))
  {
    BestOfMonotone(maximizing, vals, n, |vals|);
  }

  // ---------------------------------------------------------------------------
  // Choosing a move.

  /** The three strengths of the computer player. */
  datatype Level = Easy | Medium | Hard

  function AbsReal(x: real): real {
    if x < 0.0 then -x else x
  }

  /**
   * The medium level's score of a move: ten times the value of the piece on
   * the target square (one for an unknown letter), less the distance of the
   * target from the centre of the board.
   */
  function MoveScore(b: Board, m: Move): real {
    var target := b[m.2][m.3];
    (if target.Some? then 10 * PieceValue(Lower(target.value), 1) else 0) as real
      - (AbsReal(3.5 - m.2 as real) + AbsReal(3.5 - m.3 as real))
  }

  function Scored(b: Board, moves: seq<Move>): seq<(real, Move)> {
    seq(|moves|, k requires 0 <= k < |moves| => (MoveScore(b, moves[k]), moves[k]))
  }

  /** Puts `x` before the first entry scoring no more than it. */
  function Insert(x: (real, Move), s: seq<(real, Move)>): seq<(real, Move)> {
    if s == [] || x.0 >= s[0].0 then [x] + s
    else [s[0]] + Insert(x, s[1..])
  }

  /** A stable sort by descending score. */
  function Ranked(s: seq<(real, Move)>): seq<(real, Move)> {
    if s == [] then [] else Insert(s[0], Ranked(s[1..]))
  }

  predicate Descending(s: seq<(real, Move)>) {
    forall i, j :: 0 <= i < j < |s| ==> s[i].0 >= s[j].0
  }

  /** The entries of `s` that score exactly `x`, in order. */
  function WithScore(s: seq<(real, Move)>, x: real): seq<(real, Move)> {
    if s == [] then [] else (if s[0].0 == x then [s[0]] else []) + WithScore(s[1..], x)
  }

  /** How many of the best-ranked moves the medium level picks from: a third, and at least one. */
  function TopCount(n: nat): nat {
    if n / 3 < 1 then 1 else n / 3
  }

  /** The medium level's pick among the best-ranked third of `moves`. */
  function MediumPick(b: Board, moves: seq<Move>, pick: nat): Move
    requires moves != []
  {
    RankedLength(Scored(b, moves));
    Ranked(Scored(b, moves))[pick % TopCount(|moves|)].1
  }

  lemma {:induction false} InsertPermutes(x: (real, Move), s: seq<(real, Move)>)
    ensures multiset(Insert(x, s)) == multiset([x] + s)
    decreases |s|
  {
    if s != [] && x.0 < s[0].0 {
      InsertPermutes(x, s[1..]);
      assert s == [s[0]] + s[1..];
    }
  }

  lemma {:induction false} InsertDescending(x: (real, Move), s: seq<(real, Move)>)
    requires Descending(s)
    ensures Descending(Insert(x, s))
    decreases |s|
  {
    if s != [] && x.0 < s[0].0 {
      var t := Insert(x, s[1..]);
      InsertDescending(x, s[1..]);
      InsertPermutes(x, s[1..]);
      forall i, j | 0 <= i < j < |Insert(x, s)|
        ensures Insert(x, s)[i].0 >= Insert(x, s)[j].0
      {
        if i == 0 {
          var y := t[j - 1];
          assert y in multiset([x] + s[1..]);
          if y != x {
            assert y in s[1..];
          }
        }
      }
    }
  }

  lemma {:induction false} InsertWithScore(x: (real, Move), s: seq<(real, Move)>, y: real)
    ensures WithScore(Insert(x, s), y) == WithScore([x] + s, y)
    decreases |s|
  {
    if s != [] && x.0 < s[0].0 {
      InsertWithScore(x, s[1..], y);
      assert ([x] + s)[1..] == s;
      assert ([x] + s[1..])[1..] == s[1..];
    }
  }

  lemma {:induction false} RankedLength(s: seq<(real, Move)>)
    ensures |Ranked(s)| == |s|
  {
    RankedPermutes(s);
    assert |multiset(Ranked(s))| == |multiset(s)|;
  }

  /** The ranking rearranges the scored moves: nothing is lost or added. */
  lemma {:induction false} RankedPermutes(s: seq<(real, Move)>)
    ensures multiset(Ranked(s)) == multiset(s)
  {
    if s != [] {
      RankedPermutes(s[1..]);
      InsertPermutes(s[0], Ranked(s[1..]));
      assert s == [s[0]] + s[1..];
    }
  }

  /** The ranking puts higher scores first. */
  lemma {:induction false} RankedDescending(s: seq<(real, Move)>)
    ensures Descending(Ranked(s))
  {
    if s != [] {
      RankedDescending(s[1..]);
      InsertDescending(s[0], Ranked(s[1..]));
    }
  }

  /** The ranking is stable: moves with equal scores keep the order in which they were generated. */
  lemma {:induction false} RankedStable(s: seq<(real, Move)>, x: real)
    ensures WithScore(Ranked(s), x) == WithScore(s, x)
  {
    if s != [] {
      RankedStable(s[1..], x);
      InsertWithScore(s[0], Ranked(s[1..]), x);
      assert ([s[0]] + Ranked(s[1..]))[1..] == Ranked(s[1..]);
    }
  }

  /**
   * The medium pick is a legal move, and scores at least as well as every move
   * outside the best-ranked third.
   */
  lemma MediumPickIsTop(b: Board, moves: seq<Move>, pick: nat)
    requires moves != []
    ensures MediumPick(b, moves, pick) in moves
    ensures 1 <= TopCount(|moves|) <= |moves|
    ensures var ranked := Ranked(Scored(b, moves));
      forall j :: TopCount(|moves|) <= j < |ranked| ==> MoveScore(b, MediumPick(b, moves, pick)) >= ranked[j].0
  {
    var s := Scored(b, moves);
    var ranked := Ranked(s);
    RankedLength(s);
    RankedPermutes(s);
    RankedDescending(s);
    var k := pick % TopCount(|moves|);
    assert ranked[k] in multiset(s);
    var i :| 0 <= i < |s| && s[i] == ranked[k];
    assert ranked[k].1 == moves[i];
  }

  /** The medium level's scores, one per move in generation order. */
  method ScoreMoves(gs: GameState, moves: seq<Move>) returns (scored: seq<(real, Move)>)
    requires gs.Valid()
    ensures scored == Scored(gs.Model().board, moves)
  {
    scored := [];
    for k := 0 to |moves|
      invariant scored == Scored(gs.Model().board, moves[..k])
    {
      var (r, c, nr, nc) := moves[k];
      var score := 0;
      if gs.board[nr, nc] != None {
        score := score + 10 * PieceValue(Lower(gs.board[nr, nc].value), 1);
      }
      var total := score as real - (AbsReal(3.5 - nr as real) + AbsReal(3.5 - nc as real));
      scored := scored + [(total, moves[k])];
    }
    assert moves[..|moves|] == moves;
  }

  /**
   * The computer's move for `side`: none exactly when the side has no legal
   * move, and otherwise a legal move. The easy level picks any legal move,
   * the medium level one of the best-ranked third, and the hard level the
   * first move, in generation order, whose two-ply minimax value is the
   * value of the position. `pick` stands for the random choice.
   */
  method AiChooseMove(gs: GameState, level: Level, side: Color, pick: nat) returns (choice: Option<Move>)
    requires gs.Valid()
    ensures var moves := LegalMoves(gs.Model(), side);
      (choice == None <==> moves == []) && (choice.Some? ==> choice.value in moves)
    ensures var moves := LegalMoves(gs.Model(), side);
      level == Easy && moves != [] ==> choice == Some(moves[pick % |moves|])
    ensures var moves := LegalMoves(gs.Model(), side);
      level == Medium && moves != [] ==> choice == Some(MediumPick(gs.Model().board, moves, pick))
    ensures var p, moves := gs.Model(), LegalMoves(gs.Model(), side);
      level == Hard && moves != [] ==>
        choice.Some? && MoveValue(p, choice.value, 1, side != White) == MinimaxValue(p, 2, side == White) &&
        exists i :: 0 <= i < |moves| && moves[i] == choice.value &&
          forall j :: 0 <= j < i ==> MoveValue(p, moves[j], 1, side != White) != MinimaxValue(p, 2, side == White)
  {
    var moves := gs.GenerateLegalMoves(side);
    if moves == [] {
      return None;
    }
    match level
    case Easy =>
      return Some(moves[pick % |moves|]);
    case Medium =>
      var scored := ScoreMoves(gs, moves);
      var ranked := Ranked(scored);
      RankedLength(scored);
      MediumPickIsTop(gs.Model().board, moves, pick);
      return Some(ranked[pick % TopCount(|moves|)].1);
    case Hard =>
      var value, best := Minimax(gs, gs.Model(), 2, NegInf, PosInf, side == White);
      return best;
  }
}
