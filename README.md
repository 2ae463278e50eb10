# Chess engine and inventory store, modelled in Dafny

This project models the two programs of the repository that hold logic of their own.

**The chess engine.** Its game state is:

- an 8x8 board of piece letters, upper case for White and lower case for Black;
- the side to move;
- the four castling flags;
- the en-passant square;
- the half-move clock and the full-move number;
- a stack of snapshots for undo.

On top of the state the engine provides:

- pseudo-legal move generation per piece, including castling and en passant;
- the legality filter, which plays each candidate on a copy of the board and keeps it only when the mover's king is not attacked;
- making a move (en-passant capture, castling rook, promotion, clocks, rights);
- undo, and save/load of the state as JSON;
- the checkmate/stalemate classification after each move;
- the computer player: material plus mobility evaluation, minimax with alpha-beta pruning, and three levels.

**The inventory store.** It keeps products keyed by SKU. It supports:

- SKU validation;
- adding, updating and deleting products;
- stock adjustment;
- the low-stock query;
- the dictionary form of a product;
- CSV import.

The model has two layers:

- **Values.** The rules are functions on values: `Board`, `Position`, `Store`, `Product`. Their properties are proved as lemmas. These are the legality characterisation, castling, promotion, clocks, undo, the save/load round trip, the status classification and the invariants of the store.
- **Objects.** The objects the source updates in place are classes: `ChessState.GameState` keeps the board in an `array2`, and `Storage.Inventory` keeps the store in fields. Every method is proved to produce exactly the state the value layer describes.

The alpha-beta search is proved against an unpruned reference minimax value, `ChessAI.MinimaxValue`:

- With the full window, the search returns exactly that value.
- With any window, it returns the usual fail-soft bounds.
- The move it returns is the first move, in generation order, that achieves the value.

Files:

- `wrappers.dfy`: Option and Result.
- `decimal.dfy`: decimal text of integers and Python-style `int()` parsing.
- `chess_rules.dfy`: board, attacks, check.
- `chess_moves.dfy`: positions, move generation, legality.
- `chess_play.dfy`: making and undoing moves, saved games, game status.
- `chess_state.dfy`: the game state class.
- `chess_ai.dfy`: evaluation, search, move choice.
- `inventory_product.dfy`: products and their records.
- `inventory_storage.dfy`: the store and the `Inventory` class.

`chess_project/chess.py:15-469` repeats `game/state.py` and `game/ai.py` line for line. The model follows the `game/` files and cites them.

## Model

| member | source | states |
|---|---|---|
| ChessRules.LocateKingSpec | chess_project/game/state.py:48-55 | No king is found exactly when no square holds the king of that colour; a found square holds it, and no earlier square in row-major order does |
| ChessRules.FindFromSpec | chess_project/game/state.py:51-55 | The row-major scan from a square finds nothing exactly when no later square holds the letter, and otherwise finds the first that does |
| ChessRules.ClearPathIff | chess_project/game/state.py:76-79 | The walk towards the target is clear exactly when every square strictly between is empty |
| ChessRules.SliderAttacks | chess_project/game/state.py:72-99 | A bishop, rook or queen attacks a square exactly when the offset lies on one of its lines and all squares between are empty; the rook's test also lets a zero offset through |
| ChessRules.CheckIffKingAttacked | chess_project/game/state.py:104-119 | With a single king of the colour, the side is in check exactly when an enemy piece attacks the king's square |
| ChessRules.NoKingIsCheck | chess_project/game/state.py:106-108 | A side without a king counts as in check |
| ChessMoves.StartPosition | chess_project/game/state.py:7-33 | A new game has the standard layout, White to move, all four castling flags, no en-passant square, empty history, clocks 0 and 1 |
| ChessMoves.StepMovesSpec | chess_project/game/state.py:146-151 | A knight or king step lands on a square exactly when that square is on the board, is one of the offsets, and is empty or holds the other colour |
| ChessMoves.SlideNoAlly | chess_project/game/state.py:159-167 | A ray never offers a square held by the mover's own colour |
| ChessMoves.SliderMovesNoAlly | chess_project/game/state.py:152-167 | No bishop, rook or queen destination holds a piece of the mover's colour |
| ChessMoves.MovesFromNoAlly | chess_project/game/state.py:121-190 | No generated destination holds a piece of the mover's colour, except the unchecked step onto the en-passant square |
| ChessMoves.MovesFromNotOrigin | chess_project/game/state.py:121-190 | No piece is offered its own square |
| ChessMoves.CastlingOffered | chess_project/game/state.py:176-189 | A king on its home square gets the castling step exactly when the flag is set, the squares between are empty, it is not in check and the squares it crosses and reaches are not attacked |
| ChessMoves.FilterLegalSpec | chess_project/game/state.py:215-225 | A candidate is kept exactly when it is among the candidates and the simulated board leaves the mover out of check |
| ChessMoves.LegalFromSpec | chess_project/game/state.py:208-225 | The scan from a square lists exactly the legal moves whose origin is at or after that square |
| ChessMoves.LegalMovesSpec | chess_project/game/state.py:205-226 | A move is generated for a colour exactly when a piece of that colour stands on its origin, the destination is pseudo-legal for it, and the simulated board leaves the colour out of check |
| ChessPlay.MakeMoveOutcome | chess_project/game/state.py:228-238 | A move is refused, with nothing changed, exactly when the origin is empty or the move is not legal for the colour of the piece on it; otherwise it is applied |
| ChessPlay.MakeThenUndo | chess_project/game/state.py:228-324 | An accepted move pushes one snapshot; undoing it straight away restores the position before the move |
| ChessPlay.UndoEmpty | chess_project/game/state.py:314-316 | Undo with no history fails and changes nothing |
| ChessPlay.MoveClocks | chess_project/game/state.py:251-311 | The half-move clock resets on a pawn move or a capture and otherwise counts up; the en-passant square is the one a double pawn step skipped; the side flips; the move number grows after White's move |
| ChessPlay.RightsOnlyCleared | chess_project/game/state.py:283-294 | Castling flags only go from true to false: a king move clears its side's pair, and a move from or onto a corner clears that corner's flag |
| ChessPlay.KingTwoFilesIsCastle | chess_project/game/state.py:176-189 | A legal king move of two files starts on the king's home square and stays on the home row |
| ChessPlay.CastlingRelocatesRook | chess_project/game/state.py:264-281 | Castling puts the king two files over and the rook on the square the king crossed, and empties the corner |
| ChessPlay.PromotionOnLastRank | chess_project/game/state.py:302-307 | A White pawn reaching row 7 becomes the upper-cased choice ('Q' by default), a Black pawn reaching row 0 the lower-cased choice ('q' by default) |
| ChessPlay.EnPassantRemovesBeside | chess_project/game/state.py:258-262 | An en-passant capture removes the pawn beside the mover, in the move as in the legality test |
| ChessPlay.SaveLoadRoundTrip | chess_project/game/state.py:326-346 | Loading a saved state gives back every field |
| ChessPlay.LoadJsonFields | chess_project/game/state.py:338-346 | Loading fails exactly when the board, side to move or castling field is missing; missing history and clocks default to empty, 0 and 1 |
| ChessPlay.StatusSpec | chess_project/chess.py:788-812 | With no legal move the side to move is checkmated (the other side wins) when in check and stalemated otherwise; with a legal move play goes on, with the check flag |
| ChessState.RayClear | chess_project/game/state.py:76-79 | The stepping loop reports a clear path exactly when the reference ClearPath holds |
| ChessState.PieceAttacksSquare | chess_project/game/state.py:57-102 | The attack test on the array board agrees with the reference attack relation for every piece kind |
| ChessState.AnyAttacker | chess_project/game/state.py:195-203 | The double loop finds an attacker exactly when some piece of that side attacks the square |
| ChessState.PawnTargets | chess_project/game/state.py:128-145 | A pawn's pushes, captures and en-passant step, read off the array, are the reference list in the same order |
| ChessState.StepTargets | chess_project/game/state.py:146-151 | The knight loop yields the reference step list in offset order |
| ChessState.SlideTargets | chess_project/game/state.py:159-167 | One ray, read off the array, is the reference ray |
| ChessState.SliderTargets | chess_project/game/state.py:152-167 | The rays of all directions, in order, are the reference slider moves |
| ChessState.FilterLegalStep | chess_project/game/state.py:215-225 | One candidate of the filter is kept exactly when its simulated board leaves no check |
| ChessState.LegalFromSkip | chess_project/game/state.py:210-213 | A square without a piece of the colour adds nothing to the scan |
| ChessState.LegalFromTake | chess_project/game/state.py:214-225 | A square with a piece of the colour adds its filtered moves first |
| ChessState.MakeMoveListed | chess_project/game/state.py:232-238 | Whether the move was found among the legal moves decides refusal or application |
| ChessState.GameState.constructor | chess_project/game/state.py:7-16 | A new object holds the starting position |
| ChessState.GameState.Copy | chess_project/game/ai.py:35 | The deep copy holds the same position on a fresh board array |
| ChessState.GameState.CreateStartingBoard | chess_project/game/state.py:18-33 | The fresh array holds the starting layout |
| ChessState.GameState.PlaceWhitePieces | chess_project/game/state.py:23-27 | Row 0 gets White's back rank; no other square changes |
| ChessState.GameState.PlaceBlackPieces | chess_project/game/state.py:28-32 | Row 7 gets Black's back rank; no other square changes |
| ChessState.GameState.LocateKing | chess_project/game/state.py:48-55 | The scan returns the reference king square |
| ChessState.GameState.IsInCheck | chess_project/game/state.py:104-119 | The check test on an array board is the reference check |
| ChessState.GameState.SquareUnderAttack | chess_project/game/state.py:192-203 | The square is reported attacked exactly when an enemy piece attacks it |
| ChessState.GameState.CastleKingside | chess_project/game/state.py:177-179 | The kingside test holds exactly when the reference castling condition does |
| ChessState.GameState.CastleQueenside | chess_project/game/state.py:180-182 | The queenside test holds exactly when the reference castling condition does |
| ChessState.GameState.KingTargets | chess_project/game/state.py:168-189 | King steps in loop order, then the castling steps |
| ChessState.GameState.GenerateMovesForSquare | chess_project/game/state.py:121-190 | The destinations are the reference pseudo-legal moves of the piece |
| ChessState.GameState.SimulatedBoard | chess_project/game/state.py:216-223 | The copied board is the reference simulated board |
| ChessState.GameState.KeepLegal | chess_project/game/state.py:215-225 | The filtering loop returns the reference filtered moves |
| ChessState.GameState.KeepIfLegal | chess_project/game/state.py:216-225 | One loop step keeps the filter's running result |
| ChessState.GameState.AppendSquare | chess_project/game/state.py:210-225 | One square of the scan keeps the scan's running result |
| ChessState.GameState.GenerateLegalMoves | chess_project/game/state.py:205-226 | The scan returns exactly the reference legal moves, in row-major order |
| ChessState.GameState.CaptureEnPassant | chess_project/game/state.py:258-262 | The board after the en-passant step is the reference one |
| ChessState.GameState.RelocateRook | chess_project/game/state.py:264-278 | The board after the castling step is the reference one |
| ChessState.GameState.ShiftPiece | chess_project/game/state.py:280-281 | The piece goes to the target and the origin is emptied |
| ChessState.GameState.PromotePawn | chess_project/game/state.py:302-307 | The board after the promotion step is the reference one |
| ChessState.GameState.Listed | chess_project/game/state.py:232-236 | The lookup succeeds exactly when the move is in the list |
| ChessState.GameState.MakeMove | chess_project/game/state.py:228-312 | The result and the new state are those of the reference move, on the same board array |
| ChessState.GameState.MoveOnBoard | chess_project/game/state.py:258-307 | The board steps of a move give the reference board after it |
| ChessState.GameState.ClearRights | chess_project/game/state.py:283-294 | The flags after the move are the reference rights |
| ChessState.GameState.NoteSkippedSquare | chess_project/game/state.py:296-300 | The en-passant square after the move is the reference one |
| ChessState.GameState.PushSnapshot | chess_project/game/state.py:240-249 | The history grows by exactly the snapshot of the state before the move |
| ChessState.GameState.Play | chess_project/game/state.py:240-311 | An accepted move leaves the object holding the reference position after it |
| ChessState.GameState.PlayOnBoard | chess_project/game/state.py:240-281 | The history, half-move clock and board after the move are the reference ones |
| ChessState.GameState.PlayFlags | chess_project/game/state.py:283-311 | Rights, en-passant square, side and move number after the move are the reference ones |
| ChessState.GameState.UndoMove | chess_project/game/state.py:314-324 | The result and the new state are those of the reference undo |
| ChessState.GameState.ToJson | chess_project/game/state.py:326-336 | The saved record is the reference one |
| ChessState.GameState.LoadJson | chess_project/game/state.py:338-346 | The result and the new state are those of the reference load, partial assignment included |
| ChessAI.EvaluateBoard | chess_project/game/ai.py:6-18 | The score is White's material minus Black's plus 0.05 times White's surplus of legal moves |
| ChessAI.BestOfMonotone | chess_project/game/ai.py:43-62 | The running best only improves as more children are seen |
| ChessAI.BestOfBounds | chess_project/game/ai.py:43-62 | The best of the children is at least as good as each of them |
| ChessAI.ChildValueAt | chess_project/game/ai.py:33-42 | The i-th child value is the minimax value of the position after the i-th move |
| ChessAI.Minimax | chess_project/game/ai.py:20-64 | With the full window the score is the unpruned minimax value; with a window, exact inside it and a bound outside; the move is legal, present exactly when there are moves, and the first in generation order with that value; terminal scores are ±9999 when mated and 0 for a draw |
| ChessAI.SearchChildren | chess_project/game/ai.py:30-64 | The loop over the children returns a correct windowed score for the best child value, and the first move achieving it |
| ChessAI.Absorb | chess_project/game/ai.py:43-63 | One child updates the best move only on a strictly better score and narrows the window; a cut-off score is already a correct bound for the node |
| ChessAI.SearchChild | chess_project/game/ai.py:34-42 | The child's score is correct for the window against its true value |
| ChessAI.PlayOnCopy | chess_project/game/ai.py:35-41 | The copy holds the position after the move, with a queen promotion |
| ChessAI.MaxStep | chess_project/game/ai.py:43-46 | A maximizing step keeps the running best a correct bound and cuts off only at or above beta |
| ChessAI.MinStep | chess_project/game/ai.py:60-63 | A minimizing step keeps the running best a correct bound and cuts off only at or below alpha |
| ChessAI.ExitWindow | chess_project/game/ai.py:33-47 | After every child without a cut-off the running best is correct for the window |
| ChessAI.CutoffBound | chess_project/game/ai.py:46 | A cut-off score bounds the value of the whole node |
| ChessAI.NoEarlierEqual | chess_project/game/ai.py:43-44 | A strictly better score equals the value of no child seen before |
| ChessAI.FirstBestValue | chess_project/game/ai.py:43-47 | The best move's value is the returned score, and no earlier move has it |
| ChessAI.InsertPermutes | chess_project/game/ai.py:80 | Inserting into the ranking neither loses nor adds entries |
| ChessAI.InsertDescending | chess_project/game/ai.py:80 | Inserting keeps the ranking in descending score order |
| ChessAI.InsertWithScore | chess_project/game/ai.py:80 | Inserting keeps the order of equal scores |
| ChessAI.RankedLength | chess_project/game/ai.py:80 | The ranking has one entry per scored move |
| ChessAI.RankedPermutes | chess_project/game/ai.py:80 | The ranking is a permutation of the scored moves |
| ChessAI.RankedDescending | chess_project/game/ai.py:80 | The ranking is in descending order of score |
| ChessAI.RankedStable | chess_project/game/ai.py:80 | Moves with equal scores keep their generation order (a stable sort) |
| ChessAI.MediumPickIsTop | chess_project/game/ai.py:71-82 | The medium pick is a legal move and scores at least as well as every move outside the best-ranked third, of size at least one |
| ChessAI.ScoreMoves | chess_project/game/ai.py:72-79 | Each move gets ten times the captured piece's value less its distance from the centre, in order |
| ChessAI.AiChooseMove | chess_project/game/ai.py:66-88 | No move exactly when the side has none, otherwise a legal one: easy picks any, medium one of the best third, hard the first move achieving the two-ply minimax value |
| Decimal.NatTextDigits | chess_project/game/state.py:247 | The decimal text of a natural number is non-empty, all digits, and reads back as the number |
| Decimal.ParseIntText | simple_inventory/inventory/models.py:25-26 | `int()` of the decimal text of any integer gives the integer back |
| Products.ToDict | simple_inventory/inventory/models.py:11-18 | The record has exactly the five keys |
| Products.FromDict | simple_inventory/inventory/models.py:20-28 | A product is read exactly when the three text fields are text and both counts convert with `int`; its fields are those of the record and the counts their converted values; a missing SKU is the first error |
| Products.FromDictToDict | simple_inventory/inventory/models.py:11-28 | Reading back the record of a product gives the product |
| Products.FromDictTextCounts | simple_inventory/inventory/models.py:20-28 | A record whose counts are written as decimal text also reads back as the product |
| Storage.SkuFormat | simple_inventory/inventory/storage.py:17-22 | The SKU check accepts exactly three capital letters, a dash and two to four digits |
| Storage.PatternAcceptsTrailingNewline | simple_inventory/inventory/storage.py:19-20 | The pattern as written also accepts a valid SKU followed by a newline |
| Storage.Put | simple_inventory/inventory/storage.py:31 | The product is stored under its SKU and every other product is untouched |
| Storage.Add | simple_inventory/inventory/storage.py:24-32 | Adding succeeds exactly for a valid, new SKU with non-negative stock; otherwise the error is the SKU error, else the duplicate error, else the negative-stock error; success stores the product |
| Storage.Update | simple_inventory/inventory/storage.py:34-46 | Updating succeeds exactly for a present SKU and non-negative stock (else the not-found error, then the negative-stock error), and replaces every field but the SKU |
| Storage.Without | simple_inventory/inventory/storage.py:51 | The key order loses exactly the deleted SKU |
| Storage.Delete | simple_inventory/inventory/storage.py:48-52 | Deleting removes exactly that key, keeps every other product, and ignores an unknown SKU |
| Storage.Adjust | simple_inventory/inventory/storage.py:54-66 | Adjusting succeeds exactly for a present SKU whose new stock is not negative (else the not-found error, then the negative-stock error), and changes only that product's stock |
| Storage.LowStock | simple_inventory/inventory/storage.py:68-70 | A product is listed exactly when it is stored and its stock is at or below its reorder level |
| Storage.LowStockMembers | simple_inventory/inventory/storage.py:68-70 | The scan over the stored SKUs lists exactly the low-stock products, no more of them than there are SKUs |
| Storage.RowProduct | simple_inventory/inventory/storage.py:104-110 | A row gives a product exactly when all five columns are present and both counts parse as integers; the product carries the row's SKU, name and supplier and the two parsed counts |
| Storage.ImportRow | simple_inventory/inventory/storage.py:102-114 | A row is stored exactly when it is well formed with a valid SKU, replacing any product with that SKU; otherwise the store is unchanged |
| Storage.PutWellFormed | simple_inventory/inventory/storage.py:31 | Storing keeps the order a duplicate-free list of the keys, each key its product's SKU |
| Storage.AddWellFormed | simple_inventory/inventory/storage.py:24-32 | Adding keeps the store well formed |
| Storage.UpdateWellFormed | simple_inventory/inventory/storage.py:34-46 | Updating keeps the store well formed |
| Storage.DeleteWellFormed | simple_inventory/inventory/storage.py:48-52 | Deleting keeps the store well formed |
| Storage.AdjustWellFormed | simple_inventory/inventory/storage.py:54-66 | Adjusting keeps the store well formed |
| Storage.ImportRowWellFormed | simple_inventory/inventory/storage.py:102-114 | Importing a row keeps the store well formed |
| Storage.WithoutDistinct | simple_inventory/inventory/storage.py:51 | Removing a key from a duplicate-free order leaves it duplicate-free |
| Storage.NonNegativePreserved | simple_inventory/inventory/storage.py:24-66 | Add, update, delete and adjust never leave a negative stock |
| Storage.ImportAllowsNegativeStock | simple_inventory/inventory/storage.py:102-114 | An imported row can store a negative stock, which add refuses |
| Storage.DeleteIdempotent | simple_inventory/inventory/storage.py:48-52 | Deleting twice is deleting once |
| Storage.AdjustUndo | simple_inventory/inventory/storage.py:54-66 | Adjusting by a and then by -a restores the store |
| Storage.Inventory.constructor | simple_inventory/inventory/storage.py:12-15 | A new store is empty |
| Storage.Inventory.ValidateSku | simple_inventory/inventory/storage.py:17-22 | The character loop accepts exactly the valid SKUs and otherwise gives the SKU error |
| Storage.Inventory.AddProduct | simple_inventory/inventory/storage.py:24-32 | The error or the new state is that of the reference add |
| Storage.Inventory.UpdateProduct | simple_inventory/inventory/storage.py:34-46 | The error or the new state is that of the reference update |
| Storage.Inventory.DeleteProduct | simple_inventory/inventory/storage.py:48-52 | The new state is that of the reference delete |
| Storage.Inventory.AdjustStock | simple_inventory/inventory/storage.py:54-66 | The error or the new state is that of the reference adjustment |
| Storage.Inventory.GetLowStockItems | simple_inventory/inventory/storage.py:68-70 | A product is listed exactly when it is stored with stock at or below its reorder level |
| Storage.Inventory.ImportFromCsv | simple_inventory/inventory/storage.py:98-115 | The store after the loop is the fold of the row step over the rows |

## Left out

- The user interfaces (`ui/gui.py`, the Tk windows in `chess.py`, `inventory/gui.py`), the dialogs and the status bar are not modelled. `PostMoveStatus` stands for the classification they display.
- Files are not modelled: saving the inventory after each change (`save_data`), reading it at start-up (`load_data`) and `export_to_csv`, and the message printed for each row an import skips (`simple_inventory/inventory/storage.py:114`). The CSV file is given as a sequence of rows, each a map from column heading to cell text. A JSON document is given as a record of optional fields, `ChessPlay.SavedGame`.
- Randomness is a `pick: nat` supplied by the caller; `random.choice` becomes the index `pick % n`.
- The AI level and side are the datatypes `Level` and `Color`. A level string other than the three known ones behaves as hard in the source; it is not modelled.
- AiChooseMove: the hard level's fallback to a random move when the search returns no move is not modelled. The search always returns a move when there is one (`Minimax`'s contract), so the fallback is unreachable.
- Evaluation and move scores are exact `real`s, and the infinities of the search window are the datatype `Bound`. Floating-point rounding is not modelled.
- Piece letters are single characters with ASCII case. A promotion choice longer than one character, and non-ASCII letters, are not modelled.
- ChessPlay.MakeMove requires the origin square to be on the board. With an origin row or column in -8..-1 the source reads a wrapped square through Python's negative indexing and, since no generated move starts there, returns False with nothing changed; an index of 8 or more, or below -8, raises IndexError. Neither case is modelled; its callers only pass board squares. Destinations off the board are handled: the move is refused.
- ChessPlay.PromotionOnLastRank leaves out a target that is the en-passant square. There the en-passant step could remove the moving pawn itself; the model's `Apply` still follows the source in that case.
- Loading a saved game whose fields have the wrong shape (a board that is not 8x8, an en-passant value that is not a square) is not modelled. A missing field is.
- ChessPlay.SaveLoadRoundTrip and ChessPlay.UndoMove: loading rebuilds only the top-level en-passant square as a tuple (`chess_project/game/state.py:343-344`); the snapshots in the loaded history keep theirs as JSON lists. After a load followed by an undo the source's en-passant square is a list, so the tuple comparisons at `chess_project/game/state.py:218` and `:258` fail: the en-passant step is still generated (`:142-145`), but neither the legality test nor the move removes the captured pawn. The model keeps one kind of square, so its `EnPassantCapture` always removes it; this list/tuple difference is not modelled.
- History snapshots are values. The deep copies the source takes of the board and of the castling list are therefore implicit, and the model does not cover aliasing between them and the live state.
- Products are values: `update_product` and `adjust_stock` change the stored object in place, and no other reference to it is modelled.
- ParseIntText: Python's `int()` also accepts surrounding whitespace, underscores between digits and non-ASCII decimal digits. The model accepts only an optional sign followed by ASCII digits.
- The SKU check treats only ASCII digits as digits; `\d` in the pattern also matches other Unicode decimal digits.
- Products.FromDict: a record field holds text or a whole number. A number stored where text is expected is an error in the model; the source would keep it. Floats in the data file are not modelled.
- A row is a map from column heading to cell text, and a missing heading makes the row fail. A row shorter than the header has `None` cells in the source: there a `None` count makes the row fail, but a `None` name or supplier is stored. The model does not cover short rows.
- Stored products whose key differs from their SKU can only arise from a hand-edited data file; loading is not modelled, and the store's invariant rules it out.
- Storage.LowStock: the contract states which products are listed, not the order of the list (the order of the stored SKUs) nor that each appears once.
- Products.FromDictToDict and Storage.DeleteIdempotent need no proof steps; they are stated because they are properties of the source.

## Findings

| source | as written | input that shows it | evidently intended | confidence | as-written member | corrected member |
|---|---|---|---|---|---|---|
| simple_inventory/inventory/storage.py:19-20 | `re.match(r'^[A-Z]{3}-\d{2,4}$', sku)` accepts a SKU followed by one newline, since `$` also matches before a final newline | `"ABC-12\n"` | only three capitals, a dash and two to four digits (the error message's format) | medium, not executed | Storage.PatternAcceptsTrailingNewline | Storage.SkuFormat |
