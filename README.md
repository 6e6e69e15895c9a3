# Othello binding layer: move codec and game session

This project models the Python binding of an Othello engine, `src/lib.rs`. The
binding has two parts:

- **Move codec.** `move_to_u8` and `u8_to_move` translate between a move and a
  one-byte code. `0` is a pass, `1..=64` is the cell `row * 8 + col + 1`, and
  larger codes are errors.
- **Game session.** `OthelloGame` holds one game state and an append-only history
  of move codes.
  - `add_stone` accepts a placement only if it is among the current player's
    valid moves. It accepts a pass only when that player has no valid move.
  - `ai_move` passes automatically when it must. Otherwise it lets the random or
    the alpha-beta player choose a move, and plays it only if it is valid.
  - The session also offers a 64-cell board snapshot, the next player, the
    scores, a game-over test and a text rendering.

The rules of Othello live in the engine crates `othello_game` and `othello_ai`.
Those crates are not part of this model. The model sees the engine only as the
fields of a `Game.Engine<B>` value, whose board type `B` is abstract:

- `validMoves`, `apply`, `get` and `scores`;
- the two AI players, `alphaBeta` and `random`;
- the start position, `initial`.

Two things are assumed about the engine:

- The valid moves of a colour depend only on the board and the colour, not on
  whose turn the game state records (`validMoves` takes the board).
- Every move it lists as valid for a colour is a move by that colour on one of
  the 64 cells (`Game.WellFormed`).

Layout:

- `wrappers.dfy`: `Option` and `Result`.
- `game.dfy`: the engine boundary. It holds colours, moves, the game state, the
  engine record, the game-over condition and the pass transition.
- `codec.dfy`: the move codec and its round trips.
- `format.dfy`: decimal rendering of the scores, with a parse-back lemma.
- `session.dfy`: the session as pure transitions. `PlaceOrPass`,
  `AddStoneStep` and `AiMoveStep` are the transitions. `Replay` folds
  submitted codes over a game.
- `othello_game.dfy`: the `OthelloGame` class. Its methods update `game` and
  `history` in place and are proved equal to the pure transitions. Its
  invariant says that replaying `history` from the start position gives the
  current `game`.

Two behaviours of the code are modelled as written:

- A pass flips the turn even when the new player cannot move either, so at
  game over the opponent's colour is left as the next turn.
- `ai_move` at game over appends another `0` on every call and flips the turn
  each time.

## Model

| member | source | states |
|---|---|---|
| `Codec.MoveToCode` | src/lib.rs:9-14 | A pass encodes as 0. An on-board move encodes as `row*8+col+1`, which lies in 1..64. |
| `Codec.CodeToMove` | src/lib.rs:18-34 | 0 decodes to a pass. Each code in 1..64 decodes to an on-board move of the given player whose code is that code, so the inner bounds-error branch is unreachable. A code is an error exactly when it is above 64, and that error is the out-of-range one. |
| `Codec.EncodeInjective` | src/lib.rs:9-14 | Two on-board cells with the same code are the same cell. |
| `Codec.EncodeDecode` | src/lib.rs:9-34 | Decoding the code of an on-board move, for its own player, gives back that move. |
| `Codec.DecodeEncode` | src/lib.rs:9-34 | Every code in 0..64 decodes, and encoding the result gives the code back. |
| `Game.Passed` | src/lib.rs:83 | A pass keeps the board and hands the turn to the opponent. |
| `Game.PassPreservesGameOver` | src/lib.rs:81-88 | After a pass the game is over exactly when it was over before. |
| `Format.Decimal` | src/lib.rs:224 | A score renders as a non-empty string of digits with no leading zero. |
| `Format.DecimalRoundTrip` | src/lib.rs:224 | Reading the rendered digits back gives the score. |
| `Session.SelectStrategy` | src/lib.rs:124-136 | Alpha-beta is chosen exactly when the strength is present and positive, and the strength is then its depth. Otherwise the random player is chosen. |
| `Session.PlaceOrPass` | src/lib.rs:63-97 | A code above 64 is an out-of-range error. Code 0 is accepted exactly when the current player has no valid move; it then keeps the board and flips the turn. A code in 1..64 is accepted exactly when the move `((c-1)/8, (c-1)%8)` by the current player is valid; it then gives the engine's `apply` of that move. |
| `Session.AddStoneStep` | src/lib.rs:63-97 | `add_stone` errs exactly for codes above 64, with the out-of-range error. Whenever it does not return true, the game and the history are unchanged. It returns true exactly when the code is accepted; the session then holds the new game and the history with exactly that code appended. |
| `Session.AiMoveStep` | src/lib.rs:103-156 | With no valid move: the player passes, 0 is appended, and the result is None exactly when the game is over (else `Some(0)`). With valid moves: the result is Ok exactly when the selected AI's move is valid. That move is then applied, and its code is appended and returned; otherwise the error names what the AI did and nothing changes. |
| `Session.ReplaySnoc` | src/lib.rs:39-41 | Replaying a history extended by one code continues from the game the shorter history reached. |
| `Session.ReplayableCodesInRange` | src/lib.rs:39-41 | Every code in a replayable history is a pass or a cell 1..64. |
| `Session.AiMoveIsReplayable` | src/lib.rs:103-156 | Whatever `ai_move` records is a code that `add_stone` would accept with the same effect. |
| `Session.GameOverRefusesPlacement` | src/lib.rs:63-78 | Once neither side can move, every placement code is refused and nothing changes. |
| `Session.GameOverOnlyPasses` | src/lib.rs:79-119 | Once neither side can move, `add_stone(0)` and `ai_move` both record a pass, `ai_move` reports no move, and the game stays over. |
| `Binding.CellCode` | src/lib.rs:166-170 | A snapshot cell is 0, 1 or 2 for empty, Black or White, in both directions. |
| `Binding.Glyph` | src/lib.rs:214-218 | A rendered cell is `.`, `B` or `W` for empty, Black or White, in both directions. |
| `Binding.Grid` | src/lib.rs:210-221 | The rendered grid has nine characters per row. |
| `Binding.GridShape` | src/lib.rs:211-221 | In the full 72-character grid, every cell is at `r*9+c`, and the newlines stand exactly at the positions `i` with `i % 9 == 8`. |
| `Binding.GridLayout` | src/lib.rs:211-221 | Character `r*9+c` of the grid is the glyph of cell (r, c), and character `r*9+8` is a newline. |
| `Binding.OthelloGame.constructor` | src/lib.rs:47-52 | A new session holds the engine's start position and an empty history, and satisfies the replay invariant. |
| `Binding.OthelloGame.ListMoves` | src/lib.rs:56-59 | Returns the history, in which every code is a pass or a cell 1..64. |
| `Binding.OthelloGame.AddStone` | src/lib.rs:63-97 | The result and the new game and history are those of `AddStoneStep` on the old ones, and the replay invariant is kept. |
| `Binding.OthelloGame.AiMove` | src/lib.rs:103-156 | The result and the new game and history are those of `AiMoveStep` on the old ones, and the replay invariant is kept. |
| `Binding.OthelloGame.Board` | src/lib.rs:161-175 | Returns 64 entries. Entry `i` is the code of cell `(i/8, i%8)`, which is row-major order. |
| `Binding.OthelloGame.NextPlayer` | src/lib.rs:179-184 | Returns 1 for Black and 2 for White, the same codes the snapshot uses. |
| `Binding.OthelloGame.IsGameOver` | src/lib.rs:197-206 | The short-circuit test is true exactly when neither the current player nor the opponent has a valid move. |
| `Binding.OthelloGame.ToString` | src/lib.rs:209-227 | Character `r*9+c` of the first 72 is the glyph of cell (r, c). Among those 72 characters, newlines stand exactly at the ends of the eight rows. Then come the score line (`Score: B <b> - W <w>`) and the next-turn line. |

## Left out

- Engine internals (`othello_game`, `othello_ai`): capture scanning, move generation, `apply`, `scores` and both AI searches. Those crates are not part of this model; they appear only as function-valued fields of `Game.Engine`.
- `Game.Engine.validMoves` takes the board and a colour, not the whole game state. The engine is called as `game.valid_moves(colour)`; the model takes the result to depend only on the board, as legality does in Othello. Under this assumption the pass checks in `add_stone`, `ai_move` and `is_game_over` agree.
- `Game.WellFormed`: the class assumes the engine lists only on-board moves of the requested colour. Without it, a move the AI chooses could encode to a code above 64.
- Randomness: the random player's source is the explicit `draw` argument of `AiMove`.
- `Codec.MoveToCode`: for an off-board move, the model computes `row*8+col+1` on unbounded integers before the `as u8` wrap. The width of the engine's `Pos` type is not visible, so any overflow inside that expression is not modelled.
- Error values: `PyValueError` and its message texts are modelled as the constructors of `Codec.CodecError` and `Session.SessionError`.
- `Binding.OthelloGame.Scores` has no contract. It returns the engine's counts unchanged.
- PyO3 glue: module registration, `PyList`/`PyTuple` conversion and the interpreter token.
- `src/demo.py` is a driver loop with random strengths and printed tallies, so it is not modelled.
