/**
 * The engine as the binding layer sees it. The rules of Othello (capture
 * scanning, move generation, applying a move, scoring) and the two AI players
 * live in crates this model does not contain, so they appear here only as the
 * fields of an `Engine` value: functions the binding calls and whose results
 * it inspects. The board representation is likewise left abstract (the type
 * parameter `B`); the binding reads it only cell by cell through `get`.
 */
module Game {
  import opened Wrappers

  datatype Colour = Black | White

  /** The other colour; the engine's `Colour::opponent`. */
  function Opponent(c: Colour): (o: Colour)
    ensures o != c
  {
    match c
    case Black => White
    case White => Black
  }

  /** A placement by `player` at (`row`, `col`), 0-indexed. A move does not
      validate itself: its coordinates are whatever the code built it from. */
  datatype Move = Move(player: Colour, row: int, col: int)

  predicate OnBoard(m: Move) {
    0 <= m.row < 8 && 0 <= m.col < 8
  }

  /** The engine's `DefaultGame`: a board and the colour expected to act next. */
  datatype GameState<B> = GameState(board: B, nextTurn: Colour)

  /** The engine operations the binding relies on. The valid moves of a colour
      depend on the board alone; `random` receives the draw of the random
      source as an explicit argument. */
  datatype Engine<!B> = Engine(
    initial: GameState<B>,
    validMoves: (B, Colour) -> seq<Move>,
    apply: (GameState<B>, Move) -> GameState<B>,
    get: (B, int, int) -> Option<Colour>,
    scores: GameState<B> -> (nat, nat),
    alphaBeta: (nat, GameState<B>) -> Option<Move>,
    random: (GameState<B>, nat) -> Option<Move>)

  /** The only thing assumed of the engine: every move it lists as valid for a
      colour is a move by that colour on one of the 64 cells. */
  ghost predicate WellFormed<B(!new)>(e: Engine<B>) {
    forall b: B, c: Colour, m: Move :: m in e.validMoves(b, c) ==> OnBoard(m) && m.player == c
  }

  predicate HasMove<B>(e: Engine<B>, g: GameState<B>, c: Colour) {
    e.validMoves(g.board, c) != []
  }

  /** The game is over when neither colour has a valid move. It is derived from
      the current state, never stored. */
  predicate GameOver<B>(e: Engine<B>, g: GameState<B>) {
    !HasMove(e, g, g.nextTurn) && !HasMove(e, g, Opponent(g.nextTurn))
  }

  /** A pass leaves the board alone and hands the turn over. */
  function Passed<B>(g: GameState<B>): (h: GameState<B>)
    ensures h.board == g.board && h.nextTurn == Opponent(g.nextTurn)
  {
    g.(nextTurn := Opponent(g.nextTurn))
  }

  /** Passing cannot end or revive a game: it swaps the two colours whose
      move lists decide whether the game is over. */
  lemma PassPreservesGameOver<B>(e: Engine<B>, g: GameState<B>)
    ensures GameOver(e, Passed(g)) <==> GameOver(e, g)
  {
  }
}
