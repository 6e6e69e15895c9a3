/**
 * The `OthelloGame` class the binding exposes: one game plus the history of
 * move codes, changed in place by `AddStone` and `AiMove`, and read by the
 * board snapshot, the queries and the text rendering.
 */
module Binding {
  import opened Wrappers
  import opened Game
  import opened Codec
  import opened Format
  import opened Session

  /** A cell in the board snapshot: 0 empty, 1 Black, 2 White. */
  function CellCode(p: Option<Colour>): (v: Byte)
    ensures v <= 2
    ensures v == 0 <==> p.None?
    ensures v == 1 <==> p == Some(Black)
    ensures v == 2 <==> p == Some(White)
  {
    match p
    case None => 0
    case Some(Black) => 1
    case Some(White) => 2
  }

  /** A cell in the text rendering. */
  function Glyph(p: Option<Colour>): (ch: char)
    ensures ch == '.' <==> p.None?
    ensures ch == 'B' <==> p == Some(Black)
    ensures ch == 'W' <==> p == Some(White)
  {
    match p
    case Some(Black) => 'B'
    case Some(White) => 'W'
    case _ => '.'
  }

  /** The glyphs of the first `n` cells of row `r`. */
  function RowGlyphs<B>(e: Engine<B>, b: B, r: int, n: nat): (s: string)
    ensures |s| == n
  {
    if n == 0 then [] else RowGlyphs(e, b, r, n - 1) + [Glyph(e.get(b, r, n - 1))]
  }

  /** The first `rows` lines of the rendered grid, each eight glyphs and a newline. */
  function Grid<B>(e: Engine<B>, b: B, rows: nat): (s: string)
    ensures |s| == 9 * rows
  {
    if rows == 0 then [] else Grid(e, b, rows - 1) + RowGlyphs(e, b, rows - 1, 8) + "\n"
  }

  /** Cell `c` of row `r` of the board is character `r * 9 + c` of the grid, and
      character `r * 9 + 8` ends the row. */
  lemma {:induction false} GridLayout<B>(e: Engine<B>, b: B, rows: nat, r: int, c: int)
    requires 0 <= r < rows && 0 <= c <= 8
    ensures Grid(e, b, rows)[r * 9 + c] == if c == 8 then '\n' else Glyph(e.get(b, r, c))
  {
    if r < rows - 1 {
      GridLayout(e, b, rows - 1, r, c);
    } else if c < 8 {
      RowGlyphsAt(e, b, r, 8, c);
    }
  }

  /** The whole grid: cell (r, c) at `r * 9 + c`, and newlines exactly at the ends of rows. */
  lemma GridShape<B>(e: Engine<B>, b: B)
    ensures forall r, c :: 0 <= r < 8 && 0 <= c < 8 ==> Grid(e, b, 8)[r * 9 + c] == Glyph(e.get(b, r, c))
    ensures forall i :: 0 <= i < 72 ==> (Grid(e, b, 8)[i] == '\n' <==> i % 9 == 8)
  {
    forall r, c | 0 <= r < 8 && 0 <= c < 8
      ensures Grid(e, b, 8)[r * 9 + c] == Glyph(e.get(b, r, c))
    {
      GridLayout(e, b, 8, r, c);
    }
    forall i | 0 <= i < 72
      ensures Grid(e, b, 8)[i] == '\n' <==> i % 9 == 8
    {
      GridLayout(e, b, 8, i / 9, i % 9);
    }
  }

  lemma {:induction false} RowGlyphsAt<B>(e: Engine<B>, b: B, r: int, n: nat, c: nat)
    requires c < n
    ensures RowGlyphs(e, b, r, n)[c] == Glyph(e.get(b, r, c))
  {
    if c < n - 1 {
      RowGlyphsAt(e, b, r, n - 1, c);
    }
  }

  function TurnName(c: Colour): string {
    if c == Black then "Black" else "White"
  }

  /** The two lines after the grid: the score and whose turn it is. */
  function Summary(scores: (nat, nat), turn: Colour): string {
    "Score: B " + Decimal(scores.0) + " - W " + Decimal(scores.1) + "\n" +
    "Next Turn: " + TurnName(turn) + "\n"
  }

  class OthelloGame<B(!new)> {
    const engine: Engine<B>
    var game: GameState<B>
    var history: seq<Byte>

    /** The history is a replay log: submitting its codes from the start
        position, in order, reproduces the current game. */
    ghost predicate Valid()
      reads this
    {
      WellFormed(engine) && Replay(engine, engine.initial, history) == Some(game)
    }

    ghost function State(): SessionState<B>
      reads this
    {
      SessionState(game, history)
    }

    /** `new`: the engine's start position and an empty history. */
    constructor (e: Engine<B>)
      requires WellFormed(e)
      ensures Valid()
      ensures engine == e && game == e.initial && history == []
    {
      engine := e;
      game := e.initial;
      history := [];
    }

    /** `list_moves`: every recorded code is a pass or a cell 1..64. */
    function ListMoves(): (moves: seq<Byte>)
      reads this
      requires Valid()
      ensures moves == history
      ensures forall i :: 0 <= i < |moves| ==> moves[i] <= 64
    {
      ReplayableCodesInRange(engine, engine.initial, history);
      history
    }

    /** `add_stone`. */
    method AddStone(code: Byte) returns (r: Result<bool, SessionError>)
      requires Valid()
      modifies this
      ensures Valid()
      ensures (r, State()) == AddStoneStep(engine, old(State()), code)
    {
      var current := game.nextTurn;
      var valid := engine.validMoves(game.board, current);
      var decoded := CodeToMove(code, current);
      if decoded.Err? {
        return Err(BadMoveCode(decoded.error));
      }
      ghost var before := State();
      match decoded.value {
        case Some(m) =>
          if m in valid {
            game := engine.apply(game, m);
            history := history + [code];
            r := Ok(true);
          } else {
            r := Ok(false);
          }
        case None =>
          if valid == [] {
            game := game.(nextTurn := Opponent(game.nextTurn));
            history := history + [PASS_CODE];
            r := Ok(true);
          } else {
            r := Ok(false);
          }
      }
      if r == Ok(true) {
        ReplaySnoc(engine, engine.initial, before.history, code, before.game);
      }
    }

    /** `ai_move`; `draw` stands for the random source of the random player. */
    method AiMove(strength: Option<Int32>, draw: nat) returns (r: Result<Option<Byte>, SessionError>)
      requires Valid()
      modifies this
      ensures Valid()
      ensures (r, State()) == AiMoveStep(engine, old(State()), strength, draw)
    {
      ghost var before := State();
      var current := game.nextTurn;
      var valid := engine.validMoves(game.board, current);
      if valid == [] {
        game := game.(nextTurn := Opponent(current));
        if engine.validMoves(game.board, game.nextTurn) == [] {
          history := history + [PASS_CODE];
          r := Ok(None);
        } else {
          history := history + [PASS_CODE];
          r := Ok(Some(PASS_CODE));
        }
        ReplaySnoc(engine, engine.initial, before.history, PASS_CODE, before.game);
        return;
      }
      var chosen: Option<Move>;
      match strength {
        case Some(s) =>
          if s > 0 {
            chosen := engine.alphaBeta(s, game);
          } else {
            chosen := engine.random(game, draw);
          }
        case None =>
          chosen := engine.random(game, draw);
      }
      match chosen {
        case Some(m) =>
          if m in valid {
            game := engine.apply(game, m);
            var code := MoveToCode(Some(m));
            history := history + [code];
            r := Ok(Some(code));
            EncodeDecode(m);
            ReplaySnoc(engine, engine.initial, before.history, code, before.game);
          } else {
            r := Err(AiChoseInvalidMove(m));
          }
        case None =>
          r := Err(AiChoseNoMove);
      }
    }

    /** `board`: the 64 cells in row-major order, cell (`row`, `col`) at index `row * 8 + col`. */
    method Board() returns (cells: seq<Byte>)
      ensures |cells| == 64
      ensures forall i :: 0 <= i < 64 ==> cells[i] == CellCode(engine.get(game.board, i / 8, i % 8))
    {
      cells := [];
      for r := 0 to 8
        invariant |cells| == r * 8
        invariant forall i :: 0 <= i < |cells| ==> cells[i] == CellCode(engine.get(game.board, i / 8, i % 8))
      {
        for c := 0 to 8
          invariant |cells| == r * 8 + c
          invariant forall i :: 0 <= i < |cells| ==> cells[i] == CellCode(engine.get(game.board, i / 8, i % 8))
        {
          cells := cells + [CellCode(engine.get(game.board, r, c))];
        }
      }
    }

    /** `next_player`: 1 for Black, 2 for White, the codes the board snapshot uses. */
    function NextPlayer(): (p: Byte)
      reads this
      ensures p == CellCode(Some(game.nextTurn))
    {
      match game.nextTurn
      case Black => 1
      case White => 2
    }

    /** `scores`: the engine's (Black, White) stone counts. */
    function Scores(): (nat, nat)
      reads this
    {
      engine.scores(game)
    }

    /** `is_game_over`: the current player is checked first, the opponent only if needed. */
    function IsGameOver(): (over: bool)
      reads this
      ensures over <==> GameOver(engine, game)
    {
      if engine.validMoves(game.board, game.nextTurn) != [] then
        false
      else
        engine.validMoves(game.board, Opponent(game.nextTurn)) == []
    }

    /** `__str__`: eight lines of eight glyphs, then the score and the next turn. */
    method ToString() returns (text: string)
      ensures |text| >= 72
      ensures forall r, c :: 0 <= r < 8 && 0 <= c < 8 ==> text[r * 9 + c] == Glyph(engine.get(game.board, r, c))
      ensures forall i :: 0 <= i < 72 ==> (text[i] == '\n' <==> i % 9 == 8)
      ensures text[72..] == Summary(engine.scores(game), game.nextTurn)
    {
      text := "";
      for r := 0 to 8
        invariant text == Grid(engine, game.board, r)
      {
        for c := 0 to 8
          invariant text == Grid(engine, game.board, r) + RowGlyphs(engine, game.board, r, c)
        {
          text := text + [Glyph(engine.get(game.board, r, c))];
        }
        text := text + "\n";
      }
      GridShape(engine, game.board);
      text := text + Summary(engine.scores(game), game.nextTurn);
    }
  }
}
