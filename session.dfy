/**
 * The game session behind the `OthelloGame` Python class, as pure
 * transitions over its two pieces of state: the current game and the history
 * of move codes. The class in `othello_game.dfy` performs the same
 * transitions in place.
 */
module Session {
  import opened Wrappers
  import opened Game
  import opened Codec

  /** Rust's `i32`, the type of the AI strength argument. */
  type Int32 = x: int | -0x8000_0000 <= x < 0x8000_0000

  datatype SessionError =
    | BadMoveCode(reason: CodecError)  // the code did not decode
    | AiChoseInvalidMove(move: Move)   // the AI proposed a move that is not valid
    | AiChoseNoMove                    // the AI proposed nothing although moves exist

  /** The two AI players; which one plays is chosen per request. */
  datatype Strategy = Random | AlphaBeta(maxDepth: nat)

  datatype SessionState<B> = SessionState(game: GameState<B>, history: seq<Byte>)

  /** A present positive strength is the alpha-beta search depth; a missing,
      zero or negative one selects the random player. */
  function SelectStrategy(strength: Option<Int32>): (s: Strategy)
    ensures s.AlphaBeta? <==> strength.Some? && strength.value > 0
    ensures s.AlphaBeta? ==> s.maxDepth == strength.value
  {
    match strength
    case Some(depth) => if depth > 0 then AlphaBeta(depth) else Random
    case None => Random
  }

  /** The move the selected AI proposes for the game. */
  function Choose<B>(e: Engine<B>, strategy: Strategy, g: GameState<B>, draw: nat): Option<Move> {
    match strategy
    case Random => e.random(g, draw)
    case AlphaBeta(depth) => e.alphaBeta(depth, g)
  }

  /**
   * What submitting `code` does to the game: an error for a code that does
   * not decode, `None` for a refused move, and the new game for an accepted
   * one. A placement is accepted when it is among the current player's valid
   * moves; a pass only when the current player has none.
   */
  function PlaceOrPass<B>(e: Engine<B>, g: GameState<B>, code: Byte): (r: Result<Option<GameState<B>>, SessionError>)
    ensures r.Err? <==> code > 64
    ensures r.Err? ==> r.error == BadMoveCode(OutOfRange(code))
    ensures code == PASS_CODE ==>
      r.Ok? && (r.value.Some? <==> !HasMove(e, g, g.nextTurn)) &&
      (r.value.Some? ==> r.value.value.board == g.board && r.value.value.nextTurn == Opponent(g.nextTurn))
    ensures 1 <= code <= 64 ==>
      var m := Move(g.nextTurn, (code - 1) / 8, (code - 1) % 8);
      r.Ok? && (r.value.Some? <==> m in e.validMoves(g.board, g.nextTurn)) &&
      (r.value.Some? ==> r.value.value == e.apply(g, m))
  {
    var valid := e.validMoves(g.board, g.nextTurn);
    match CodeToMove(code, g.nextTurn)
    case Err(reason) => Err(BadMoveCode(reason))
    case Ok(None) => if valid == [] then Ok(Some(Passed(g))) else Ok(None)
    case Ok(Some(m)) => if m in valid then Ok(Some(e.apply(g, m))) else Ok(None)
  }

  /** The game after `code`, when `code` is accepted. */
  function AfterCode<B>(e: Engine<B>, g: GameState<B>, code: Byte): Option<GameState<B>> {
    var r := PlaceOrPass(e, g, code);
    if r.Ok? then r.value else None
  }

  /**
   * `add_stone`: the result reported to the caller and the new session. An
   * accepted code is appended to the history; a refused or undecodable one
   * changes nothing.
   */
  function AddStoneStep<B>(e: Engine<B>, s: SessionState<B>, code: Byte): (out: (Result<bool, SessionError>, SessionState<B>))
    ensures out.0.Err? <==> code > 64
    ensures out.0.Err? ==> out.0.error == BadMoveCode(OutOfRange(code))
    ensures out.0 != Ok(true) ==> out.1 == s
    ensures out.0 == Ok(true) <==> AfterCode(e, s.game, code).Some?
    ensures out.0 == Ok(true) ==>
      out.1 == SessionState(AfterCode(e, s.game, code).value, s.history + [code])
  {
    match PlaceOrPass(e, s.game, code)
    case Err(error) => (Err(error), s)
    case Ok(None) => (Ok(false), s)
    case Ok(Some(next)) => (Ok(true), SessionState(next, s.history + [code]))
  }

  /**
   * `ai_move`. A player without a valid move passes (and the result says
   * whether the game has ended); otherwise the selected AI proposes a move,
   * which is played and recorded only if it is among the valid moves.
   */
  function AiMoveStep<B>(e: Engine<B>, s: SessionState<B>, strength: Option<Int32>, draw: nat)
    : (out: (Result<Option<Byte>, SessionError>, SessionState<B>))
    ensures out.0.Err? ==> out.1 == s
    ensures out.0.Ok? ==>
      out.1.history == s.history + [if out.0.value.Some? then out.0.value.value else PASS_CODE]
    ensures !HasMove(e, s.game, s.game.nextTurn) ==>
      out.0.Ok? && out.1.game == Passed(s.game) &&
      (out.0.value.None? <==> GameOver(e, s.game)) &&
      (out.0.value.Some? ==> out.0.value.value == PASS_CODE)
    ensures HasMove(e, s.game, s.game.nextTurn) ==>
      var chosen := Choose(e, SelectStrategy(strength), s.game, draw);
      (out.0.Ok? <==> chosen.Some? && chosen.value in e.validMoves(s.game.board, s.game.nextTurn)) &&
      (out.0.Ok? ==> out.0.value == Some(MoveToCode(chosen)) && out.1.game == e.apply(s.game, chosen.value)) &&
      (out.0.Err? ==> out.0.error == if chosen.None? then AiChoseNoMove else AiChoseInvalidMove(chosen.value))
  {
    var current := s.game.nextTurn;
    var valid := e.validMoves(s.game.board, current);
    if valid == [] then
      var passed := Passed(s.game);
      var next := SessionState(passed, s.history + [PASS_CODE]);
      if e.validMoves(passed.board, passed.nextTurn) == [] then (Ok(None), next) else (Ok(Some(PASS_CODE)), next)
    else
      match Choose(e, SelectStrategy(strength), s.game, draw)
      case Some(m) =>
        if m in valid then
          var code := MoveToCode(Some(m));
          (Ok(Some(code)), SessionState(e.apply(s.game, m), s.history + [code]))
        else
          (Err(AiChoseInvalidMove(m)), s)
      case None => (Err(AiChoseNoMove), s)
  }

  /** The game reached from `g` by submitting `codes` in order, or `None` if one is refused. */
  function Replay<B>(e: Engine<B>, g: GameState<B>, codes: seq<Byte>): Option<GameState<B>>
    decreases |codes|
  {
    if codes == [] then
      Some(g)
    else
      match AfterCode(e, g, codes[0])
      case Some(next) => Replay(e, next, codes[1..])
      case None => None
  }

  /** Replaying one more code continues from where the shorter replay ended. */
  lemma {:induction false} ReplaySnoc<B>(e: Engine<B>, g: GameState<B>, codes: seq<Byte>, code: Byte, h: GameState<B>)
    requires Replay(e, g, codes) == Some(h)
    ensures Replay(e, g, codes + [code]) == AfterCode(e, h, code)
    decreases |codes|
  {
    if codes != [] {
      var next := AfterCode(e, g, codes[0]).value;
      assert (codes + [code])[1..] == codes[1..] + [code];
      ReplaySnoc(e, next, codes[1..], code, h);
    }
  }

  /** A replayable history holds only codes that decode: passes and cells 1..64. */
  lemma {:induction false} ReplayableCodesInRange<B>(e: Engine<B>, g: GameState<B>, codes: seq<Byte>)
    requires Replay(e, g, codes).Some?
    ensures forall i :: 0 <= i < |codes| ==> codes[i] <= 64
    decreases |codes|
  {
    if codes != [] {
      ReplayableCodesInRange(e, AfterCode(e, g, codes[0]).value, codes[1..]);
      assert forall i :: 1 <= i < |codes| ==> codes[i] == codes[1..][i - 1];
    }
  }

  /** Whatever the AI does is recorded as a code that `add_stone` would accept
      with the same effect, so the history stays a faithful replay log. */
  lemma AiMoveIsReplayable<B(!new)>(e: Engine<B>, s: SessionState<B>, strength: Option<Int32>, draw: nat)
    requires WellFormed(e)
    ensures var (r, t) := AiMoveStep(e, s, strength, draw);
      r.Ok? ==> exists code: Byte :: t.history == s.history + [code] && AfterCode(e, s.game, code) == Some(t.game)
  {
  }

  /** Once the game is over no placement is accepted and nothing changes. */
  lemma GameOverRefusesPlacement<B>(e: Engine<B>, s: SessionState<B>, code: Byte)
    requires GameOver(e, s.game) && 1 <= code <= 64
    ensures AddStoneStep(e, s, code) == (Ok(false), s)
  {
  }

  /** Once the game is over a pass is still accepted, records a 0 and the game stays over;
      the AI likewise passes, records a 0 and reports that no move was made. */
  lemma GameOverOnlyPasses<B>(e: Engine<B>, s: SessionState<B>, strength: Option<Int32>, draw: nat)
    requires GameOver(e, s.game)
    ensures var (r, t) := AddStoneStep(e, s, PASS_CODE);
      r == Ok(true) && t.history == s.history + [PASS_CODE] && GameOver(e, t.game)
    ensures var (r, t) := AiMoveStep(e, s, strength, draw);
      r == Ok(None) && t.history == s.history + [PASS_CODE] && GameOver(e, t.game)
  {
  }
}
