/**
 * The compact move code shared by the binding's callers and its history:
 * 0 is a pass, 1..64 is the cell `row * 8 + col + 1`, anything larger is
 * rejected.
 */
module Codec {
  import opened Wrappers
  import opened Game

  /** Rust's `u8`. */
  type Byte = x: int | 0 <= x < 256

  const PASS_CODE: Byte := 0

  datatype CodecError =
    | InvalidMoveNumber(code: Byte)  // a code in 1..64 whose cell fails the bounds check
    | OutOfRange(code: Byte)         // a code above 64

  /** `move_to_u8`. The final `as u8` keeps the low eight bits, which is the
      Euclidean remainder by 256. */
  function MoveToCode(mv: Option<Move>): (code: Byte)
    ensures mv.None? ==> code == PASS_CODE
    ensures mv.Some? && OnBoard(mv.value) ==>
      1 <= code <= 64 && code == mv.value.row * 8 + mv.value.col + 1
  {
    match mv
    case Some(m) => (m.row * 8 + m.col + 1) % 256
    case None => PASS_CODE
  }

  /** `u8_to_move`: decodes a code for the given player. */
  function CodeToMove(code: Byte, player: Colour): (r: Result<Option<Move>, CodecError>)
    ensures r == Ok(None) <==> code == PASS_CODE
    ensures r.Err? <==> code > 64
    ensures r.Err? ==> r.error == OutOfRange(code)
    ensures 1 <= code <= 64 ==>
      r.Ok? && r.value.Some? && r.value.value.player == player && OnBoard(r.value.value) &&
      r.value.value.row * 8 + r.value.value.col + 1 == code
  {
    if code == 0 then
      Ok(None)
    else if code <= 64 then
      var index := code - 1;
      var row := index / 8;
      var col := index % 8;
      if 0 <= row < 8 && 0 <= col < 8 then
        Ok(Some(Move(player, row, col)))
      else
        Err(InvalidMoveNumber(code))
    else
      Err(OutOfRange(code))
  }

  /** Two on-board cells share a code only if they are the same cell. */
  lemma EncodeInjective(m: Move, n: Move)
    requires OnBoard(m) && OnBoard(n)
    requires MoveToCode(Some(m)) == MoveToCode(Some(n))
    ensures m.row == n.row && m.col == n.col
  {
  }

  /** Encoding an on-board move and decoding it for the same player gives the move back. */
  lemma EncodeDecode(m: Move)
    requires OnBoard(m)
    ensures CodeToMove(MoveToCode(Some(m)), m.player) == Ok(Some(m))
  {
  }

  /** Every code in 0..64 decodes, and re-encoding gives the same code. */
  lemma DecodeEncode(code: Byte, player: Colour)
    requires code <= 64
    ensures CodeToMove(code, player).Ok?
    ensures MoveToCode(CodeToMove(code, player).value) == code
  {
  }
}
