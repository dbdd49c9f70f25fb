/**
 * The integer encoding of cell states and players (class `PlayerTypes`):
 * 0 is a blank cell, 1 the AI (the maximiser), -1 the human (the minimiser).
 */
module PlayerTypes {
  import opened Wrappers

  const HUMAN: int := -1
  const AI: int := 1
  const BLANK: int := 0

  /** A player is never the blank state. */
  predicate IsPlayer(p: int) {
    p == AI || p == HUMAN
  }

  /** The player who moves next; the source asserts `p != 0`. */
  function OpposingPlayer(p: int): (r: int)
    requires p != BLANK
    ensures r != BLANK && r + p == 0
    ensures IsPlayer(p) ==> IsPlayer(r) && r != p
  {
    p * -1
  }

  lemma OpposingPlayerInvolution(p: int)
    requires p != BLANK
    ensures OpposingPlayer(OpposingPlayer(p)) == p
  {
  }

  /**
   * The glyph of a cell state; `None` stands for the `ValueError` raised
   * for an integer outside {-1, 0, 1}.
   */
  function PlayerToAvatar(n: int): (r: Option<char>)
    ensures r.Some? <==> (n == HUMAN || n == BLANK || n == AI)
    ensures r.Some? ==> r.value in {'X', '_', 'O'}
  {
    if n == -1 then Some('X')
    else if n == 0 then Some('_')
    else if n == 1 then Some('O')
    else None
  }

  /** Distinct cell states render as distinct glyphs, so a rendering can be read back. */
  lemma AvatarInjective(m: int, n: int)
    requires PlayerToAvatar(m).Some? && PlayerToAvatar(n).Some?
    requires PlayerToAvatar(m) == PlayerToAvatar(n)
    ensures m == n
  {
  }
}
