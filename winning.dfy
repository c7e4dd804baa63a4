/**
 * The winner of the current game: an instant-win override first, then no
 * winner while both totals are zero, then the higher total, then the higher
 * civilian value, else a draw.
 */
module Winning {
  import opened Wrappers
  import opened Scoring

  /** Players are identified by position. */
  type PlayerId = i: int | 0 <= i < 2

  /** The index a draw reports instead of a player. */
  const Draw: int := -1

  /** An instant win declared for a player; the reason is an opaque label (military or scientific supremacy). */
  datatype InstantWin = InstantWin(player: PlayerId, reason: string)

  /** Why a verdict was reached: the declared text, or one of the three fixed reasons of the numeric rule. */
  datatype Reason = Declared(text: string) | HighestScore | CivilianCards | Tie

  /** A decided game: the winning index (0, 1, or `Draw`) and the reason. */
  datatype Verdict = Verdict(player: int, reason: Reason)

  /** The ranking the numeric rule applies: a higher total, or an equal total and more civilian points. */
  predicate Beats(a: Player, b: Player)
  {
    a.totalScore > b.totalScore || (a.totalScore == b.totalScore && a.scores.civilian > b.scores.civilian)
  }

  /** The winner chain, evaluated in order over the current state; `None` is "no winner yet". */
  function Decide(p0: Player, p1: Player, override: Option<InstantWin>): (w: Option<Verdict>)
    ensures w.None? ==> override.None? && p0.totalScore == 0 && p1.totalScore == 0
    ensures w.Some? ==> w.value.player == Draw || 0 <= w.value.player < 2
    ensures w.Some? && w.value.player == Draw ==> w.value.reason == Tie && p0.totalScore == p1.totalScore
  {
    if override.Some? then Some(Verdict(override.value.player, Declared(override.value.reason)))
    else if p0.totalScore == 0 && p1.totalScore == 0 then None
    else if p0.totalScore > p1.totalScore then Some(Verdict(0, HighestScore))
    else if p1.totalScore > p0.totalScore then Some(Verdict(1, HighestScore))
    else if p0.scores.civilian > p1.scores.civilian then Some(Verdict(0, CivilianCards))
    else if p1.scores.civilian > p0.scores.civilian then Some(Verdict(1, CivilianCards))
    else Some(Verdict(Draw, Tie))
  }

  /** An override is the verdict whatever the scores are. */
  lemma OverrideDecides(p0: Player, p1: Player, w: InstantWin)
    ensures forall q0, q1 :: Decide(q0, q1, Some(w)) == Decide(p0, p1, Some(w))
    ensures Decide(p0, p1, Some(w)) == Some(Verdict(w.player, Declared(w.reason)))
  {
  }

  /** Without an override there is no winner exactly when both totals are zero; the civilian values do not matter then. */
  lemma NoWinnerIffTotalsZero(p0: Player, p1: Player)
    ensures Decide(p0, p1, None).None? <==> p0.totalScore == 0 && p1.totalScore == 0
  {
  }

  /**
   * Without an override and with a nonzero total, player 0 wins exactly when it
   * beats player 1, player 1 exactly when it beats player 0, and otherwise the
   * game is a draw; the reason names the rule that decided.
   */
  lemma NumericVerdict(p0: Player, p1: Player)
    requires p0.totalScore != 0 || p1.totalScore != 0
    ensures Decide(p0, p1, None).Some?
    ensures Decide(p0, p1, None).value.player == 0 <==> Beats(p0, p1)
    ensures Decide(p0, p1, None).value.player == 1 <==> Beats(p1, p0)
    ensures Decide(p0, p1, None).value.player == Draw <==> !Beats(p0, p1) && !Beats(p1, p0)
    ensures Decide(p0, p1, None).value.reason ==
              if p0.totalScore != p1.totalScore then HighestScore
              else if p0.scores.civilian != p1.scores.civilian then CivilianCards
              else Tie
  {
  }

  /** The ranking is a strict order, and at most one player beats the other. */
  lemma BeatsIsStrictOrder(a: Player, b: Player, c: Player)
    ensures !Beats(a, a)
    ensures Beats(a, b) ==> !Beats(b, a)
    ensures Beats(a, b) && Beats(b, c) ==> Beats(a, c)
  {
  }

  /** The index the verdict names once the two players trade places. */
  function Mirror(w: Option<Verdict>): (m: Option<Verdict>)
    ensures m.Some? <==> w.Some?
    ensures m.Some? ==> m.value.reason == w.value.reason
    ensures m.Some? && w.value.player == 0 ==> m.value.player == 1
    ensures m.Some? && w.value.player == 1 ==> m.value.player == 0
    ensures m.Some? && w.value.player == Draw ==> m.value.player == Draw
  {
    match w
    case None => None
    case Some(v) => Some(v.(player := if v.player == Draw then Draw else 1 - v.player))
  }

  /** Without an override, swapping the players swaps the winning index and keeps the reason. */
  lemma SwapPlayersMirrorsVerdict(p0: Player, p1: Player)
    ensures Decide(p1, p0, None) == Mirror(Decide(p0, p1, None))
  {
  }
}
