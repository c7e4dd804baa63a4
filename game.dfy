/**
 * The game state of the calculator (two player records and an optional
 * instant win), the three operations that change it, the winner query, and
 * what holds over any sequence of operations.
 */
module Game {
  import opened Wrappers
  import opened Scoring
  import opened Winning

  /** The two player records, indexed by position. */
  type Pair = s: seq<Player> | |s| == 2 witness [InitialPlayer, InitialPlayer]

  /** The state as a value: the players and the instant-win override. */
  datatype GameState = GameState(players: Pair, instantWinner: Option<InstantWin>)
  {
    /** Every stored total agrees with its scores. */
    predicate Valid()
    {
      forall i :: 0 <= i < 2 ==> players[i].Consistent()
    }

    function Winner(): Option<Verdict>
    {
      Decide(players[0], players[1], instantWinner)
    }
  }

  /** A fresh game: two copies of the initial player record and no override. */
  const Initial := GameState([InitialPlayer, InitialPlayer], None)

  /** The operations a user can trigger. */
  datatype Event =
    | ScoreInput(player: PlayerId, key: Category, value: Option<int>)
    | InstantWinDeclared(player: PlayerId, reason: string)
    | ResetRequested

  /** The player array after one score input: the target player updated, the other one kept. */
  function WithScore(ps: Pair, p: PlayerId, k: Category, v: Option<int>): (r: Pair)
    ensures r[p] == UpdatePlayer(ps[p], k, v)
    ensures r[1 - p] == ps[1 - p]
  {
    ps[p := UpdatePlayer(ps[p], k, v)]
  }

  /** The state after one operation. */
  function Apply(g: GameState, e: Event): GameState
  {
    match e
    case ScoreInput(p, k, v) => g.(players := WithScore(g.players, p, k, v))
    case InstantWinDeclared(p, reason) => g.(instantWinner := Some(InstantWin(p, reason)))
    case ResetRequested => Initial
  }

  /** The state after a sequence of operations, applied in order. */
  function Run(g: GameState, es: seq<Event>): GameState
    decreases |es|
  {
    if es == [] then g else Run(Apply(g, es[0]), es[1..])
  }

  /** The fresh game is consistent and has no winner. */
  lemma InitialIsValid()
    ensures Initial.Valid()
    ensures Initial.Winner() == None
  {
    InitialPlayerConsistent();
  }

  /** Every operation keeps every stored total in agreement with its scores. */
  lemma ApplyKeepsValid(g: GameState, e: Event)
    requires g.Valid()
    ensures Apply(g, e).Valid()
  {
    InitialIsValid();
  }

  /** So does any sequence of operations. */
  lemma {:induction false} RunKeepsValid(g: GameState, es: seq<Event>)
    requires g.Valid()
    ensures Run(g, es).Valid()
    decreases |es|
  {
    if es != [] {
      ApplyKeepsValid(g, es[0]);
      RunKeepsValid(Apply(g, es[0]), es[1..]);
    }
  }

  /** Running a sequence and then one more operation is applying that operation to the result. */
  lemma {:induction false} RunSnoc(g: GameState, es: seq<Event>, e: Event)
    ensures Run(g, es + [e]) == Apply(Run(g, es), e)
    decreases |es|
  {
    if es == [] {
      assert [] + [e] == [e];
    } else {
      assert (es + [e])[1..] == es[1..] + [e];
      RunSnoc(Apply(g, es[0]), es[1..], e);
    }
  }

  /**
   * A score input changes one category of one player and that player's total,
   * and nothing else: the other player and the override are kept.
   */
  lemma ScoreInputFrame(g: GameState, p: PlayerId, k: Category, v: Option<int>)
    ensures var h := Apply(g, ScoreInput(p, k, v));
      && h.players[p].scores.Get(k) == ParseOrZero(v)
      && (forall j :: j != k ==> h.players[p].scores.Get(j) == g.players[p].scores.Get(j))
      && h.players[1 - p] == g.players[1 - p]
      && h.instantWinner == g.instantWinner
  {
  }

  /** Every operation is idempotent: applying it twice is applying it once. */
  lemma ApplyIdempotent(g: GameState, e: Event)
    ensures Apply(Apply(g, e), e) == Apply(g, e)
  {
    if e.ScoreInput? {
      UpdatePlayerIdempotent(g.players[e.player], e.key, e.value);
    }
  }

  /** Score inputs never clear or change an override, so the verdict stays the declared one. */
  lemma {:induction false} ScoreInputsKeepOverride(g: GameState, es: seq<Event>)
    requires g.instantWinner.Some?
    requires forall i :: 0 <= i < |es| ==> es[i].ScoreInput?
    ensures Run(g, es).instantWinner == g.instantWinner
    ensures Run(g, es).Winner() == g.Winner()
    decreases |es|
  {
    if es != [] {
      ScoreInputsKeepOverride(Apply(g, es[0]), es[1..]);
    }
  }

  /** The override after the declarations in `es`: the last one declared, or `o` if there is none. */
  function LastDeclared(o: Option<InstantWin>, es: seq<Event>): (r: Option<InstantWin>)
    ensures o.Some? ==> r.Some?
    ensures (exists i :: 0 <= i < |es| && es[i].InstantWinDeclared?) ==> r.Some?
    decreases |es|
  {
    if es == [] then o
    else
      var o' := if es[0].InstantWinDeclared? then Some(InstantWin(es[0].player, es[0].reason)) else o;
      var r := LastDeclared(o', es[1..]);
      assert forall i :: 1 <= i < |es| ==> es[1..][i - 1] == es[i];
      r
  }

  /** Once an override is set, only a reset removes it; the stored one is the latest declaration. */
  lemma {:induction false} OnlyResetClearsOverride(g: GameState, es: seq<Event>)
    requires g.instantWinner.Some?
    requires forall i :: 0 <= i < |es| ==> !es[i].ResetRequested?
    ensures Run(g, es).instantWinner == LastDeclared(g.instantWinner, es)
    ensures Run(g, es).instantWinner.Some?
    ensures Run(g, es).Winner() == Some(Verdict(Run(g, es).instantWinner.value.player,
                                                Declared(Run(g, es).instantWinner.value.reason)))
    decreases |es|
  {
    if es != [] {
      OnlyResetClearsOverride(Apply(g, es[0]), es[1..]);
    }
  }

  /** Whatever happened before, a reset gives the fresh game back, with no winner. */
  lemma ResetRestoresInitial(g: GameState, es: seq<Event>)
    ensures Run(g, es + [ResetRequested]) == Initial
    ensures Run(g, es + [ResetRequested]).Winner() == None
  {
    RunSnoc(g, es, ResetRequested);
    InitialIsValid();
  }

  /** "No winner" is not only the fresh game: two coins each also leaves both totals at zero. */
  lemma NoWinnerBeyondFreshGame()
    ensures var g := Run(Initial, [ScoreInput(0, Coins, Some(2)), ScoreInput(1, Coins, Some(2))]);
      g != Initial && g.Winner() == None
  {
  }

  /** The live calculator: the two state cells, updated in place by the three operations. */
  class ScoreBoard {
    var players: Pair
    var instantWinner: Option<InstantWin>

    function State(): GameState
      reads this
    {
      GameState(players, instantWinner)
    }

    ghost predicate Valid()
      reads this
    {
      State().Valid()
    }

    /** Both players start from copies of the initial record; no override. */
    constructor ()
      ensures Valid()
      ensures State() == Initial
    {
      players := [InitialPlayer, InitialPlayer];
      instantWinner := None;
      new;
      InitialIsValid();
    }

    /** Store one score input for one player and recompute that player's total. */
    method UpdateScore(p: PlayerId, k: Category, v: Option<int>)
      requires Valid()
      modifies this
      ensures Valid()
      ensures State() == Apply(old(State()), ScoreInput(p, k, v))
      ensures players[p].scores == old(players[p].scores).Set(k, ParseOrZero(v))
      ensures players[p].totalScore == Total(players[p].scores)
      ensures players[1 - p] == old(players[1 - p])
      ensures instantWinner == old(instantWinner)
    {
      var newPlayers := players;
      var player := newPlayers[p];
      var scores := player.scores.Set(k, ParseOrZero(v));
      var coinPoints := CoinPoints(scores.coins);
      var otherPoints := SumOver(scores, WithoutCoins(Keys));
      player := player.(scores := scores, totalScore := otherPoints + coinPoints);
      newPlayers := newPlayers[p := player];
      players := newPlayers;
      ApplyKeepsValid(old(State()), ScoreInput(p, k, v));
    }

    /** Declare an instant win, replacing any earlier one; the scores are untouched. */
    method HandleInstantWin(p: PlayerId, reason: string)
      requires Valid()
      modifies this
      ensures Valid()
      ensures State() == Apply(old(State()), InstantWinDeclared(p, reason))
      ensures instantWinner == Some(InstantWin(p, reason))
      ensures players == old(players)
    {
      instantWinner := Some(InstantWin(p, reason));
    }

    /** Restore both players to the initial record and clear the override. */
    method ResetGame()
      modifies this
      ensures Valid()
      ensures State() == Apply(old(State()), ResetRequested)
      ensures players == [InitialPlayer, InitialPlayer]
      ensures instantWinner == None
    {
      players := [InitialPlayer, InitialPlayer];
      instantWinner := None;
      InitialIsValid();
    }

    /** The winner of the current state. */
    function Winner(): Option<Verdict>
      reads this
    {
      State().Winner()
    }
  }

  /** Example games, derived from the operations' contracts alone. */
  method Scenarios()
  {
    // A fresh game has no winner.
    var b := new ScoreBoard();
    InitialIsValid();
    assert b.Winner() == None;

    // 10 military against 5: player 0 wins on the higher total.
    b.UpdateScore(0, Military, Some(10));
    b.UpdateScore(1, Military, Some(5));
    assert b.players[0].totalScore == 10 && b.players[1].totalScore == 5;
    assert b.Winner() == Some(Verdict(0, HighestScore));

    // 10 coins (3 points) against 3 civilian: equal totals, player 1 wins on civilian points.
    b.ResetGame();
    b.UpdateScore(0, Coins, Some(10));
    b.UpdateScore(1, Civilian, Some(3));
    assert b.players[0].totalScore == 3 && b.players[1].totalScore == 3;
    assert b.Winner() == Some(Verdict(1, CivilianCards));

    // The same nonzero scores on both sides are a draw.
    b.ResetGame();
    b.UpdateScore(0, Wonders, Some(7));
    b.UpdateScore(1, Wonders, Some(7));
    assert b.Winner() == Some(Verdict(Draw, Tie));

    // A declared instant win decides even at zero points each, and survives later inputs.
    b.ResetGame();
    b.HandleInstantWin(0, "Scientific Supremacy");
    assert b.Winner() == Some(Verdict(0, Declared("Scientific Supremacy")));
    b.UpdateScore(1, Military, None);
    assert b.Winner() == Some(Verdict(0, Declared("Scientific Supremacy")));

    // A reset clears it again.
    b.ResetGame();
    assert b.Winner() == None;
  }
}
