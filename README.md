# 7 Wonders Duel score calculator — score engine model

A Dafny model of the score engine of a two-player score calculator for the
board game 7 Wonders Duel (`src/App.jsx`). Each player has a score sheet of
seven categories (military, civilian, wonders, progress, commercial, guilds,
coins) and a stored total. Three user operations change the state: a score
input for one category of one player (`updateScore`), an instant win by
military or scientific supremacy (`handleInstantWin`), and a new game
(`resetGame`). The winner is derived from the current state by a fixed chain
of rules.

Files:

- `wrappers.dfy` — `Option`.
- `scoring.dfy` (module `Scoring`) — the categories, the score record with its
  `Get`/`Set`, the total as the source computes it (drop the coins entry, add the
  rest from the left, add `floor(coins / 3)`), the player record with its
  consistency invariant, and `UpdatePlayer`, the pure core of one score input.
- `winning.dfy` (module `Winning`) — the winner chain `Decide`, the ranking
  `Beats` it applies, and the lemmas that characterise it.
- `game.dfy` (module `Game`) — the game state as a value, the operations as
  events (`Apply`, `Run` over a history), the lemmas about histories, and the
  class `ScoreBoard` whose fields `players` and `instantWinner` are the two
  state cells of the component, updated in place by `UpdateScore`,
  `HandleInstantWin` and `ResetGame`. `Scenarios` is a client that derives a few
  example games from the method contracts alone.

Modelling choices:

- Scores are `int`. Counts in the game are never negative, but the component
  clamps nothing: the `min="0"` on the input field is a browser hint, so a
  negative input reaches the total.
- The raw input arrives already parsed, as `Option<int>`: `None` stands for a
  value that does not parse (`NaN`), and it is stored as 0, as `|| 0` does.
- `floor(coins / 3)` is Dafny's `/` by 3, which rounds down for negative counts
  too; `CoinPoints` states the floor property outright.
- The three fixed reason strings of the numeric rule are the tags
  `HighestScore`, `CivilianCards` and `Tie`; the instant-win reason is an
  opaque string carried in `Declared`. A draw reports player index `-1`
  (`Winning.Draw`).
- "No winner" is decided on the totals alone: it holds for any state whose
  two totals are 0 (two coins each, or negative values that cancel), not only
  for the fresh game; `Game.NoWinnerBeyondFreshGame` exhibits such a state.

## Model

| member | source | states |
|---|---|---|
| `Scoring.Scores.Set` | src/App.jsx:105 | the new record holds the given value for the key and the old value for every other key |
| `Scoring.CoinPoints` | src/App.jsx:107 | coin points are the floor of coins / 3: `3r <= coins < 3r + 3` |
| `Scoring.WithoutCoins` | src/App.jsx:108-109 | the filter keeps exactly the keys other than coins and never lengthens the list |
| `Scoring.SumOver` | src/App.jsx:110 | no contract of its own: the left-to-right reduce; `Scoring.SumOverNonCoinKeys` characterises it over the non-coin keys |
| `Scoring.FilterDropsCoins` | src/App.jsx:15-26 | over the record's keys the filter yields the six non-coin keys in order |
| `Scoring.SumOverNonCoinKeys` | src/App.jsx:108-110 | the left fold over the non-coin keys adds each of their values exactly once |
| `Scoring.Total` | src/App.jsx:107-112 | no contract of its own: the total as computed (filter, reduce, coin points); `Scoring.TotalFormula` gives its closed form and the coin lemmas below its behaviour |
| `Scoring.TotalFormula` | src/App.jsx:107-112 | the total equals military + civilian + wonders + progress + commercial + guilds + floor(coins / 3) |
| `Scoring.FewCoinsAddNothing` | src/App.jsx:107 | 0, 1 or 2 coins give the same total as no coins |
| `Scoring.ThreeCoinsAddOnePoint` | src/App.jsx:107 | three more coins raise the total by exactly one |
| `Scoring.NonCoinCountsOnce` | src/App.jsx:108-112 | changing a non-coin category shifts the total by exactly the change |
| `Scoring.InitialPlayerConsistent` | src/App.jsx:15-26 | the initial record has every category 0 and a total that agrees with it |
| `Scoring.ParseOrZero` | src/App.jsx:105 | no contract of its own: the fall-back to 0 on an already parsed input, NaN (`None`) becoming 0; `Scoring.UpdatePlayer` states the stored value |
| `Scoring.UpdatePlayer` | src/App.jsx:103-112 | after a score input the key holds the parsed value (0 for unparsable input), every other key is unchanged, and the stored total equals the formula |
| `Scoring.UpdatePlayerIdempotent` | src/App.jsx:105-112 | entering the same input twice gives the same record as entering it once |
| `Winning.Decide` | src/App.jsx:131-155 | no winner only without an override and with both totals 0; a verdict names player 0, 1 or the draw index -1; a draw has reason Tie and equal totals. `OverrideDecides`, `NoWinnerIffTotalsZero` and `NumericVerdict` below characterise every branch |
| `Winning.OverrideDecides` | src/App.jsx:131-134 | with an override set, the verdict is that override, whatever the scores |
| `Winning.NoWinnerIffTotalsZero` | src/App.jsx:136-140 | without an override there is no winner if and only if both totals are 0 |
| `Winning.NumericVerdict` | src/App.jsx:142-153 | otherwise player 0 wins iff it beats player 1 (higher total, or equal total and more civilian points), player 1 iff it beats player 0, a draw (-1) iff neither; the reason names the deciding rule |
| `Winning.BeatsIsStrictOrder` | src/App.jsx:142-153 | the ranking is irreflexive, asymmetric and transitive, so at most one player wins |
| `Winning.Mirror` | src/App.jsx:142-153 | mirroring a verdict exchanges indices 0 and 1, keeps a draw and keeps the reason |
| `Winning.SwapPlayersMirrorsVerdict` | src/App.jsx:142-153 | swapping the two players swaps the winning index |
| `Game.WithScore` | src/App.jsx:101-115 | the target player's record is updated and the other player's record is kept |
| `Game.Apply` | src/App.jsx:100-129 | no contract of its own: the three handlers as events on the state value; `ScoreInputFrame`, `ApplyKeepsValid` and `ApplyIdempotent` characterise it, and each `ScoreBoard` method ensures its new state is `Apply` of the old one |
| `Game.Run` | src/App.jsx:100-129 | no contract of its own: a history of handler calls applied in order; `RunSnoc`, `RunKeepsValid`, `ScoreInputsKeepOverride`, `OnlyResetClearsOverride` and `ResetRestoresInitial` characterise it |
| `Game.RunSnoc` | src/App.jsx:100-129 | running a history and then one more handler call is applying that call to the result |
| `Game.InitialIsValid` | src/App.jsx:94-98 | the fresh game is consistent and has no winner |
| `Game.ApplyKeepsValid` | src/App.jsx:100-129 | every operation keeps each stored total equal to the formula |
| `Game.RunKeepsValid` | src/App.jsx:100-129 | so does every sequence of operations |
| `Game.ScoreInputFrame` | src/App.jsx:100-116 | a score input changes only the key of the target player (and that player's total); the other player and the override are unchanged |
| `Game.ApplyIdempotent` | src/App.jsx:100-129 | each of the three operations applied twice gives the state it gives once |
| `Game.ScoreInputsKeepOverride` | src/App.jsx:100-134 | after an instant win, any number of score inputs leave the override and the verdict as they were |
| `Game.LastDeclared` | src/App.jsx:119-121 | the override left by a run of declarations: the last one declared, or the earlier one if none; present whenever one was present before or any declaration occurs |
| `Game.OnlyResetClearsOverride` | src/App.jsx:119-134 | once an override is set, every history without a reset leaves exactly the latest declaration (`LastDeclared`) stored, and the verdict is that declaration |
| `Game.ResetRestoresInitial` | src/App.jsx:123-129 | after any history, a reset gives the fresh game, whose winner is none |
| `Game.NoWinnerBeyondFreshGame` | src/App.jsx:137-140 | a game with two coins per player differs from the fresh game and still has no winner |
| `Game.ScoreBoard.constructor` | src/App.jsx:94-98 | both players start as the initial record, no override |
| `Game.ScoreBoard.UpdateScore` | src/App.jsx:100-117 | the target key holds the parsed value, the target total equals the total of the new scores, the other player and the override are unchanged |
| `Game.ScoreBoard.HandleInstantWin` | src/App.jsx:119-121 | the override becomes the new declaration, replacing any earlier one; the players are unchanged |
| `Game.ScoreBoard.ResetGame` | src/App.jsx:123-129 | both players are the initial record and the override is cleared |

## Left out

- Rendering (`ScoreInput`, `PlayerPanel`, the page layout and buttons), icons, Thai labels and rule text: presentation only; the model keeps the seven keys as a datatype.
- The display check on the reason text of the winner panel: formatting of the reason string; reasons are tags here.
- React's state hooks, memoisation and the JSON deep copy: framework plumbing, modelled as field assignment and value copies.
- JavaScript `parseInt`: the input is taken as already parsed (`Option<int>`); decimal, whitespace and prefix handling of the parser are not modelled.
- JavaScript numbers are doubles: totals are exact unbounded integers here, so loss of precision beyond 2^53 is not modelled, nor are infinite values (`parseInt` of a very long digit string gives `Infinity`) and the NaN total of a sheet holding both `+Infinity` and `-Infinity`, for which both total comparisons of the winner rule are false and the verdict falls through to the civilian comparison.
- Score keys outside the seven categories: the source only passes keys from its category list, which the datatype enforces.
