/**
 * One player's score sheet: the seven score categories, the record of their
 * values, the derived total and the update applied when one input changes.
 */
module Scoring {
  import opened Wrappers

  /** The seven fixed score categories (the keys of the score record). */
  datatype Category = Military | Civilian | Wonders | Progress | Commercial | Guilds | Coins

  /** The keys of the score record in the order the initial record lists them; entries are enumerated in this order. */
  const Keys: seq<Category> := [Military, Civilian, Wonders, Progress, Commercial, Guilds, Coins]

  /** A value for every category. Values are unbounded integers: nothing clamps a negative input. */
  datatype Scores = Scores(military: int, civilian: int, wonders: int, progress: int,
                           commercial: int, guilds: int, coins: int)
  {
    function Get(k: Category): int
    {
      match k
      case Military => military
      case Civilian => civilian
      case Wonders => wonders
      case Progress => progress
      case Commercial => commercial
      case Guilds => guilds
      case Coins => coins
    }

    /** The record with the value of `k` replaced, every other key kept. */
    function Set(k: Category, v: int): (r: Scores)
      ensures r.Get(k) == v
      ensures forall j :: j != k ==> r.Get(j) == Get(j)
    {
      match k
      case Military => this.(military := v)
      case Civilian => this.(civilian := v)
      case Wonders => this.(wonders := v)
      case Progress => this.(progress := v)
      case Commercial => this.(commercial := v)
      case Guilds => this.(guilds := v)
      case Coins => this.(coins := v)
    }
  }

  const ZeroScores := Scores(0, 0, 0, 0, 0, 0, 0)

  /** The keys kept by the filter that drops the coins entry, in their original order. */
  function WithoutCoins(ks: seq<Category>): (r: seq<Category>)
    ensures |r| <= |ks|
    ensures forall k :: k in r <==> k in ks && k != Coins
  {
    if ks == [] then []
    else (if ks[0] == Coins then [] else [ks[0]]) + WithoutCoins(ks[1..])
  }

  /** The reduce that adds up the values of `ks`, folding from the left starting at 0. */
  function SumOver(s: Scores, ks: seq<Category>): int
  {
    if ks == [] then 0 else SumOver(s, ks[..|ks| - 1]) + s.Get(ks[|ks| - 1])
  }

  /** Coins convert at three to a point, rounding down (also for a negative count). */
  function CoinPoints(coins: int): (r: int)
    ensures 3 * r <= coins < 3 * r + 3
  {
    coins / 3
  }

  /** The total as the update computes it: the filtered reduce plus the coin points. */
  function Total(s: Scores): int
  {
    SumOver(s, WithoutCoins(Keys)) + CoinPoints(s.coins)
  }

  /** The non-coin keys, in order. */
  const NonCoinKeys: seq<Category> := [Military, Civilian, Wonders, Progress, Commercial, Guilds]

  /** The filter drops exactly the coins entry and keeps the order. */
  lemma FilterDropsCoins()
    ensures WithoutCoins(Keys) == NonCoinKeys
  {
  }

  /** The reduce over the non-coin keys adds each of their values once. */
  lemma {:induction false} SumOverNonCoinKeys(s: Scores)
    ensures SumOver(s, NonCoinKeys) == s.military + s.civilian + s.wonders + s.progress + s.commercial + s.guilds
  {
    var ks := NonCoinKeys;
    assert SumOver(s, ks[..0]) == 0;
    assert ks[..1][..0] == ks[..0];
    assert SumOver(s, ks[..1]) == s.military;
    assert ks[..2][..1] == ks[..1];
    assert SumOver(s, ks[..2]) == s.military + s.civilian;
    assert ks[..3][..2] == ks[..2];
    assert SumOver(s, ks[..3]) == s.military + s.civilian + s.wonders;
    assert ks[..4][..3] == ks[..3];
    assert SumOver(s, ks[..4]) == s.military + s.civilian + s.wonders + s.progress;
    assert ks[..5][..4] == ks[..4];
    assert SumOver(s, ks[..5]) == s.military + s.civilian + s.wonders + s.progress + s.commercial;
    assert ks[..6] == ks;
  }

  /** The total is each non-coin category once plus the coin points. */
  lemma TotalFormula(s: Scores)
    ensures Total(s) == s.military + s.civilian + s.wonders + s.progress + s.commercial + s.guilds
                        + CoinPoints(s.coins)
  {
    FilterDropsCoins();
    SumOverNonCoinKeys(s);
  }

  /** Zero, one or two coins add nothing to the total. */
  lemma FewCoinsAddNothing(s: Scores, c: int)
    requires 0 <= c < 3
    ensures Total(s.Set(Coins, c)) == Total(s.Set(Coins, 0))
  {
    TotalFormula(s.Set(Coins, c));
    TotalFormula(s.Set(Coins, 0));
  }

  /** Three more coins add exactly one point, whatever the count was. */
  lemma ThreeCoinsAddOnePoint(s: Scores)
    ensures Total(s.Set(Coins, s.coins + 3)) == Total(s) + 1
  {
    TotalFormula(s.Set(Coins, s.coins + 3));
    TotalFormula(s);
  }

  /** A non-coin category counts one to one: changing it shifts the total by the difference. */
  lemma NonCoinCountsOnce(s: Scores, k: Category, v: int)
    requires k != Coins
    ensures Total(s.Set(k, v)) == Total(s) - s.Get(k) + v
  {
    TotalFormula(s.Set(k, v));
    TotalFormula(s);
  }

  /** A player's record: the score sheet and the stored total. */
  datatype Player = Player(scores: Scores, totalScore: int)
  {
    /** The stored total agrees with the scores. */
    predicate Consistent()
    {
      totalScore == Total(scores)
    }
  }

  /** The record every player starts from: all categories 0, total 0. */
  const InitialPlayer := Player(ZeroScores, 0)

  lemma InitialPlayerConsistent()
    ensures InitialPlayer.Consistent()
    ensures forall k :: InitialPlayer.scores.Get(k) == 0
  {
    TotalFormula(ZeroScores);
  }

  /** The parsed input, where `None` is a value that does not parse (NaN) and becomes 0. */
  function ParseOrZero(v: Option<int>): int
  {
    match v
    case None => 0
    case Some(n) => n
  }

  /** One score input for one player: replace one category and recompute the total from the new scores. */
  function UpdatePlayer(pl: Player, k: Category, v: Option<int>): (r: Player)
    ensures r.Consistent()
    ensures r.scores.Get(k) == ParseOrZero(v)
    ensures forall j :: j != k ==> r.scores.Get(j) == pl.scores.Get(j)
    ensures r.totalScore == r.scores.military + r.scores.civilian + r.scores.wonders + r.scores.progress
                            + r.scores.commercial + r.scores.guilds + CoinPoints(r.scores.coins)
  {
    var scores := pl.scores.Set(k, ParseOrZero(v));
    var coinPoints := CoinPoints(scores.coins);
    var otherPoints := SumOver(scores, WithoutCoins(Keys));
    TotalFormula(scores);
    Player(scores, otherPoints + coinPoints)
  }

  /** Entering the same input twice leaves the record as entering it once. */
  lemma UpdatePlayerIdempotent(pl: Player, k: Category, v: Option<int>)
    ensures UpdatePlayer(UpdatePlayer(pl, k, v), k, v) == UpdatePlayer(pl, k, v)
  {
    var once := UpdatePlayer(pl, k, v);
    assert once.scores.Set(k, ParseOrZero(v)) == once.scores;
  }
}
