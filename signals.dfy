/** Per-bar signal scoring (the body of `verileri_getir`): a fixed sequence of checks
    on the last two bars, each of which may append one tag to the signal list and add
    its points to the running score. */
module Signals {
  import opened Frames
  import opened Decision

  /** The sidebar settings the scorer reads. */
  datatype Config = Config(rsiLow: real, rsiHigh: real, atrMult: real)

  /** The tags of the signal list, one per check outcome. */
  datatype Signal =
    | RsiBottom          // RSI DİP
    | RsiPeak            // RSI ZİRVE
    | MacdBuy            // MACD AL
    | GoldenCross        // GOLDEN CROSS
    | StrongTrend        // GÜÇLÜ TREND
    | WeakTrend          // ZAYIF TREND
    | BandBottom         // BB DİP
    | BandPeak           // BB ZİRVE
    | StochBuy           // STOCH AL
    | StochSell          // STOCH SAT
    | HighVolume         // YÜKSEK HACİM
    | MoneyInflow        // PARA GİRİŞİ
    | BullishEngulfing   // YUTAN BOĞA
    | HammerCandle       // ÇEKİÇ
    | InPortfolio        // PORTFÖYDE

  /** The score contribution of each tag. */
  function Points(s: Signal): int {
    match s
    case RsiBottom => 2
    case RsiPeak => -2
    case MacdBuy => 3
    case GoldenCross => 5
    case StrongTrend => 1
    case WeakTrend => 0
    case BandBottom => 2
    case BandPeak => -2
    case StochBuy => 2
    case StochSell => -1
    case HighVolume => 1
    case MoneyInflow => 1
    case BullishEngulfing => 2
    case HammerCandle => 2
    case InPortfolio => 0
  }

  /** Every tag, in the order the scan tests for it and appends it. */
  const CATALOGUE: seq<Signal> := [
    RsiBottom, RsiPeak, MacdBuy, GoldenCross, StrongTrend, WeakTrend, BandBottom, BandPeak,
    StochBuy, StochSell, HighVolume, MoneyInflow, BullishEngulfing, HammerCandle, InPortfolio
  ]

  /** Where each tag stands in the catalogue. */
  function Position(s: Signal): (k: nat)
    ensures k < |CATALOGUE| && CATALOGUE[k] == s
  {
    match s
    case RsiBottom => 0
    case RsiPeak => 1
    case MacdBuy => 2
    case GoldenCross => 3
    case StrongTrend => 4
    case WeakTrend => 5
    case BandBottom => 6
    case BandPeak => 7
    case StochBuy => 8
    case StochSell => 9
    case HighVolume => 10
    case MoneyInflow => 11
    case BullishEngulfing => 12
    case HammerCandle => 13
    case InPortfolio => 14
  }

  /** The RSI the scan works with: the last bar's RSI, or 50 when it is NaN. */
  function EffectiveRsi(b: Bar): (r: real)
    ensures b.rsi.Num? ==> r == b.rsi.x
    ensures b.rsi.NaN? ==> r == 50.0
  {
    if b.rsi.Num? then b.rsi.x else 50.0
  }

  predicate BandsPresent(f: Frame) {
    BandLower in f.columns && BandUpper in f.columns
  }

  predicate StochPresent(f: Frame) {
    StochK in f.columns && StochD in f.columns
  }

  /** The stochastic buy condition: %K below 20 and above %D. */
  predicate StochBuyZone(b: Bar) {
    Lt(b.stochK, Num(20.0)) && Gt(b.stochK, b.stochD)
  }

  /** When the check behind tag s fires. Tags of one if/elif chain exclude each other;
      a check whose prefixed column is missing never fires. */
  predicate Active(s: Signal, f: Frame, cfg: Config, held: bool) {
    var b := f.last;
    var rsi := EffectiveRsi(b);
    match s
    case RsiBottom => rsi < cfg.rsiLow
    case RsiPeak => !(rsi < cfg.rsiLow) && rsi > cfg.rsiHigh
    case MacdBuy =>
      MacdLine in f.columns && MacdSignalLine in f.columns &&
      CrossedAbove(b.macd, b.macdSignal, f.prev.macd, f.prev.macdSignal)
    case GoldenCross => CrossedAbove(b.sma50, b.sma200, f.prev.sma50, f.prev.sma200)
    case StrongTrend => AdxLine in f.columns && Gt(b.adx, Num(25.0))
    case WeakTrend => AdxLine in f.columns && !Gt(b.adx, Num(25.0)) && Lt(b.adx, Num(20.0))
    case BandBottom => BandsPresent(f) && Lt(Num(b.close), b.bbLower)
    case BandPeak => BandsPresent(f) && !Lt(Num(b.close), b.bbLower) && Gt(Num(b.close), b.bbUpper)
    case StochBuy => StochPresent(f) && StochBuyZone(b)
    case StochSell => StochPresent(f) && !StochBuyZone(b) && Gt(b.stochK, Num(80.0))
    case HighVolume => Gt(b.volume, Scale(b.volumeSma, 1.5))
    case MoneyInflow => Gt(b.obv, b.obvSma)
    case BullishEngulfing => EngulfingFlag in f.columns && b.engulfing == Num(100.0)
    case HammerCandle =>
      EngulfingFlag in f.columns && HammerFlag in f.columns && b.hammer == Num(100.0)
    case InPortfolio => held
  }

  /** The tags of `c` whose checks fire, in the order of `c`. */
  function ActiveSignals(c: seq<Signal>, f: Frame, cfg: Config, held: bool): seq<Signal> {
    if c == [] then []
    else
      ActiveSignals(c[..|c| - 1], f, cfg, held) +
      (if Active(c[|c| - 1], f, cfg, held) then [c[|c| - 1]] else [])
  }

  /** Extending the catalogue prefix by one tag extends the active tags by at most that tag. */
  lemma ActiveSignalsStep(c: seq<Signal>, k: nat, f: Frame, cfg: Config, held: bool)
    requires k < |c|
    ensures ActiveSignals(c[..k + 1], f, cfg, held) ==
            ActiveSignals(c[..k], f, cfg, held) + (if Active(c[k], f, cfg, held) then [c[k]] else [])
  {
    assert c[..k + 1][..k] == c[..k];
  }

  /** The score of a tag list: the sum of its tags' points. */
  function TotalPoints(tags: seq<Signal>): int {
    if tags == [] then 0 else TotalPoints(tags[..|tags| - 1]) + Points(tags[|tags| - 1])
  }

  /** The candle pattern named in the commentary; a hammer overrides an engulfing. */
  datatype Pattern = NoPattern | EngulfingPattern | HammerPattern

  /** What the scorer hands on: the score, the tag list and the flags the decision
      and the commentary read. */
  datatype Evaluation = Evaluation(
    score: int,
    tags: seq<Signal>,
    macdBuy: bool,
    goldenCross: bool,
    strongTrend: bool,
    band: Option<Side>,
    stoch: Option<Side>,
    highVolume: bool,
    pattern: Pattern)

  /** The score and the flags, read off a tag list. */
  function Summarize(tags: seq<Signal>): Evaluation {
    Evaluation(
      TotalPoints(tags), tags,
      MacdBuy in tags, GoldenCross in tags, StrongTrend in tags,
      SideOf(BandBottom in tags, BandPeak in tags),
      SideOf(StochBuy in tags, StochSell in tags),
      HighVolume in tags,
      PatternOf(BullishEngulfing in tags, HammerCandle in tags))
  }

  /** The "AL" / "SAT" / None value of a two-way check. */
  function SideOf(buy: bool, sell: bool): Option<Side> {
    if buy then Some(BuySide) else if sell then Some(SellSide) else None
  }

  /** The pattern name of the candle checks: the later hammer overrides the engulfing. */
  function PatternOf(engulfing: bool, hammer: bool): Pattern {
    if hammer then HammerPattern else if engulfing then EngulfingPattern else NoPattern
  }

  /** The specification of the scorer: the active tags in catalogue order, summarized. */
  function Evaluate(f: Frame, cfg: Config, held: bool): Evaluation {
    Summarize(ActiveSignals(CATALOGUE, f, cfg, held))
  }

  /** The running state after the checks for the first k catalogue tags: the tags
      appended so far are exactly the active ones among them, and the score is their sum. */
  ghost predicate ScoredUpTo(k: nat, tags: seq<Signal>, score: int, f: Frame, cfg: Config, held: bool)
    requires k <= |CATALOGUE|
  {
    tags == ActiveSignals(CATALOGUE[..k], f, cfg, held) && score == TotalPoints(tags)
  }

  /** Appending one tag adds its points. */
  lemma TotalPointsPush(tags: seq<Signal>, s: Signal)
    ensures TotalPoints(tags + [s]) == TotalPoints(tags) + Points(s)
  {
    assert (tags + [s])[..|tags|] == tags;
  }

  /** RSI below the lower setting: +2; else above the upper setting: -2. */
  method ScoreRsi(f: Frame, cfg: Config, held: bool, tags: seq<Signal>, score: int)
    returns (tags': seq<Signal>, score': int)
    requires ScoredUpTo(0, tags, score, f, cfg, held)
    ensures ScoredUpTo(2, tags', score', f, cfg, held)
  {
    var rsi := EffectiveRsi(f.last);
    tags', score' := tags, score;
    if rsi < cfg.rsiLow {
      TotalPointsPush(tags', RsiBottom);
      tags', score' := tags' + [RsiBottom], score' + 2;
    } else if rsi > cfg.rsiHigh {
      TotalPointsPush(tags', RsiPeak);
      tags', score' := tags' + [RsiPeak], score' - 2;
    }
    ActiveSignalsStep(CATALOGUE, 0, f, cfg, held);
    ActiveSignalsStep(CATALOGUE, 1, f, cfg, held);
  }

  /** MACD line crossing above its signal line: +3. */
  method ScoreMacd(f: Frame, cfg: Config, held: bool, tags: seq<Signal>, score: int)
    returns (macdBuy: bool, tags': seq<Signal>, score': int)
    requires ScoredUpTo(2, tags, score, f, cfg, held)
    ensures ScoredUpTo(3, tags', score', f, cfg, held)
    ensures macdBuy == Active(MacdBuy, f, cfg, held)
  {
    var son, onceki := f.last, f.prev;
    macdBuy, tags', score' := false, tags, score;
    if MacdLine in f.columns && MacdSignalLine in f.columns {
      if Gt(son.macd, son.macdSignal) && Lt(onceki.macd, onceki.macdSignal) {
        TotalPointsPush(tags', MacdBuy);
        macdBuy := true;
        tags', score' := tags' + [MacdBuy], score' + 3;
      }
    }
    ActiveSignalsStep(CATALOGUE, 2, f, cfg, held);
  }

  /** SMA 50 crossing above SMA 200: +5. */
  method ScoreGoldenCross(f: Frame, cfg: Config, held: bool, tags: seq<Signal>, score: int)
    returns (goldenCross: bool, tags': seq<Signal>, score': int)
    requires ScoredUpTo(3, tags, score, f, cfg, held)
    ensures ScoredUpTo(4, tags', score', f, cfg, held)
    ensures goldenCross == Active(GoldenCross, f, cfg, held)
  {
    var son, onceki := f.last, f.prev;
    goldenCross, tags', score' := false, tags, score;
    if Gt(son.sma50, son.sma200) && Lt(onceki.sma50, onceki.sma200) {
      TotalPointsPush(tags', GoldenCross);
      goldenCross := true;
      tags', score' := tags' + [GoldenCross], score' + 5;
    }
    ActiveSignalsStep(CATALOGUE, 3, f, cfg, held);
  }

  /** ADX above 25: strong trend, +1; else below 20: weak trend, no points. */
  method ScoreTrend(f: Frame, cfg: Config, held: bool, tags: seq<Signal>, score: int)
    returns (strongTrend: bool, tags': seq<Signal>, score': int)
    requires ScoredUpTo(4, tags, score, f, cfg, held)
    ensures ScoredUpTo(6, tags', score', f, cfg, held)
    ensures strongTrend == Active(StrongTrend, f, cfg, held)
  {
    var son := f.last;
    strongTrend, tags', score' := false, tags, score;
    if AdxLine in f.columns {
      if Gt(son.adx, Num(25.0)) {
        TotalPointsPush(tags', StrongTrend);
        strongTrend := true;
        tags', score' := tags' + [StrongTrend], score' + 1;
      } else if Lt(son.adx, Num(20.0)) {
        TotalPointsPush(tags', WeakTrend);
        tags' := tags' + [WeakTrend];
      }
    }
    ActiveSignalsStep(CATALOGUE, 4, f, cfg, held);
    ActiveSignalsStep(CATALOGUE, 5, f, cfg, held);
  }

  /** Close below the lower Bollinger band: +2; else above the upper band: -2. */
  method ScoreBands(f: Frame, cfg: Config, held: bool, tags: seq<Signal>, score: int)
    returns (band: Option<Side>, tags': seq<Signal>, score': int)
    requires ScoredUpTo(6, tags, score, f, cfg, held)
    ensures ScoredUpTo(8, tags', score', f, cfg, held)
    ensures band == SideOf(Active(BandBottom, f, cfg, held), Active(BandPeak, f, cfg, held))
  {
    var son := f.last;
    band, tags', score' := None, tags, score;
    if BandLower in f.columns && BandUpper in f.columns {
      if Lt(Num(son.close), son.bbLower) {
        TotalPointsPush(tags', BandBottom);
        band := Some(BuySide);
        tags', score' := tags' + [BandBottom], score' + 2;
      } else if Gt(Num(son.close), son.bbUpper) {
        TotalPointsPush(tags', BandPeak);
        band := Some(SellSide);
        tags', score' := tags' + [BandPeak], score' - 2;
      }
    }
    ActiveSignalsStep(CATALOGUE, 6, f, cfg, held);
    ActiveSignalsStep(CATALOGUE, 7, f, cfg, held);
  }

  /** %K below 20 and above %D: +2; else %K above 80: -1. */
  method ScoreStoch(f: Frame, cfg: Config, held: bool, tags: seq<Signal>, score: int)
    returns (stoch: Option<Side>, tags': seq<Signal>, score': int)
    requires ScoredUpTo(8, tags, score, f, cfg, held)
    ensures ScoredUpTo(10, tags', score', f, cfg, held)
    ensures stoch == SideOf(Active(StochBuy, f, cfg, held), Active(StochSell, f, cfg, held))
  {
    var son := f.last;
    stoch, tags', score' := None, tags, score;
    if StochK in f.columns && StochD in f.columns {
      if Lt(son.stochK, Num(20.0)) && Gt(son.stochK, son.stochD) {
        TotalPointsPush(tags', StochBuy);
        stoch := Some(BuySide);
        tags', score' := tags' + [StochBuy], score' + 2;
      } else if Gt(son.stochK, Num(80.0)) {
        TotalPointsPush(tags', StochSell);
        stoch := Some(SellSide);
        tags', score' := tags' + [StochSell], score' - 1;
      }
    }
    ActiveSignalsStep(CATALOGUE, 8, f, cfg, held);
    ActiveSignalsStep(CATALOGUE, 9, f, cfg, held);
  }

  /** Volume above 1.5 times its 20-bar mean: +1. */
  method ScoreVolume(f: Frame, cfg: Config, held: bool, tags: seq<Signal>, score: int)
    returns (highVolume: bool, tags': seq<Signal>, score': int)
    requires ScoredUpTo(10, tags, score, f, cfg, held)
    ensures ScoredUpTo(11, tags', score', f, cfg, held)
    ensures highVolume == Active(HighVolume, f, cfg, held)
  {
    var son := f.last;
    highVolume, tags', score' := false, tags, score;
    if Gt(son.volume, Scale(son.volumeSma, 1.5)) {
      TotalPointsPush(tags', HighVolume);
      highVolume := true;
      tags', score' := tags' + [HighVolume], score' + 1;
    }
    ActiveSignalsStep(CATALOGUE, 10, f, cfg, held);
  }

  /** On-balance volume above its 20-bar mean: +1. */
  method ScoreObv(f: Frame, cfg: Config, held: bool, tags: seq<Signal>, score: int)
    returns (tags': seq<Signal>, score': int)
    requires ScoredUpTo(11, tags, score, f, cfg, held)
    ensures ScoredUpTo(12, tags', score', f, cfg, held)
  {
    var son := f.last;
    tags', score' := tags, score;
    if Gt(son.obv, son.obvSma) {
      TotalPointsPush(tags', MoneyInflow);
      tags', score' := tags' + [MoneyInflow], score' + 1;
    }
    ActiveSignalsStep(CATALOGUE, 11, f, cfg, held);
  }

  /** Bullish engulfing: +2; then hammer: +2. Both sit in one lookup block, so a missing
      engulfing column skips the hammer check as well. */
  method ScoreCandles(f: Frame, cfg: Config, held: bool, tags: seq<Signal>, score: int)
    returns (pattern: Pattern, tags': seq<Signal>, score': int)
    requires ScoredUpTo(12, tags, score, f, cfg, held)
    ensures ScoredUpTo(14, tags', score', f, cfg, held)
    ensures pattern == PatternOf(Active(BullishEngulfing, f, cfg, held), Active(HammerCandle, f, cfg, held))
  {
    var son := f.last;
    pattern, tags', score' := NoPattern, tags, score;
    if EngulfingFlag in f.columns {
      if son.engulfing == Num(100.0) {
        TotalPointsPush(tags', BullishEngulfing);
        pattern := EngulfingPattern;
        tags', score' := tags' + [BullishEngulfing], score' + 2;
      }
      ActiveSignalsStep(CATALOGUE, 12, f, cfg, held);
      assert ScoredUpTo(13, tags', score', f, cfg, held);
      if HammerFlag in f.columns {
        if son.hammer == Num(100.0) {
          TotalPointsPush(tags', HammerCandle);
          pattern := HammerPattern;
          tags', score' := tags' + [HammerCandle], score' + 2;
        }
      }
      ActiveSignalsStep(CATALOGUE, 13, f, cfg, held);
    } else {
      ActiveSignalsStep(CATALOGUE, 12, f, cfg, held);
      ActiveSignalsStep(CATALOGUE, 13, f, cfg, held);
    }
  }

  /** The scorer as the scan runs it: a running score and tag list threaded through
      the checks in source order, with the flags kept in their own variables, and a
      portfolio tag (no points) last. */
  method ScoreBar(f: Frame, cfg: Config, held: bool) returns (e: Evaluation)
    ensures e.tags == ActiveSignals(CATALOGUE, f, cfg, held)
    ensures e.score == TotalPoints(e.tags)
    ensures e.macdBuy == Active(MacdBuy, f, cfg, held)
    ensures e.goldenCross == Active(GoldenCross, f, cfg, held)
    ensures e.strongTrend == Active(StrongTrend, f, cfg, held)
    ensures e.band == SideOf(Active(BandBottom, f, cfg, held), Active(BandPeak, f, cfg, held))
    ensures e.stoch == SideOf(Active(StochBuy, f, cfg, held), Active(StochSell, f, cfg, held))
    ensures e.highVolume == Active(HighVolume, f, cfg, held)
    ensures e.pattern == PatternOf(Active(BullishEngulfing, f, cfg, held), Active(HammerCandle, f, cfg, held))
    ensures e == Evaluate(f, cfg, held)
  {
    var tags: seq<Signal> := [];
    var score := 0;
    assert CATALOGUE[..0] == [];
    tags, score := ScoreRsi(f, cfg, held, tags, score);
    var macdBuy;
    macdBuy, tags, score := ScoreMacd(f, cfg, held, tags, score);
    var goldenCross;
    goldenCross, tags, score := ScoreGoldenCross(f, cfg, held, tags, score);
    var strongTrend;
    strongTrend, tags, score := ScoreTrend(f, cfg, held, tags, score);
    var band;
    band, tags, score := ScoreBands(f, cfg, held, tags, score);
    var stoch;
    stoch, tags, score := ScoreStoch(f, cfg, held, tags, score);
    var highVolume;
    highVolume, tags, score := ScoreVolume(f, cfg, held, tags, score);
    tags, score := ScoreObv(f, cfg, held, tags, score);
    var pattern;
    pattern, tags, score := ScoreCandles(f, cfg, held, tags, score);
    if held {
      TotalPointsPush(tags, InPortfolio);
      tags := tags + [InPortfolio];
    }
    ActiveSignalsStep(CATALOGUE, 14, f, cfg, held);
    assert CATALOGUE[..15] == CATALOGUE;
    e := Evaluation(score, tags, macdBuy, goldenCross, strongTrend, band, stoch, highVolume, pattern);
    EvaluateFlags(f, cfg, held);
  }

  // ---------------------------------------------------------------------------
  // Properties of the scoring specification

  /** A tag is in the list exactly when it is in the catalogue and its check fires. */
  lemma {:induction false} ActiveSignalsMembership(c: seq<Signal>, f: Frame, cfg: Config, held: bool, s: Signal)
    ensures s in ActiveSignals(c, f, cfg, held) <==> s in c && Active(s, f, cfg, held)
  {
    if c != [] {
      var init := c[..|c| - 1];
      ActiveSignalsMembership(init, f, cfg, held, s);
      assert c == init + [c[|c| - 1]];
    }
  }

  /** No tag is appended twice. */
  lemma {:induction false} ActiveSignalsDistinct(c: seq<Signal>, f: Frame, cfg: Config, held: bool)
    requires forall i, j :: 0 <= i < j < |c| ==> c[i] != c[j]
    ensures var t := ActiveSignals(c, f, cfg, held);
            forall i, j :: 0 <= i < j < |t| ==> t[i] != t[j]
  {
    if c != [] {
      var init := c[..|c| - 1];
      ActiveSignalsDistinct(init, f, cfg, held);
      ActiveSignalsMembership(init, f, cfg, held, c[|c| - 1]);
    }
  }

  /** The sum of the negative and of the positive points of a tag list. */
  function NegativePoints(c: seq<Signal>): int {
    if c == [] then 0 else NegativePoints(c[..|c| - 1]) + (if Points(c[|c| - 1]) < 0 then Points(c[|c| - 1]) else 0)
  }

  function PositivePoints(c: seq<Signal>): int {
    if c == [] then 0 else PositivePoints(c[..|c| - 1]) + (if Points(c[|c| - 1]) > 0 then Points(c[|c| - 1]) else 0)
  }

  /** Whatever fires, the score lies between the catalogue's negative and positive totals. */
  lemma {:induction false} TotalPointsBetween(c: seq<Signal>, f: Frame, cfg: Config, held: bool)
    ensures NegativePoints(c) <= TotalPoints(ActiveSignals(c, f, cfg, held)) <= PositivePoints(c)
  {
    if c != [] {
      var init := c[..|c| - 1];
      var last := c[|c| - 1];
      TotalPointsBetween(init, f, cfg, held);
      var a := ActiveSignals(init, f, cfg, held);
      assert NegativePoints(c) == NegativePoints(init) + (if Points(last) < 0 then Points(last) else 0);
      assert PositivePoints(c) == PositivePoints(init) + (if Points(last) > 0 then Points(last) else 0);
      if Active(last, f, cfg, held) {
        TotalPointsPush(a, last);
        assert ActiveSignals(c, f, cfg, held) == a + [last];
      } else {
        assert ActiveSignals(c, f, cfg, held) == a + [];
        assert a + [] == a;
      }
    }
  }

  lemma NegativePointsStep(c: seq<Signal>, k: nat)
    requires k < |c|
    ensures NegativePoints(c[..k + 1]) == NegativePoints(c[..k]) + (if Points(c[k]) < 0 then Points(c[k]) else 0)
  {
    assert c[..k + 1][..k] == c[..k];
  }

  lemma PositivePointsStep(c: seq<Signal>, k: nat)
    requires k < |c|
    ensures PositivePoints(c[..k + 1]) == PositivePoints(c[..k]) + (if Points(c[k]) > 0 then Points(c[k]) else 0)
  {
    assert c[..k + 1][..k] == c[..k];
  }

  /** The negative points of the catalogue: RSI peak, band peak, stochastic sell. */
  lemma CatalogueNegativePoints()
    ensures NegativePoints(CATALOGUE) == -5
  {
    var c := CATALOGUE;
    assert c[..0] == [];
    NegativePointsStep(c, 0);
    assert NegativePoints(c[..1]) == 0;
    NegativePointsStep(c, 1);
    assert NegativePoints(c[..2]) == -2;
    NegativePointsStep(c, 2);
    assert NegativePoints(c[..3]) == -2;
    NegativePointsStep(c, 3);
    assert NegativePoints(c[..4]) == -2;
    NegativePointsStep(c, 4);
    assert NegativePoints(c[..5]) == -2;
    NegativePointsStep(c, 5);
    assert NegativePoints(c[..6]) == -2;
    NegativePointsStep(c, 6);
    assert NegativePoints(c[..7]) == -2;
    NegativePointsStep(c, 7);
    assert NegativePoints(c[..8]) == -4;
    NegativePointsStep(c, 8);
    assert NegativePoints(c[..9]) == -4;
    NegativePointsStep(c, 9);
    assert NegativePoints(c[..10]) == -5;
    NegativePointsStep(c, 10);
    assert NegativePoints(c[..11]) == -5;
    NegativePointsStep(c, 11);
    assert NegativePoints(c[..12]) == -5;
    NegativePointsStep(c, 12);
    assert NegativePoints(c[..13]) == -5;
    NegativePointsStep(c, 13);
    assert NegativePoints(c[..14]) == -5;
    NegativePointsStep(c, 14);
    assert NegativePoints(c[..15]) == -5;
    assert c[..15] == c;
  }

  /** The positive points of the catalogue: every buy-side tag at once. */
  lemma CataloguePositivePoints()
    ensures PositivePoints(CATALOGUE) == 21
  {
    var c := CATALOGUE;
    assert c[..0] == [];
    PositivePointsStep(c, 0);
    assert PositivePoints(c[..1]) == 2;
    PositivePointsStep(c, 1);
    assert PositivePoints(c[..2]) == 2;
    PositivePointsStep(c, 2);
    assert PositivePoints(c[..3]) == 5;
    PositivePointsStep(c, 3);
    assert PositivePoints(c[..4]) == 10;
    PositivePointsStep(c, 4);
    assert PositivePoints(c[..5]) == 11;
    PositivePointsStep(c, 5);
    assert PositivePoints(c[..6]) == 11;
    PositivePointsStep(c, 6);
    assert PositivePoints(c[..7]) == 13;
    PositivePointsStep(c, 7);
    assert PositivePoints(c[..8]) == 13;
    PositivePointsStep(c, 8);
    assert PositivePoints(c[..9]) == 15;
    PositivePointsStep(c, 9);
    assert PositivePoints(c[..10]) == 15;
    PositivePointsStep(c, 10);
    assert PositivePoints(c[..11]) == 16;
    PositivePointsStep(c, 11);
    assert PositivePoints(c[..12]) == 17;
    PositivePointsStep(c, 12);
    assert PositivePoints(c[..13]) == 19;
    PositivePointsStep(c, 13);
    assert PositivePoints(c[..14]) == 21;
    PositivePointsStep(c, 14);
    assert PositivePoints(c[..15]) == 21;
    assert c[..15] == c;
  }

  /** The score of one bar lies in [-5, 21]. */
  lemma ScoreBounds(f: Frame, cfg: Config, held: bool)
    ensures -5 <= Evaluate(f, cfg, held).score <= 21
  {
    TotalPointsBetween(CATALOGUE, f, cfg, held);
    CatalogueNegativePoints();
    CataloguePositivePoints();
  }

  /** A tag of the catalogue is in the bar's list exactly when its check fires. */
  lemma TagIffActive(f: Frame, cfg: Config, held: bool, s: Signal)
    ensures s in Evaluate(f, cfg, held).tags <==> Active(s, f, cfg, held)
  {
    ActiveSignalsMembership(CATALOGUE, f, cfg, held, s);
    assert CATALOGUE[Position(s)] == s;
  }

  /** The flags of the evaluation are those of the checks that fired, so the
      scorer's separate flag variables agree with its tag list. */
  lemma EvaluateFlags(f: Frame, cfg: Config, held: bool)
    ensures var e := Evaluate(f, cfg, held);
      && e.score == TotalPoints(e.tags)
      && e.macdBuy == Active(MacdBuy, f, cfg, held)
      && e.goldenCross == Active(GoldenCross, f, cfg, held)
      && e.strongTrend == Active(StrongTrend, f, cfg, held)
      && e.band == SideOf(Active(BandBottom, f, cfg, held), Active(BandPeak, f, cfg, held))
      && e.stoch == SideOf(Active(StochBuy, f, cfg, held), Active(StochSell, f, cfg, held))
      && e.highVolume == Active(HighVolume, f, cfg, held)
      && e.pattern == PatternOf(Active(BullishEngulfing, f, cfg, held), Active(HammerCandle, f, cfg, held))
  {
    TagIffActive(f, cfg, held, MacdBuy);
    TagIffActive(f, cfg, held, GoldenCross);
    TagIffActive(f, cfg, held, StrongTrend);
    TagIffActive(f, cfg, held, BandBottom);
    TagIffActive(f, cfg, held, BandPeak);
    TagIffActive(f, cfg, held, StochBuy);
    TagIffActive(f, cfg, held, StochSell);
    TagIffActive(f, cfg, held, HighVolume);
    TagIffActive(f, cfg, held, BullishEngulfing);
    TagIffActive(f, cfg, held, HammerCandle);
  }

  /** The checks of one if/elif chain never both fire. */
  lemma ExclusiveTags(f: Frame, cfg: Config, held: bool)
    ensures var t := Evaluate(f, cfg, held).tags;
      && !(RsiBottom in t && RsiPeak in t)
      && !(StrongTrend in t && WeakTrend in t)
      && !(BandBottom in t && BandPeak in t)
      && !(StochBuy in t && StochSell in t)
  {
    TagIffActive(f, cfg, held, RsiBottom);
    TagIffActive(f, cfg, held, RsiPeak);
    TagIffActive(f, cfg, held, StrongTrend);
    TagIffActive(f, cfg, held, WeakTrend);
    TagIffActive(f, cfg, held, BandBottom);
    TagIffActive(f, cfg, held, BandPeak);
    TagIffActive(f, cfg, held, StochBuy);
    TagIffActive(f, cfg, held, StochSell);
  }

  /** The MACD cross is strict on both bars and needs both columns and four numbers;
      a tie on the previous bar never fires. */
  lemma MacdCrossStrict(f: Frame, cfg: Config, held: bool)
    ensures MacdBuy in Evaluate(f, cfg, held).tags <==>
      && MacdLine in f.columns && MacdSignalLine in f.columns
      && f.last.macd.Num? && f.last.macdSignal.Num? && f.prev.macd.Num? && f.prev.macdSignal.Num?
      && f.last.macd.x > f.last.macdSignal.x
      && f.prev.macd.x < f.prev.macdSignal.x
    ensures f.prev.macd == f.prev.macdSignal ==> MacdBuy !in Evaluate(f, cfg, held).tags
  {
    TagIffActive(f, cfg, held, MacdBuy);
  }

  /** The golden cross is strict on both bars; a NaN average or a tie on the previous
      bar never fires. */
  lemma GoldenCrossStrict(f: Frame, cfg: Config, held: bool)
    ensures GoldenCross in Evaluate(f, cfg, held).tags <==>
      && f.last.sma50.Num? && f.last.sma200.Num? && f.prev.sma50.Num? && f.prev.sma200.Num?
      && f.last.sma50.x > f.last.sma200.x
      && f.prev.sma50.x < f.prev.sma200.x
    ensures f.prev.sma50 == f.prev.sma200 ==> GoldenCross !in Evaluate(f, cfg, held).tags
  {
    TagIffActive(f, cfg, held, GoldenCross);
  }

  /** A missing column skips its whole lookup block: the stochastic sell needs the %D
      column too, and the hammer check needs the engulfing column. */
  lemma LookupBlocks(f: Frame, cfg: Config, held: bool)
    ensures StochSell in Evaluate(f, cfg, held).tags ==> StochD in f.columns
    ensures HammerCandle in Evaluate(f, cfg, held).tags ==> EngulfingFlag in f.columns
    ensures BandPeak in Evaluate(f, cfg, held).tags ==> BandLower in f.columns
  {
    TagIffActive(f, cfg, held, StochSell);
    TagIffActive(f, cfg, held, HammerCandle);
    TagIffActive(f, cfg, held, BandPeak);
  }

  /** The portfolio tag comes last, and exactly when the ticker is held. */
  lemma PortfolioTagLast(f: Frame, cfg: Config, held: bool)
    ensures var t := Evaluate(f, cfg, held).tags;
      held <==> |t| > 0 && t[|t| - 1] == InPortfolio
  {
    var c := CATALOGUE;
    var init := c[..14];
    ActiveSignalsMembership(init, f, cfg, held, InPortfolio);
    assert InPortfolio !in init;
    assert c[..|c| - 1] == init;
  }

  /** Each check appends at most one tag: no tag appears twice. */
  lemma TagsDistinct(f: Frame, cfg: Config, held: bool)
    ensures var t := Evaluate(f, cfg, held).tags;
      forall i, j :: 0 <= i < j < |t| ==> t[i] != t[j]
  {
    forall i, j | 0 <= i < j < |CATALOGUE| ensures CATALOGUE[i] != CATALOGUE[j] {
      assert Position(CATALOGUE[i]) == i && Position(CATALOGUE[j]) == j;
    }
    ActiveSignalsDistinct(CATALOGUE, f, cfg, held);
    assert Evaluate(f, cfg, held).tags == ActiveSignals(CATALOGUE, f, cfg, held);
  }
}
