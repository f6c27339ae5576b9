/** The commentary of a result row (`yapay_zeka_yorumu`): short clauses for the
    conditions that hold, in a fixed order, joined with " | ". Number formatting is
    left out; a clause is identified by its kind and its payload. */
module Commentary {
  import opened Frames
  import opened Decision
  import opened Signals

  datatype Clause =
    | RsiExtremeLow       // Aşırı satış (RSI below 25)
    | RsiLow              // Oversold (RSI below 30)
    | RsiExtremeHigh      // Aşırı alım (RSI above 75)
    | RsiHigh             // Overbought (RSI above 70)
    | MacdPositive        // MACD pozitif
    | StrongTrendClause   // Güçlü trend
    | SidewaysMarket      // Yatay piyasa
    | GoldenCrossClause   // Golden Cross
    | PatternClause(pattern: Pattern)
    | BandClause(side: Side)
    | StochClause(side: Side)
    | VolumeClause        // YÜKSEK HACİM

  /** The slot of each clause in the fixed order: RSI, MACD, trend, golden cross,
      candle pattern, Bollinger, stochastic, volume. */
  function Rank(c: Clause): nat {
    match c
    case RsiExtremeLow => 0
    case RsiLow => 0
    case RsiExtremeHigh => 0
    case RsiHigh => 0
    case MacdPositive => 1
    case StrongTrendClause => 2
    case SidewaysMarket => 2
    case GoldenCrossClause => 3
    case PatternClause(_) => 4
    case BandClause(_) => 5
    case StochClause(_) => 6
    case VolumeClause => 7
  }

  /** At most one clause, and only of slot k. */
  predicate InSlot(cs: seq<Clause>, k: nat) {
    |cs| <= 1 && forall c :: c in cs ==> Rank(c) == k
  }

  /** The joined commentary, or the fallback text "Normal piyasa koşulları". */
  datatype Remark = Joined(clauses: seq<Clause>) | NormalMarket

  function RsiClauses(rsi: real): (r: seq<Clause>)
    ensures InSlot(r, 0)
  {
    if rsi < 25.0 then [RsiExtremeLow]
    else if rsi < 30.0 then [RsiLow]
    else if rsi > 75.0 then [RsiExtremeHigh]
    else if rsi > 70.0 then [RsiHigh]
    else []
  }

  function MacdClauses(macdBuy: bool): (r: seq<Clause>)
    ensures InSlot(r, 1)
    ensures r == [] <==> !macdBuy
  {
    if macdBuy then [MacdPositive] else []
  }

  function TrendClauses(strongTrend: bool): (r: seq<Clause>)
    ensures InSlot(r, 2)
    ensures |r| == 1
  {
    if strongTrend then [StrongTrendClause] else [SidewaysMarket]
  }

  function GoldenCrossClauses(goldenCross: bool): (r: seq<Clause>)
    ensures InSlot(r, 3)
    ensures r == [] <==> !goldenCross
  {
    if goldenCross then [GoldenCrossClause] else []
  }

  function PatternClauses(pattern: Pattern): (r: seq<Clause>)
    ensures InSlot(r, 4)
    ensures r == [] <==> pattern == NoPattern
  {
    if pattern != NoPattern then [PatternClause(pattern)] else []
  }

  function BandClauses(band: Option<Side>): (r: seq<Clause>)
    ensures InSlot(r, 5)
    ensures r == [] <==> band.None?
  {
    if band.Some? then [BandClause(band.value)] else []
  }

  function StochClauses(stoch: Option<Side>): (r: seq<Clause>)
    ensures InSlot(r, 6)
    ensures r == [] <==> stoch.None?
  {
    if stoch.Some? then [StochClause(stoch.value)] else []
  }

  function VolumeClauses(highVolume: bool): (r: seq<Clause>)
    ensures InSlot(r, 7)
    ensures r == [] <==> !highVolume
  {
    if highVolume then [VolumeClause] else []
  }

  /** The clauses, appended in source order. */
  function Clauses(rsi: real, macdBuy: bool, goldenCross: bool, strongTrend: bool, pattern: Pattern,
                   band: Option<Side>, stoch: Option<Side>, highVolume: bool): seq<Clause>
  {
    RsiClauses(rsi) + MacdClauses(macdBuy) + TrendClauses(strongTrend) + GoldenCrossClauses(goldenCross) +
    PatternClauses(pattern) + BandClauses(band) + StochClauses(stoch) + VolumeClauses(highVolume)
  }

  /** The commentary of a row. Since a trend clause is always appended, the fallback
      text is never produced, and there are one to eight clauses. */
  function Remarks(rsi: real, macdBuy: bool, goldenCross: bool, strongTrend: bool, pattern: Pattern,
                   band: Option<Side>, stoch: Option<Side>, highVolume: bool): (r: Remark)
    ensures r.Joined?
    ensures 1 <= |r.clauses| <= 8
    ensures r.clauses == Clauses(rsi, macdBuy, goldenCross, strongTrend, pattern, band, stoch, highVolume)
  {
    var cs := Clauses(rsi, macdBuy, goldenCross, strongTrend, pattern, band, stoch, highVolume);
    if |cs| > 0 then Joined(cs) else NormalMarket
  }

  /** Ranks strictly increase along the clause list. */
  ghost predicate Ranked(cs: seq<Clause>) {
    forall i, j :: 0 <= i < j < |cs| ==> Rank(cs[i]) < Rank(cs[j])
  }

  ghost predicate RanksBelow(cs: seq<Clause>, k: nat) {
    forall i :: 0 <= i < |cs| ==> Rank(cs[i]) < k
  }

  /** Appending at most one clause of rank k to a ranked list whose ranks are below k. */
  lemma RankedPush(a: seq<Clause>, b: seq<Clause>, k: nat)
    requires Ranked(a) && RanksBelow(a, k)
    requires InSlot(b, k)
    ensures Ranked(a + b) && RanksBelow(a + b, k + 1)
  {
    if |b| == 1 {
      assert (a + b)[|a|] == b[0] && b[0] in b;
      forall i, j | 0 <= i < j < |a + b| ensures Rank((a + b)[i]) < Rank((a + b)[j]) {
        if j < |a| {
          assert (a + b)[i] == a[i] && (a + b)[j] == a[j];
        } else {
          assert (a + b)[i] == a[i];
        }
      }
    } else {
      assert a + b == a;
    }
  }

  /** Eight slots filled in order give a ranked list. */
  lemma RankedSlots(s0: seq<Clause>, s1: seq<Clause>, s2: seq<Clause>, s3: seq<Clause>,
                    s4: seq<Clause>, s5: seq<Clause>, s6: seq<Clause>, s7: seq<Clause>)
    requires InSlot(s0, 0) && InSlot(s1, 1) && InSlot(s2, 2) && InSlot(s3, 3)
    requires InSlot(s4, 4) && InSlot(s5, 5) && InSlot(s6, 6) && InSlot(s7, 7)
    ensures Ranked(s0 + s1 + s2 + s3 + s4 + s5 + s6 + s7)
  {
    RankedPush([], s0, 0);
    assert [] + s0 == s0;
    RankedPush(s0, s1, 1);
    RankedPush(s0 + s1, s2, 2);
    RankedPush(s0 + s1 + s2, s3, 3);
    RankedPush(s0 + s1 + s2 + s3, s4, 4);
    RankedPush(s0 + s1 + s2 + s3 + s4, s5, 5);
    RankedPush(s0 + s1 + s2 + s3 + s4 + s5, s6, 6);
    RankedPush(s0 + s1 + s2 + s3 + s4 + s5 + s6, s7, 7);
  }

  /** A clause of slot k can only come from the k-th slot. */
  lemma SlotMembership(s0: seq<Clause>, s1: seq<Clause>, s2: seq<Clause>, s3: seq<Clause>,
                       s4: seq<Clause>, s5: seq<Clause>, s6: seq<Clause>, s7: seq<Clause>, c: Clause)
    requires InSlot(s0, 0) && InSlot(s1, 1) && InSlot(s2, 2) && InSlot(s3, 3)
    requires InSlot(s4, 4) && InSlot(s5, 5) && InSlot(s6, 6) && InSlot(s7, 7)
    requires Rank(c) < 8
    ensures c in s0 + s1 + s2 + s3 + s4 + s5 + s6 + s7 <==> c in [s0, s1, s2, s3, s4, s5, s6, s7][Rank(c)]
  {
  }

  /** The clauses appear in the fixed order RSI, MACD, trend, golden cross, pattern,
      Bollinger, stochastic, volume, each slot at most once. */
  lemma ClausesInFixedOrder(rsi: real, macdBuy: bool, goldenCross: bool, strongTrend: bool,
                            pattern: Pattern, band: Option<Side>, stoch: Option<Side>, highVolume: bool)
    ensures Ranked(Clauses(rsi, macdBuy, goldenCross, strongTrend, pattern, band, stoch, highVolume))
  {
    RankedSlots(RsiClauses(rsi), MacdClauses(macdBuy), TrendClauses(strongTrend), GoldenCrossClauses(goldenCross),
                PatternClauses(pattern), BandClauses(band), StochClauses(stoch), VolumeClauses(highVolume));
  }

  /** Exactly one of the two trend clauses is present. */
  lemma OneTrendClause(rsi: real, macdBuy: bool, goldenCross: bool, strongTrend: bool, pattern: Pattern,
                       band: Option<Side>, stoch: Option<Side>, highVolume: bool)
    ensures var cs := Clauses(rsi, macdBuy, goldenCross, strongTrend, pattern, band, stoch, highVolume);
      && (StrongTrendClause in cs <==> strongTrend)
      && (SidewaysMarket in cs <==> !strongTrend)
  {
    var s0, s1, s2, s3 := RsiClauses(rsi), MacdClauses(macdBuy), TrendClauses(strongTrend), GoldenCrossClauses(goldenCross);
    var s4, s5, s6, s7 := PatternClauses(pattern), BandClauses(band), StochClauses(stoch), VolumeClauses(highVolume);
    SlotMembership(s0, s1, s2, s3, s4, s5, s6, s7, StrongTrendClause);
    SlotMembership(s0, s1, s2, s3, s4, s5, s6, s7, SidewaysMarket);
  }

  /** The RSI clause follows the bands 25 / 30 / 75 / 70, in that order of tests. */
  lemma RsiClauseBands(rsi: real, macdBuy: bool, goldenCross: bool, strongTrend: bool, pattern: Pattern,
                       band: Option<Side>, stoch: Option<Side>, highVolume: bool)
    ensures var cs := Clauses(rsi, macdBuy, goldenCross, strongTrend, pattern, band, stoch, highVolume);
      && (RsiExtremeLow in cs <==> rsi < 25.0)
      && (RsiLow in cs <==> 25.0 <= rsi < 30.0)
      && (RsiExtremeHigh in cs <==> rsi > 75.0)
      && (RsiHigh in cs <==> 70.0 < rsi <= 75.0)
  {
    var s0, s1, s2, s3 := RsiClauses(rsi), MacdClauses(macdBuy), TrendClauses(strongTrend), GoldenCrossClauses(goldenCross);
    var s4, s5, s6, s7 := PatternClauses(pattern), BandClauses(band), StochClauses(stoch), VolumeClauses(highVolume);
    SlotMembership(s0, s1, s2, s3, s4, s5, s6, s7, RsiExtremeLow);
    SlotMembership(s0, s1, s2, s3, s4, s5, s6, s7, RsiLow);
    SlotMembership(s0, s1, s2, s3, s4, s5, s6, s7, RsiExtremeHigh);
    SlotMembership(s0, s1, s2, s3, s4, s5, s6, s7, RsiHigh);
  }

  /** Each of the other clauses is present exactly when its flag is set, and carries
      the flag's value. */
  lemma ClausePresence(rsi: real, macdBuy: bool, goldenCross: bool, strongTrend: bool, pattern: Pattern,
                       band: Option<Side>, stoch: Option<Side>, highVolume: bool)
    ensures var cs := Clauses(rsi, macdBuy, goldenCross, strongTrend, pattern, band, stoch, highVolume);
      && (MacdPositive in cs <==> macdBuy)
      && (GoldenCrossClause in cs <==> goldenCross)
      && (forall p :: PatternClause(p) in cs <==> p != NoPattern && p == pattern)
      && (forall sd :: BandClause(sd) in cs <==> band == Some(sd))
      && (forall sd :: StochClause(sd) in cs <==> stoch == Some(sd))
      && (VolumeClause in cs <==> highVolume)
  {
    var s0, s1, s2, s3 := RsiClauses(rsi), MacdClauses(macdBuy), TrendClauses(strongTrend), GoldenCrossClauses(goldenCross);
    var s4, s5, s6, s7 := PatternClauses(pattern), BandClauses(band), StochClauses(stoch), VolumeClauses(highVolume);
    SlotMembership(s0, s1, s2, s3, s4, s5, s6, s7, MacdPositive);
    SlotMembership(s0, s1, s2, s3, s4, s5, s6, s7, GoldenCrossClause);
    SlotMembership(s0, s1, s2, s3, s4, s5, s6, s7, VolumeClause);
    forall p ensures PatternClause(p) in s0 + s1 + s2 + s3 + s4 + s5 + s6 + s7 <==> p != NoPattern && p == pattern {
      SlotMembership(s0, s1, s2, s3, s4, s5, s6, s7, PatternClause(p));
    }
    forall sd ensures BandClause(sd) in s0 + s1 + s2 + s3 + s4 + s5 + s6 + s7 <==> band == Some(sd) {
      SlotMembership(s0, s1, s2, s3, s4, s5, s6, s7, BandClause(sd));
    }
    forall sd ensures StochClause(sd) in s0 + s1 + s2 + s3 + s4 + s5 + s6 + s7 <==> stoch == Some(sd) {
      SlotMembership(s0, s1, s2, s3, s4, s5, s6, s7, StochClause(sd));
    }
  }
}
