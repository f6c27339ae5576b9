/** The decision label of one ticker (`karar_ver`): an ordered rule list over the
    RSI value, the MACD cross flag, the score and the Bollinger and stochastic
    signals, in which the first rule that matches wins. The thresholds are fixed
    literals, independent of the sidebar settings. */
module Decision {
  import opened Frames

  /** The "AL" / "SAT" value of the Bollinger and stochastic signals. */
  datatype Side = BuySide | SellSide

  /** The eight labels, in rule order:
      GÜÇLÜ SAT, SAT, GÜÇLÜ AL, AL (MACD), AL (weak), DİP BÖLGE, UZAK DUR, İZLE. */
  datatype Label = StrongSell | Sell | StrongBuy | Buy | WeakBuy | Bottom | Avoid | Watch

  predicate IsBuy(l: Label) {
    l == StrongBuy || l == Buy || l == WeakBuy
  }

  /** The decision rule chain, written as the source writes it. */
  function Decide(rsi: real, macdBuy: bool, score: int, band: Option<Side>, stoch: Option<Side>): (r: Label)
    // Rule 1 wins whatever the other arguments are.
    ensures rsi > 75.0 && score < 0 ==> r == StrongSell
    // No buy when overbought.
    ensures rsi > 70.0 ==> r == StrongSell || r == Sell
    ensures r == StrongSell ==> rsi > 75.0 && score < 0
    ensures r == Sell ==> rsi > 70.0 && !(rsi > 75.0 && score < 0)
    // Every buy label needs a non-overbought RSI and a score of at least 2.
    ensures IsBuy(r) ==> rsi <= 70.0 && score >= 2
    ensures r == StrongBuy <==> rsi <= 70.0 && score >= 6 && band == Some(BuySide)
    ensures r == Buy ==> macdBuy && score >= 4
    ensures r == WeakBuy ==> band == Some(BuySide) || stoch == Some(BuySide)
    // The bottom zone is reached only when no buy rule applies.
    ensures r == Bottom ==> rsi < 25.0 && !macdBuy
    ensures r == Bottom ==> score < 2 || (band != Some(BuySide) && stoch != Some(BuySide))
    ensures r == Avoid ==> score <= -2 && rsi <= 70.0 && !(rsi < 25.0 && !macdBuy)
    // "İZLE" only when every earlier rule failed.
    ensures r == Watch ==>
      && -2 < score && rsi <= 70.0 && !(rsi < 25.0 && !macdBuy)
      && !(score >= 4 && macdBuy)
      && !(score >= 2 && (band == Some(BuySide) || stoch == Some(BuySide)))
  {
    if rsi > 75.0 && score < 0 then StrongSell
    else if rsi > 70.0 then Sell
    else if score >= 6 && band == Some(BuySide) then StrongBuy
    else if score >= 4 && macdBuy then Buy
    else if score >= 2 && (band == Some(BuySide) || stoch == Some(BuySide)) then WeakBuy
    else if rsi < 25.0 && !macdBuy then Bottom
    else if score <= -2 then Avoid
    else Watch
  }

  /** The arguments of the decision, as one record. */
  datatype Facts = Facts(rsi: real, macdBuy: bool, score: int, band: Option<Side>, stoch: Option<Side>)

  /** The condition of each rule of the table. */
  datatype Guard =
    | OverboughtLosing   // rsi > 75 and score < 0
    | Overbought         // rsi > 70
    | BandBuyStrong      // score >= 6 and Bollinger says buy
    | MacdBuyScore       // score >= 4 and MACD crossed up
    | OscillatorBuy      // score >= 2 and Bollinger or stochastic says buy
    | DeepOversold       // rsi < 25 and no MACD cross
    | NegativeScore      // score <= -2
    | Always

  predicate Holds(g: Guard, x: Facts) {
    match g
    case OverboughtLosing => x.rsi > 75.0 && x.score < 0
    case Overbought => x.rsi > 70.0
    case BandBuyStrong => x.score >= 6 && x.band == Some(BuySide)
    case MacdBuyScore => x.score >= 4 && x.macdBuy
    case OscillatorBuy => x.score >= 2 && (x.band == Some(BuySide) || x.stoch == Some(BuySide))
    case DeepOversold => x.rsi < 25.0 && !x.macdBuy
    case NegativeScore => x.score <= -2
    case Always => true
  }

  datatype Rule = Rule(guard: Guard, outcome: Label)

  /** The rule table as data: rule i is consulted only when rules 0..i-1 do not match. */
  const DECISION_TABLE: seq<Rule> := [
    Rule(OverboughtLosing, StrongSell),
    Rule(Overbought, Sell),
    Rule(BandBuyStrong, StrongBuy),
    Rule(MacdBuyScore, Buy),
    Rule(OscillatorBuy, WeakBuy),
    Rule(DeepOversold, Bottom),
    Rule(NegativeScore, Avoid),
    Rule(Always, Watch)
  ]

  /** Generic first-match-wins evaluation of a rule table. */
  function FirstMatch(table: seq<Rule>, x: Facts): Option<Label> {
    if table == [] then None
    else if Holds(table[0].guard, x) then Some(table[0].outcome)
    else FirstMatch(table[1..], x)
  }

  /** Rule i is the first rule of the table whose guard holds. */
  ghost predicate FirstHolding(table: seq<Rule>, x: Facts, i: int) {
    0 <= i < |table| && Holds(table[i].guard, x) &&
    forall j :: 0 <= j < i ==> !Holds(table[j].guard, x)
  }

  /** The first matching rule gives the answer. */
  lemma {:induction false} FirstMatchWins(table: seq<Rule>, x: Facts, i: int)
    requires FirstHolding(table, x, i)
    ensures FirstMatch(table, x) == Some(table[i].outcome)
  {
    if i > 0 {
      assert !Holds(table[0].guard, x);
      FirstMatchWins(table[1..], x, i - 1);
    }
  }

  /** Whatever the table answers is the label of its first matching rule. */
  lemma {:induction false} FirstMatchFound(table: seq<Rule>, x: Facts)
    requires FirstMatch(table, x).Some?
    ensures exists i :: FirstHolding(table, x, i) && table[i].outcome == FirstMatch(table, x).value
  {
    if Holds(table[0].guard, x) {
      assert FirstHolding(table, x, 0);
    } else {
      FirstMatchFound(table[1..], x);
      var i :| FirstHolding(table[1..], x, i) && table[1..][i].outcome == FirstMatch(table, x).value;
      assert FirstHolding(table, x, i + 1);
    }
  }

  /** The if/elif chain and the rule table agree on every input. */
  lemma DecideFollowsTable(x: Facts)
    ensures FirstMatch(DECISION_TABLE, x) == Some(Decide(x.rsi, x.macdBuy, x.score, x.band, x.stoch))
  {
    var t := DECISION_TABLE;
    var i := if Holds(t[0].guard, x) then 0
             else if Holds(t[1].guard, x) then 1
             else if Holds(t[2].guard, x) then 2
             else if Holds(t[3].guard, x) then 3
             else if Holds(t[4].guard, x) then 4
             else if Holds(t[5].guard, x) then 5
             else if Holds(t[6].guard, x) then 6
             else 7;
    FirstMatchWins(t, x, i);
  }

  /** Rule order, not magnitude, decides: the label is that of rule i exactly when
      rule i matches and no earlier rule does. */
  lemma DecideByFirstRule(x: Facts, i: int)
    requires 0 <= i < |DECISION_TABLE|
    ensures Decide(x.rsi, x.macdBuy, x.score, x.band, x.stoch) == DECISION_TABLE[i].outcome
            <==> FirstHolding(DECISION_TABLE, x, i)
  {
    DecideFollowsTable(x);
    FirstMatchFound(DECISION_TABLE, x);
    var k :| FirstHolding(DECISION_TABLE, x, k) &&
             DECISION_TABLE[k].outcome == FirstMatch(DECISION_TABLE, x).value;
    if FirstHolding(DECISION_TABLE, x, i) {
      FirstMatchWins(DECISION_TABLE, x, i);
    }
    // Two distinct rules that both come first are impossible, and the labels are distinct.
    assert FirstHolding(DECISION_TABLE, x, i) ==> i == k;
  }
}
