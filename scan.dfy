/** The scan over the chosen tickers (the outer loop of `verileri_getir`): each
    ticker's frame is scored, decided, commented and priced, and a row is kept when
    the ticker has at least one tag or is held. The download is an input: a ticker
    whose download raised carries no frame. */
module Scan {
  import opened Frames
  import opened Decision
  import opened Signals
  import opened Commentary
  import opened Risk

  /** Bars a frame needs before the scan looks at it. */
  const MIN_BARS: nat := 100

  /** The window of the long moving average. On a shorter series the indicator library
      gives no SMA_200 series at all, the column holds None, and the golden-cross
      comparison raises; the handler around the ticker then drops it. */
  const LONG_SMA_WINDOW: nat := 200

  /** One ticker as the scan receives it: its Yahoo symbol ("THYAO.IS") and the frame
      that came back, or None when the download or the indicators raised. */
  datatype Download = Download(symbol: string, frame: Option<Frame>)

  /** One result row: Hisse, Fiyat, RSI, Skor, Sinyaller, AI Yorum, Karar, Stop-Loss,
      Hedef 1:2 and Hedef 1:3. */
  datatype Row = Row(
    ticker: string,
    price: real,
    rsi: real,
    score: int,
    tags: seq<Signal>,
    commentary: Remark,
    decision: Label,
    stopLoss: real,
    target1: real,
    target2: real)

  /** `symbol.replace(".IS", "")`: every occurrence of ".IS", left to right and without
      overlap, is removed. */
  function TickerName(symbol: string): (r: string)
    ensures |r| <= |symbol|
    ensures '.' !in symbol ==> r == symbol
  {
    if |symbol| < 3 then symbol
    else if symbol[..3] == ".IS" then
      assert symbol[0] == '.';
      TickerName(symbol[3..])
    else [symbol[0]] + TickerName(symbol[1..])
  }

  /** The portfolio key of a symbol built from a dot-free name is that name. */
  lemma {:induction false} TickerNameOfSymbol(name: string)
    requires '.' !in name
    ensures TickerName(name + ".IS") == name
  {
    if name == [] {
      assert [] + ".IS" == ".IS";
    } else {
      var s := name + ".IS";
      assert s[..3] != ".IS" by {
        assert s[0] == name[0] && name[0] in name;
      }
      assert s[1..] == name[1..] + ".IS";
      TickerNameOfSymbol(name[1..]);
      assert [name[0]] + name[1..] == name;
    }
  }

  /** The row of one ticker, or None when it is skipped (no frame, fewer than 100
      bars) or filtered out (no tag and not held). */
  function RowFor(d: Download, cfg: Config, held: set<string>): (r: Option<Row>)
    ensures r.Some? <==>
      && d.frame.Some? && d.frame.value.length >= MIN_BARS && d.frame.value.length >= LONG_SMA_WINDOW
      && (|Evaluate(d.frame.value, cfg, TickerName(d.symbol) in held).tags| > 0
          || TickerName(d.symbol) in held)
    ensures r.Some? ==> r.value.ticker == TickerName(d.symbol) && r.value.price == d.frame.value.last.close
  {
    match d.frame
    case None => None
    case Some(f) =>
      if f.length < MIN_BARS then None
      else if f.length < LONG_SMA_WINDOW then None
      else
        var name := TickerName(d.symbol);
        var e := Evaluate(f, cfg, name in held);
        var rsi := EffectiveRsi(f.last);
        var lv := RiskLevels(f.last.close, f.last.atr, cfg.atrMult);
        if |e.tags| > 0 || name in held then
          Some(Row(name, f.last.close, rsi, e.score, e.tags,
                   Remarks(rsi, e.macdBuy, e.goldenCross, e.strongTrend, e.pattern, e.band, e.stoch, e.highVolume),
                   Decide(rsi, e.macdBuy, e.score, e.band, e.stoch),
                   lv.stopLoss, lv.target1, lv.target2))
        else None
  }

  /** The outcome of each download, in download order. */
  function Outcomes(ds: seq<Download>, cfg: Config, held: set<string>): seq<Option<Row>> {
    seq(|ds|, i requires 0 <= i < |ds| => RowFor(ds[i], cfg, held))
  }

  /** The rows present in a list of outcomes, in order (the `sonuclar.append` calls). */
  function Present(os: seq<Option<Row>>): (rows: seq<Row>)
    ensures |rows| <= |os|
  {
    if os == [] then []
    else Present(os[..|os| - 1]) + (if os[|os| - 1].Some? then [os[|os| - 1].value] else [])
  }

  /** The rows of the kept tickers, in download order. */
  function KeptRows(ds: seq<Download>, cfg: Config, held: set<string>): (rows: seq<Row>)
    ensures |rows| <= |ds|
  {
    Present(Outcomes(ds, cfg, held))
  }

  /** Scanning one more ticker appends its row, if it has one, after the rows so far:
      each ticker contributes at most one row, in scan order. */
  lemma KeptRowsStep(ds: seq<Download>, d: Download, cfg: Config, held: set<string>)
    ensures var r := RowFor(d, cfg, held);
      KeptRows(ds + [d], cfg, held) == KeptRows(ds, cfg, held) + (if r.Some? then [r.value] else [])
  {
    var os := Outcomes(ds + [d], cfg, held);
    assert os[..|ds|] == Outcomes(ds, cfg, held);
    assert os[|ds|] == RowFor(d, cfg, held);
  }

  /** Analyse one ticker: score its last bar, then decide, comment and price it. */
  method AnalyzeTicker(d: Download, cfg: Config, held: set<string>) returns (r: Option<Row>)
    ensures r == RowFor(d, cfg, held)
  {
    if d.frame.None? || d.frame.value.length < MIN_BARS {
      return None;
    }
    if d.frame.value.length < LONG_SMA_WINDOW {
      // The golden-cross comparison against a None SMA_200 raises.
      return None;
    }
    var f := d.frame.value;
    var son := f.last;
    var fiyat := son.close;
    var rsi := EffectiveRsi(son);
    var levels := RiskLevels(fiyat, son.atr, cfg.atrMult);
    var hisseAdi := TickerName(d.symbol);
    var e := ScoreBar(f, cfg, hisseAdi in held);
    var karar := Decide(rsi, e.macdBuy, e.score, e.band, e.stoch);
    var yorum := Remarks(rsi, e.macdBuy, e.goldenCross, e.strongTrend, e.pattern, e.band, e.stoch, e.highVolume);
    if |e.tags| > 0 || hisseAdi in held {
      r := Some(Row(hisseAdi, fiyat, rsi, e.score, e.tags, yorum, karar,
                    levels.stopLoss, levels.target1, levels.target2));
    } else {
      r := None;
    }
  }

  /** The scan: the rows of the kept tickers, in the order they were scanned. */
  method ScanAll(downloads: seq<Download>, cfg: Config, held: set<string>) returns (sonuclar: seq<Row>)
    ensures sonuclar == KeptRows(downloads, cfg, held)
  {
    sonuclar := [];
    var i := 0;
    while i < |downloads|
      invariant 0 <= i <= |downloads|
      invariant sonuclar == KeptRows(downloads[..i], cfg, held)
    {
      var d := downloads[i];
      var r := AnalyzeTicker(d, cfg, held);
      KeptRowsStep(downloads[..i], d, cfg, held);
      assert downloads[..i] + [d] == downloads[..i + 1];
      if r.Some? {
        sonuclar := sonuclar + [r.value];
      }
      i := i + 1;
    }
    assert downloads[..i] == downloads;
  }

  /** A ticker with fewer than 100 bars gives no row, whatever its indicators say. */
  lemma ShortHistorySkipped(d: Download, cfg: Config, held: set<string>)
    requires d.frame.Some? && d.frame.value.length < MIN_BARS
    ensures RowFor(d, cfg, held) == None
  {
  }

  /** A ticker with at least 100 but fewer than 200 bars passes the length test but
      is dropped when the golden-cross comparison raises. */
  lemma NoLongAverageDropped(d: Download, cfg: Config, held: set<string>)
    requires d.frame.Some? && MIN_BARS <= d.frame.value.length < LONG_SMA_WINDOW
    ensures RowFor(d, cfg, held) == None
  {
  }

  /** A held ticker with enough history is always kept, and its tag list ends with
      the portfolio tag; an unheld one is kept exactly when some check fired. So the
      portfolio test of the filter adds nothing beyond the tag list being non-empty. */
  lemma KeptIffTagged(d: Download, cfg: Config, held: set<string>)
    requires d.frame.Some? && d.frame.value.length >= LONG_SMA_WINDOW
    ensures var e := Evaluate(d.frame.value, cfg, TickerName(d.symbol) in held);
      RowFor(d, cfg, held).Some? <==> |e.tags| > 0
    ensures TickerName(d.symbol) in held ==>
      RowFor(d, cfg, held).Some? && RowFor(d, cfg, held).value.tags[|RowFor(d, cfg, held).value.tags| - 1] == InPortfolio
  {
    PortfolioTagLast(d.frame.value, cfg, TickerName(d.symbol) in held);
  }

  /** Every row's score lies in [-5, 21] and its targets lie at or above its price. */
  lemma RowBounds(d: Download, cfg: Config, held: set<string>)
    requires RowFor(d, cfg, held).Some?
    ensures var row := RowFor(d, cfg, held).value;
      && -5 <= row.score <= 21
      && row.price <= row.target1 <= row.target2
      && row.commentary.Joined? && |row.commentary.clauses| >= 1
  {
    ScoreBounds(d.frame.value, cfg, TickerName(d.symbol) in held);
  }

  /** A row is present exactly when some outcome holds it. */
  lemma {:induction false} PresentMembership(os: seq<Option<Row>>, row: Row)
    ensures row in Present(os) <==> Some(row) in os
  {
    if os != [] {
      var init := os[..|os| - 1];
      PresentMembership(init, row);
      assert os == init + [os[|os| - 1]];
    }
  }

  /** A row is in the scan result exactly when some download produces it. */
  lemma KeptRowsMembership(ds: seq<Download>, cfg: Config, held: set<string>, row: Row)
    ensures row in KeptRows(ds, cfg, held) <==> exists i :: 0 <= i < |ds| && RowFor(ds[i], cfg, held) == Some(row)
  {
    var os := Outcomes(ds, cfg, held);
    PresentMembership(os, row);
    if Some(row) in os {
      var i :| 0 <= i < |os| && os[i] == Some(row);
      assert RowFor(ds[i], cfg, held) == Some(row);
    }
    if exists i :: 0 <= i < |ds| && RowFor(ds[i], cfg, held) == Some(row) {
      var i :| 0 <= i < |ds| && RowFor(ds[i], cfg, held) == Some(row);
      assert os[i] == Some(row);
    }
  }

  /** Every row of the scan carries at least one tag. */
  lemma {:induction false} EveryRowTagged(ds: seq<Download>, cfg: Config, held: set<string>)
    ensures forall row :: row in KeptRows(ds, cfg, held) ==> |row.tags| > 0
  {
    forall row | row in KeptRows(ds, cfg, held) ensures |row.tags| > 0 {
      KeptRowsMembership(ds, cfg, held, row);
      var i :| 0 <= i < |ds| && RowFor(ds[i], cfg, held) == Some(row);
      KeptIffTagged(ds[i], cfg, held);
    }
  }
}
