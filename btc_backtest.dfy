/**
  The EMA-deviation backtest: a single pass over K-line bars from bar 120 on,
  holding at most one position (long or short), closing it on an EMA cross or
  a 0.7% take-profit, opening one on a fresh breakout of the 0.7% deviation
  band around the 120-bar EMA, and pausing re-entry on a side after its
  take-profit until the close crosses back over the EMA.
 */
module BtcBacktest {
  import opened Indicators

  const EmaLength: nat := 120
  /** Take-profit distance, in percent of the entry price. */
  const TakeProfit: real := 0.7
  /** Breakout band around the EMA, as a fraction. */
  const Deviation: real := 0.007
  const FixedTradeAmount: real := 10000.0
  const InitialCapital: real := 10000.0

  datatype Side = Long | Short

  /** Why a position was closed: its take-profit or its stop (the close crossed the EMA). */
  datatype ExitReason = LongTakeProfit | LongStopLoss | ShortTakeProfit | ShortStopLoss

  /** Capital mode: reinvest the whole balance, or always trade the fixed amount. */
  datatype Mode = Compounding | FixedAmount

  /**
    A ledger record; its constructor and side stand for the four record labels
    (open long, open short, close long, close short). An entry carries the
    capital at the time of the entry; an exit carries the matched entry price,
    the profit as a fraction of the entry price, the profit in money and the
    capital after the exit.
   */
  datatype Trade =
    | Entry(time: int, side: Side, price: real, investedAmount: real, capital: real, mode: Mode)
    | Exit(time: int, side: Side, price: real, entryPrice: real, profitPercentage: real,
           investedAmount: real, profit: real, reason: ExitReason, capital: real, mode: Mode)

  datatype Summary = Summary(initialCapital: real, finalCapital: real, totalProfit: real,
                             totalTrades: nat, profitPercentage: real)

  datatype BacktestResult = BacktestResult(trades: seq<Trade>, summary: Summary)

  function ModeOf(useCompounding: bool): Mode
  {
    if useCompounding then Compounding else FixedAmount
  }

  /** Long take-profit price: the entry price raised by TakeProfit percent. */
  function LongTakeProfitPrice(entryPrice: real): (price: real)
    ensures entryPrice > 0.0 ==> price > entryPrice
  {
    entryPrice * (1.0 + TakeProfit / 100.0)
  }

  /** Short take-profit price: the entry price lowered by TakeProfit percent. */
  function ShortTakeProfitPrice(entryPrice: real): (price: real)
    ensures entryPrice > 0.0 ==> 0.0 < price < entryPrice
  {
    entryPrice * (1.0 - TakeProfit / 100.0)
  }

  /** The decisions taken on one bar, before any of them is applied. */
  datatype Signals = Signals(
    longTakeProfitReached: bool, shortTakeProfitReached: bool,
    longPaused: bool, shortPaused: bool,
    exitLong: bool, exitShort: bool,
    goLong: bool, goShort: bool)

  /**
    Evaluates one bar: the take-profit hits, the updated pause flags, the exit
    predicates and the fresh-breakout entry predicates, all from the position
    held before the bar.
   */
  function Evaluate(position: int, entryPrice: real, longPaused: bool, shortPaused: bool,
                    close: real, ema: real, prevClose: real, prevEma: real): (s: Signals)
    // a take-profit is reached exactly when the held side's threshold is touched
    ensures s.longTakeProfitReached <==> position > 0 && close >= LongTakeProfitPrice(entryPrice)
    ensures s.shortTakeProfitReached <==> position < 0 && close <= ShortTakeProfitPrice(entryPrice)
    // a pause flag is raised only by its side's take-profit and cleared only by a cross of the EMA
    ensures s.longPaused && !longPaused ==> s.longTakeProfitReached
    ensures !s.longPaused && longPaused ==> close < ema
    ensures s.shortPaused && !shortPaused ==> s.shortTakeProfitReached
    ensures !s.shortPaused && shortPaused ==> close > ema
    // no entry on a paused side, and none onto a position already held on that side
    ensures s.goLong ==> !s.longPaused && position <= 0
    ensures s.goShort ==> !s.shortPaused && position >= 0
    // exits apply to the held side only
    ensures s.exitLong ==> position > 0
    ensures s.exitShort ==> position < 0
    // with a positive EMA: at most one entry, and an entry against a held position closes it first
    ensures ema > 0.0 ==> !(s.goLong && s.goShort)
    ensures ema > 0.0 && s.goLong ==> position == 0 || s.exitShort
    ensures ema > 0.0 && s.goShort ==> position == 0 || s.exitLong
  {
    var longTakeProfitReached := position > 0 && close >= LongTakeProfitPrice(entryPrice);
    var shortTakeProfitReached := position < 0 && close <= ShortTakeProfitPrice(entryPrice);
    var longPaused1 := longPaused || longTakeProfitReached;
    var shortPaused1 := shortPaused || shortTakeProfitReached;
    var longPaused2 := if close < ema && longPaused1 then false else longPaused1;
    var shortPaused2 := if close > ema && shortPaused1 then false else shortPaused1;
    var exitLong := position > 0 && (close < ema || longTakeProfitReached);
    var exitShort := position < 0 && (close > ema || shortTakeProfitReached);
    var goLong := position <= 0 && !longPaused2 && close > ema * (1.0 + Deviation) &&
                  (prevClose <= prevEma * (1.0 + Deviation) || prevClose < prevEma);
    var goShort := position >= 0 && !shortPaused2 && close < ema * (1.0 - Deviation) &&
                   (prevClose >= prevEma * (1.0 - Deviation) || prevClose > prevEma);
    Signals(longTakeProfitReached, shortTakeProfitReached, longPaused2, shortPaused2,
            exitLong, exitShort, goLong, goShort)
  }

  /** Profit of a closed position as a fraction of its entry price; positive exactly when the price moved the held side's way. */
  function ProfitFraction(side: Side, entryPrice: real, close: real): (fraction: real)
    requires entryPrice != 0.0
    ensures entryPrice > 0.0 ==> (fraction > 0.0 <==> if side == Long then close > entryPrice else close < entryPrice)
  {
    if side == Long then (close - entryPrice) / entryPrice else (entryPrice - close) / entryPrice
  }

  /** Whether an exit at `close` touches the take-profit of a position opened at `entryPrice`. */
  predicate TakeProfitTouched(side: Side, entryPrice: real, close: real)
  {
    if side == Long then close >= LongTakeProfitPrice(entryPrice)
    else close <= ShortTakeProfitPrice(entryPrice)
  }

  /** The exit label: the closed side, and take-profit or stop-loss. */
  function ReasonFor(side: Side, takeProfit: bool): (reason: ExitReason)
    ensures reason == LongTakeProfit || reason == ShortTakeProfit <==> takeProfit
    ensures reason == LongTakeProfit || reason == LongStopLoss <==> side == Long
  {
    match side
    case Long => if takeProfit then LongTakeProfit else LongStopLoss
    case Short => if takeProfit then ShortTakeProfit else ShortStopLoss
  }

  /** The capital in force just before record j: the initial capital, or the previous record's. */
  function CapitalBefore(trades: seq<Trade>, j: nat): real
    requires j <= |trades|
  {
    if j == 0 then InitialCapital else trades[j - 1].capital
  }

  /**
    Record j of the ledger is well formed: entries at even positions, each
    exit at an odd position closing the entry just before it on the same side,
    at that entry's price and invested amount, with the profit, the capital
    change and the exit reason that the rules of the strategy give.
   */
  ghost predicate RecordOk(trades: seq<Trade>, j: nat, mode: Mode)
    requires j < |trades|
  {
    var t := trades[j];
    && t.mode == mode
    && t.price > 0.0
    && (if j % 2 == 0 then
          && t.Entry?
          && t.capital == CapitalBefore(trades, j)
          && t.investedAmount == (if mode == Compounding then t.capital else FixedTradeAmount)
        else
          && t.Exit?
          && trades[j - 1].Entry?
          && t.side == trades[j - 1].side
          && t.entryPrice == trades[j - 1].price
          && t.entryPrice > 0.0
          && t.investedAmount == trades[j - 1].investedAmount
          && t.profitPercentage == ProfitFraction(t.side, t.entryPrice, t.price)
          && t.profit == t.investedAmount * t.profitPercentage
          && t.capital == CapitalBefore(trades, j) + t.profit
          && t.reason == ReasonFor(t.side, TakeProfitTouched(t.side, t.entryPrice, t.price)))
  }

  ghost predicate LedgerOk(trades: seq<Trade>, mode: Mode)
  {
    forall j :: 0 <= j < |trades| ==> RecordOk(trades, j, mode)
  }

  lemma AppendRecord(trades: seq<Trade>, t: Trade, mode: Mode)
    requires LedgerOk(trades, mode)
    requires RecordOk(trades + [t], |trades|, mode)
    ensures LedgerOk(trades + [t], mode)
  {
    var ext := trades + [t];
    forall j | 0 <= j < |ext|
      ensures RecordOk(ext, j, mode)
    {
      if j < |trades| {
        assert ext[j] == trades[j];
        if j > 0 {
          assert ext[j - 1] == trades[j - 1];
        }
        assert RecordOk(trades, j, mode);
      }
    }
  }

  /** Every take-profit exit gains at least TakeProfit percent of its entry price. */
  lemma {:induction false} TakeProfitExitGains(trades: seq<Trade>, mode: Mode, j: nat)
    requires LedgerOk(trades, mode)
    requires j < |trades| && trades[j].Exit?
    requires trades[j].reason == LongTakeProfit || trades[j].reason == ShortTakeProfit
    ensures trades[j].profitPercentage >= TakeProfit / 100.0
  {
    assert RecordOk(trades, j, mode);
    var t := trades[j];
    assert RecordOk(trades, j - 1, mode);
    var e := t.entryPrice;
    assert e > 0.0;
    if t.side == Long {
      assert t.price - e >= e * (TakeProfit / 100.0);
      QuotientAtLeast(t.price - e, e, TakeProfit / 100.0);
    } else {
      assert e - t.price >= e * (TakeProfit / 100.0);
      QuotientAtLeast(e - t.price, e, TakeProfit / 100.0);
    }
  }

  /** Sum of the profits of the exit records of a ledger. */
  function TotalExitProfit(trades: seq<Trade>): real
  {
    if trades == [] then 0.0
    else
      var last := trades[|trades| - 1];
      TotalExitProfit(trades[..|trades| - 1]) + (if last.Exit? then last.profit else 0.0)
  }

  /** Capital changes only at exits and by their profit: after any prefix it is the initial capital plus the profits so far. */
  lemma {:induction false} CapitalIsInitialPlusProfits(trades: seq<Trade>, mode: Mode, n: nat)
    requires LedgerOk(trades, mode)
    requires n <= |trades|
    ensures CapitalBefore(trades, n) == InitialCapital + TotalExitProfit(trades[..n])
  {
    if n > 0 {
      CapitalIsInitialPlusProfits(trades, mode, n - 1);
      assert RecordOk(trades, n - 1, mode);
      assert trades[..n][..n - 1] == trades[..n - 1];
    }
  }

  lemma QuotientAtLeast(a: real, b: real, c: real)
    requires b > 0.0 && a >= b * c
    ensures a / b >= c
  {
    assert a / b * b == a;
  }

  /** The engine's state between two bars. */
  datatype Engine = Engine(position: int, entryPrice: real, investedAmount: real,
                           longPaused: bool, shortPaused: bool, capital: real, trades: seq<Trade>)

  /** The state before the first traded bar: flat, unpaused, the initial capital and an empty ledger. */
  const Start: Engine := Engine(0, 0.0, 0.0, false, false, InitialCapital, [])

  /**
    One exit block: closes the held `side` at `close`, records the exit with its
    profit, reason and new capital, and leaves the engine flat with nothing
    invested. In compounding mode the new capital is the invested amount plus
    the profit, in fixed mode the old capital plus the profit.
   */
  function CloseOut(e: Engine, side: Side, takeProfit: bool, time: int, close: real, useCompounding: bool): Engine
    requires e.entryPrice != 0.0
  {
    var profitPercentage := ProfitFraction(side, e.entryPrice, close);
    var invested := if useCompounding then e.investedAmount else FixedTradeAmount;
    var profit := invested * profitPercentage;
    var capital := if useCompounding then e.investedAmount + profit else e.capital + profit;
    e.(position := 0, investedAmount := 0.0, capital := capital,
       trades := e.trades + [Exit(time, side, close, e.entryPrice, profitPercentage, invested, profit,
                                  ReasonFor(side, takeProfit), capital, ModeOf(useCompounding))])
  }

  /** One entry block: opens `side` at `close`, investing the capital (compounding) or the fixed amount. */
  function Open(e: Engine, side: Side, time: int, close: real, useCompounding: bool): Engine
  {
    var invested := if useCompounding then e.capital else FixedTradeAmount;
    e.(position := if side == Long then 1 else -1, entryPrice := close, investedAmount := invested,
       trades := e.trades + [Entry(time, side, close, invested, e.capital, ModeOf(useCompounding))])
  }

  /** The exit phase of a bar: the long exit, then the short exit, each when its signal fires. */
  function ExitPhase(e: Engine, s: Signals, time: int, close: real, useCompounding: bool): Engine
    requires s.exitLong || s.exitShort ==> e.entryPrice != 0.0
  {
    var e1 := if s.exitLong then CloseOut(e, Long, s.longTakeProfitReached, time, close, useCompounding) else e;
    if s.exitShort then CloseOut(e1, Short, s.shortTakeProfitReached, time, close, useCompounding) else e1
  }

  /** The entry phase of a bar: the long entry, then the short entry, each when its signal fires. */
  function EntryPhase(e: Engine, s: Signals, time: int, close: real, useCompounding: bool): Engine
  {
    var e1 := if s.goLong then Open(e, Long, time, close, useCompounding) else e;
    if s.goShort then Open(e1, Short, time, close, useCompounding) else e1
  }

  /**
    One bar of the engine: evaluate the signals from the state before the bar,
    store the new pause flags, apply the exits, then the entries.
   */
  function Step(e: Engine, bar: Kline, ema: real, prevClose: real, prevEma: real, useCompounding: bool): (e': Engine)
    requires e.position != 0 ==> e.entryPrice != 0.0
    ensures bar.close > 0.0 && (e.position != 0 ==> e.entryPrice > 0.0) ==> (e'.position != 0 ==> e'.entryPrice > 0.0)
  {
    var s := Evaluate(e.position, e.entryPrice, e.longPaused, e.shortPaused, bar.close, ema, prevClose, prevEma);
    var paused := e.(longPaused := s.longPaused, shortPaused := s.shortPaused);
    EntryPhase(ExitPhase(paused, s, bar.openTime, bar.close, useCompounding), s, bar.openTime, bar.close, useCompounding)
  }

  /** Whether every close is positive, as exchange prices are. */
  predicate PositiveCloses(bars: seq<Kline>)
  {
    forall i :: 0 <= i < |bars| ==> bars[i].close > 0.0
  }

  /**
    The engine's state after the bars EmaLength .. n - 1, with `emas` the EMA
    value of each bar; with n == EmaLength no bar has been traded.
   */
  function Run(bars: seq<Kline>, emas: seq<real>, useCompounding: bool, n: nat): (e: Engine)
    requires |emas| == |bars| && PositiveCloses(bars)
    requires n == EmaLength || EmaLength < n <= |bars|
    ensures e.position != 0 ==> e.entryPrice > 0.0
    decreases n
  {
    if n <= EmaLength then Start
    else
      Step(Run(bars, emas, useCompounding, n - 1), bars[n - 1], emas[n - 1], bars[n - 2].close, emas[n - 2], useCompounding)
  }

  /** One more bar is one more Step. */
  lemma RunStep(bars: seq<Kline>, emas: seq<real>, useCompounding: bool, n: nat)
    requires |emas| == |bars| && PositiveCloses(bars)
    requires EmaLength <= n < |bars|
    ensures Run(bars, emas, useCompounding, n + 1)
            == Step(Run(bars, emas, useCompounding, n), bars[n], emas[n], bars[n - 1].close, emas[n - 1], useCompounding)
  {
  }

  /** The result of the backtest: the final ledger and its summary, as the engine returns them. */
  function Outcome(bars: seq<Kline>, emas: seq<real>, useCompounding: bool): BacktestResult
    requires |emas| == |bars| && PositiveCloses(bars)
  {
    var final := Run(bars, emas, useCompounding, if |bars| > EmaLength then |bars| else EmaLength);
    var totalProfit := final.capital - InitialCapital;
    BacktestResult(final.trades, Summary(InitialCapital, final.capital, totalProfit, |final.trades|,
                                         totalProfit / InitialCapital * 100.0))
  }

  /** The engine's state agrees with its ledger. */
  ghost predicate Agrees(e: Engine, mode: Mode)
  {
    && LedgerOk(e.trades, mode)
    && -1 <= e.position <= 1
    && e.capital == CapitalBefore(e.trades, |e.trades|)
    && (e.position == 0 <==> |e.trades| % 2 == 0)
    && (e.position == 0 ==> e.investedAmount == 0.0)
    && (e.position != 0 ==>
          && e.entryPrice > 0.0
          && e.trades[|e.trades| - 1].Entry?
          && (e.trades[|e.trades| - 1].side == Long <==> e.position == 1)
          && e.entryPrice == e.trades[|e.trades| - 1].price
          && e.investedAmount == e.trades[|e.trades| - 1].investedAmount)
  }

  /**
    Closing the held position keeps the engine in agreement with its ledger,
    leaves it flat, and moves capital by exactly the recorded profit in both
    modes (in compounding mode because the invested amount is the capital at entry).
   */
  lemma CloseOutAgrees(e: Engine, side: Side, takeProfit: bool, time: int, close: real, useCompounding: bool)
    requires Agrees(e, ModeOf(useCompounding))
    requires e.position == (if side == Long then 1 else -1) && close > 0.0
    requires takeProfit == TakeProfitTouched(side, e.entryPrice, close)
    ensures var e' := CloseOut(e, side, takeProfit, time, close, useCompounding);
            && Agrees(e', ModeOf(useCompounding)) && e'.position == 0
            && e'.capital == e.capital + e'.trades[|e.trades|].profit
  {
    var mode := ModeOf(useCompounding);
    var e' := CloseOut(e, side, takeProfit, time, close, useCompounding);
    var j := |e.trades|;
    assert RecordOk(e.trades, j - 1, mode);
    assert e'.trades[j - 1] == e.trades[j - 1];
    assert CapitalBefore(e'.trades, j) == CapitalBefore(e.trades, j);
    assert RecordOk(e'.trades, j, mode);
    AppendRecord(e.trades, e'.trades[j], mode);
  }

  /** Opening a position from a flat engine keeps it in agreement with its ledger. */
  lemma OpenAgrees(e: Engine, side: Side, time: int, close: real, useCompounding: bool)
    requires Agrees(e, ModeOf(useCompounding))
    requires e.position == 0 && close > 0.0
    ensures Agrees(Open(e, side, time, close, useCompounding), ModeOf(useCompounding))
  {
    var e' := Open(e, side, time, close, useCompounding);
    assert RecordOk(e'.trades, |e.trades|, ModeOf(useCompounding));
    AppendRecord(e.trades, e'.trades[|e.trades|], ModeOf(useCompounding));
  }

  /** The exit phase, driven by signals that close only the held side, keeps the agreement. */
  lemma ExitPhaseAgrees(e: Engine, s: Signals, time: int, close: real, useCompounding: bool)
    requires Agrees(e, ModeOf(useCompounding)) && close > 0.0
    requires s.exitLong ==> e.position > 0
    requires s.exitShort ==> e.position < 0
    requires s.longTakeProfitReached <==> e.position > 0 && close >= LongTakeProfitPrice(e.entryPrice)
    requires s.shortTakeProfitReached <==> e.position < 0 && close <= ShortTakeProfitPrice(e.entryPrice)
    ensures Agrees(ExitPhase(e, s, time, close, useCompounding), ModeOf(useCompounding))
    ensures s.exitLong || s.exitShort ==> ExitPhase(e, s, time, close, useCompounding).position == 0
  {
    if s.exitLong {
      CloseOutAgrees(e, Long, s.longTakeProfitReached, time, close, useCompounding);
    } else if s.exitShort {
      CloseOutAgrees(e, Short, s.shortTakeProfitReached, time, close, useCompounding);
    }
  }

  /** The entry phase from a flat engine, with at most one entry signal, keeps the agreement. */
  lemma EntryPhaseAgrees(e: Engine, s: Signals, time: int, close: real, useCompounding: bool)
    requires Agrees(e, ModeOf(useCompounding)) && close > 0.0
    requires !(s.goLong && s.goShort)
    requires s.goLong || s.goShort ==> e.position == 0
    ensures Agrees(EntryPhase(e, s, time, close, useCompounding), ModeOf(useCompounding))
  {
    if s.goLong {
      OpenAgrees(e, Long, time, close, useCompounding);
    } else if s.goShort {
      OpenAgrees(e, Short, time, close, useCompounding);
    }
  }

  /** With a positive close and EMA, one bar keeps the engine in agreement with its ledger. */
  lemma StepAgrees(e: Engine, bar: Kline, ema: real, prevClose: real, prevEma: real, useCompounding: bool)
    requires Agrees(e, ModeOf(useCompounding))
    requires bar.close > 0.0 && ema > 0.0
    ensures Agrees(Step(e, bar, ema, prevClose, prevEma, useCompounding), ModeOf(useCompounding))
  {
    var s := Evaluate(e.position, e.entryPrice, e.longPaused, e.shortPaused, bar.close, ema, prevClose, prevEma);
    var paused := e.(longPaused := s.longPaused, shortPaused := s.shortPaused);
    ExitPhaseAgrees(paused, s, bar.openTime, bar.close, useCompounding);
    var exited := ExitPhase(paused, s, bar.openTime, bar.close, useCompounding);
    EntryPhaseAgrees(exited, s, bar.openTime, bar.close, useCompounding);
  }

  /** The exit phase appends one exit record, at the bar's time and close, exactly when an exit signal fires. */
  lemma ExitPhaseRecords(e: Engine, s: Signals, time: int, close: real, useCompounding: bool)
    requires s.exitLong || s.exitShort ==> e.entryPrice != 0.0
    requires !(s.exitLong && s.exitShort)
    ensures var t := ExitPhase(e, s, time, close, useCompounding).trades;
            && |t| == |e.trades| + (if s.exitLong || s.exitShort then 1 else 0)
            && t[..|e.trades|] == e.trades
            && forall j :: |e.trades| <= j < |t| ==> t[j].Exit? && t[j].time == time && t[j].price == close
  {
  }

  /** The entry phase, with at most one entry signal, appends one entry record exactly when that signal fires. */
  lemma EntryPhaseRecords(e: Engine, s: Signals, time: int, close: real, useCompounding: bool)
    requires !(s.goLong && s.goShort)
    ensures var t := EntryPhase(e, s, time, close, useCompounding).trades;
            && |t| == |e.trades| + (if s.goLong || s.goShort then 1 else 0)
            && t[..|e.trades|] == e.trades
            && forall j :: |e.trades| <= j < |t| ==> t[j].Entry? && t[j].time == time && t[j].price == close
  {
  }

  /**
    The records one bar appends (with a positive EMA): the exit first when an
    exit signal fires, then the entry when an entry signal fires, so at most one
    of each; all at the bar's open time and close, the earlier ledger untouched.
   */
  lemma StepRecords(e: Engine, bar: Kline, ema: real, prevClose: real, prevEma: real, useCompounding: bool)
    requires e.position != 0 ==> e.entryPrice != 0.0
    requires ema > 0.0
    ensures var s := Evaluate(e.position, e.entryPrice, e.longPaused, e.shortPaused, bar.close, ema, prevClose, prevEma);
            var t := Step(e, bar, ema, prevClose, prevEma, useCompounding).trades;
            && |t| == |e.trades| + (if s.exitLong || s.exitShort then 1 else 0) + (if s.goLong || s.goShort then 1 else 0)
            && t[..|e.trades|] == e.trades
            && (forall j :: |e.trades| <= j < |t| ==> t[j].time == bar.openTime && t[j].price == bar.close)
            && (forall j :: |e.trades| <= j < |t| ==> (t[j].Entry? <==> j == |t| - 1 && (s.goLong || s.goShort)))
  {
    var s := Evaluate(e.position, e.entryPrice, e.longPaused, e.shortPaused, bar.close, ema, prevClose, prevEma);
    var paused := e.(longPaused := s.longPaused, shortPaused := s.shortPaused);
    ExitPhaseRecords(paused, s, bar.openTime, bar.close, useCompounding);
    var exited := ExitPhase(paused, s, bar.openTime, bar.close, useCompounding);
    EntryPhaseRecords(exited, s, bar.openTime, bar.close, useCompounding);
    var t := EntryPhase(exited, s, bar.openTime, bar.close, useCompounding).trades;
    assert t[..|e.trades|] == t[..|exited.trades|][..|e.trades|];
  }

  /** The engine agrees with its ledger after every bar, and appends at most two records per bar. */
  lemma {:induction false} RunAgrees(bars: seq<Kline>, emas: seq<real>, useCompounding: bool, n: nat)
    requires |emas| == |bars| && PositiveCloses(bars)
    requires forall i :: 0 <= i < |emas| ==> emas[i] > 0.0
    requires n == EmaLength || EmaLength < n <= |bars|
    ensures Agrees(Run(bars, emas, useCompounding, n), ModeOf(useCompounding))
    ensures |Run(bars, emas, useCompounding, n).trades| <= 2 * (n - EmaLength)
  {
    if n > EmaLength {
      var e := Run(bars, emas, useCompounding, n - 1);
      RunAgrees(bars, emas, useCompounding, n - 1);
      StepAgrees(e, bars[n - 1], emas[n - 1], bars[n - 2].close, emas[n - 2], useCompounding);
      StepRecords(e, bars[n - 1], emas[n - 1], bars[n - 2].close, emas[n - 2], useCompounding);
    }
  }

  /**
    The summary of the outcome is consistent with its ledger: the ledger is
    well formed, the final capital is the last record's, the total profit is
    the final capital less the initial one and also the sum of the exit
    profits, every record is counted, and without a bar past the EMA warm-up
    nothing is traded.
   */
  lemma OutcomeSummary(bars: seq<Kline>, emas: seq<real>, useCompounding: bool)
    requires |emas| == |bars| && PositiveCloses(bars)
    requires forall i :: 0 <= i < |emas| ==> emas[i] > 0.0
    ensures var r := Outcome(bars, emas, useCompounding);
            && LedgerOk(r.trades, ModeOf(useCompounding))
            && r.summary.finalCapital == CapitalBefore(r.trades, |r.trades|)
            && r.summary.initialCapital == InitialCapital
            && r.summary.totalProfit == r.summary.finalCapital - InitialCapital
            && r.summary.totalTrades == |r.trades|
            && r.summary.totalProfit == TotalExitProfit(r.trades)
            && r.summary.profitPercentage == r.summary.totalProfit / InitialCapital * 100.0
            && (|bars| <= EmaLength ==> r.trades == [] && r.summary.finalCapital == InitialCapital)
            && (|bars| > EmaLength ==> |r.trades| <= 2 * (|bars| - EmaLength))
  {
    var n := if |bars| > EmaLength then |bars| else EmaLength;
    var trades := Run(bars, emas, useCompounding, n).trades;
    RunAgrees(bars, emas, useCompounding, n);
    CapitalIsInitialPlusProfits(trades, ModeOf(useCompounding), |trades|);
    assert trades[..|trades|] == trades;
  }

  /** Every record of the ledger was made at a traded bar (index EmaLength or later), at its open time and close. */
  lemma {:induction false} RunRecordsAtBars(bars: seq<Kline>, emas: seq<real>, useCompounding: bool, n: nat)
    requires |emas| == |bars| && PositiveCloses(bars)
    requires forall i :: 0 <= i < |emas| ==> emas[i] > 0.0
    requires n == EmaLength || EmaLength < n <= |bars|
    ensures forall r <- Run(bars, emas, useCompounding, n).trades ::
              exists b :: EmaLength <= b < n && r.time == bars[b].openTime && r.price == bars[b].close
  {
    if n > EmaLength {
      var e := Run(bars, emas, useCompounding, n - 1);
      RunRecordsAtBars(bars, emas, useCompounding, n - 1);
      StepRecords(e, bars[n - 1], emas[n - 1], bars[n - 2].close, emas[n - 2], useCompounding);
      var t := Run(bars, emas, useCompounding, n).trades;
      forall r | r in t
        ensures exists b :: EmaLength <= b < n && r.time == bars[b].openTime && r.price == bars[b].close
      {
        var j :| 0 <= j < |t| && t[j] == r;
        if j < |e.trades| {
          assert r == t[..|e.trades|][j] == e.trades[j];
          var b :| EmaLength <= b < n - 1 && r.time == bars[b].openTime && r.price == bars[b].close;
          assert EmaLength <= b < n && r.time == bars[b].openTime && r.price == bars[b].close;
        } else {
          assert EmaLength <= n - 1 < n && r.time == bars[n - 1].openTime && r.price == bars[n - 1].close;
        }
      }
    }
  }

  /** EMA of the closes with the engine's fixed period; one value per close. */
  method CalculateEma(prices: seq<real>, period: nat) returns (emaValues: seq<real>)
    requires |prices| > 0
    ensures IsEmaSeries(prices, Smoothing(period), emaValues)
    ensures period >= 1 && (forall i :: 0 <= i < |prices| ==> prices[i] > 0.0) ==>
              forall i :: 0 <= i < |emaValues| ==> emaValues[i] > 0.0
  {
    var k := Smoothing(period);
    var ema := prices[0];
    emaValues := [ema];
    for i := 1 to |prices|
      invariant |emaValues| == i && emaValues[i - 1] == ema
      invariant emaValues[0] == prices[0]
      invariant forall j :: 0 < j < i ==> emaValues[j] == EmaStep(emaValues[j - 1], prices[j], k)
    {
      ema := prices[i] * k + ema * (1.0 - k);
      emaValues := emaValues + [ema];
    }
    if period >= 1 && forall i :: 0 <= i < |prices| ==> prices[i] > 0.0 {
      forall i | 0 <= i < |emaValues|
        ensures emaValues[i] > 0.0
      {
        EmaPositive(prices, k, emaValues, i);
      }
    }
  }

  /**
    Executes the exits of one bar: a long closed by `s.exitLong`, a short by
    `s.exitShort`, each recorded with its profit, reason and the new capital.
   */
  method ApplyExits(s: Signals, time: int, close: real, useCompounding: bool,
                    position: int, entryPrice: real, investedAmount: real, capital: real,
                    trades: seq<Trade>)
    returns (position': int, investedAmount': real, capital': real, trades': seq<Trade>)
    requires s.exitLong || s.exitShort ==> entryPrice != 0.0
    ensures Engine(position', entryPrice, investedAmount', s.longPaused, s.shortPaused, capital', trades')
            == ExitPhase(Engine(position, entryPrice, investedAmount, s.longPaused, s.shortPaused, capital, trades),
                         s, time, close, useCompounding)
  {
    var mode := ModeOf(useCompounding);
    position', investedAmount', capital', trades' := position, investedAmount, capital, trades;
    if s.exitLong {
      var profitPercentage := (close - entryPrice) / entryPrice;
      var profit;
      if useCompounding {
        profit := investedAmount * profitPercentage;
        capital' := investedAmount + profit;
      } else {
        profit := FixedTradeAmount * profitPercentage;
        capital' := capital + profit;
      }
      var t := Exit(time, Long, close, entryPrice, profitPercentage,
                    if useCompounding then investedAmount else FixedTradeAmount, profit,
                    if s.longTakeProfitReached then LongTakeProfit else LongStopLoss, capital', mode);
      trades' := trades' + [t];
      position' := 0;
      investedAmount' := 0.0;
    }
    if s.exitShort {
      var profitPercentage := (entryPrice - close) / entryPrice;
      var profit;
      if useCompounding {
        profit := investedAmount' * profitPercentage;
        capital' := investedAmount' + profit;
      } else {
        profit := FixedTradeAmount * profitPercentage;
        capital' := capital' + profit;
      }
      var t := Exit(time, Short, close, entryPrice, profitPercentage,
                    if useCompounding then investedAmount' else FixedTradeAmount, profit,
                    if s.shortTakeProfitReached then ShortTakeProfit else ShortStopLoss, capital', mode);
      trades' := trades' + [t];
      position' := 0;
      investedAmount' := 0.0;
    }
  }

  /**
    Executes the entries of one bar: `s.goLong` opens a long, `s.goShort` a
    short, at the close, investing the whole capital in compounding mode and
    the fixed amount otherwise. Capital is unchanged.
   */
  method ApplyEntries(s: Signals, time: int, close: real, useCompounding: bool,
                      position: int, entryPrice: real, investedAmount: real, capital: real,
                      trades: seq<Trade>)
    returns (position': int, entryPrice': real, investedAmount': real, trades': seq<Trade>)
    ensures Engine(position', entryPrice', investedAmount', s.longPaused, s.shortPaused, capital, trades')
            == EntryPhase(Engine(position, entryPrice, investedAmount, s.longPaused, s.shortPaused, capital, trades),
                          s, time, close, useCompounding)
  {
    var mode := ModeOf(useCompounding);
    position', entryPrice', investedAmount', trades' := position, entryPrice, investedAmount, trades;
    if s.goLong {
      entryPrice' := close;
      position' := 1;
      investedAmount' := if useCompounding then capital else FixedTradeAmount;
      trades' := trades' + [Entry(time, Long, close, investedAmount', capital, mode)];
    }
    if s.goShort {
      entryPrice' := close;
      position' := -1;
      investedAmount' := if useCompounding then capital else FixedTradeAmount;
      trades' := trades' + [Entry(time, Short, close, investedAmount', capital, mode)];
    }
  }

  /**
    Runs the strategy over the bars in one capital mode and returns the ledger
    and its summary: exactly the outcome of the engine run over the EMA series
    of the closes. Closes must be positive, as exchange prices are.
   */
  method Backtest(klineData: seq<Kline>, useCompounding: bool) returns (result: BacktestResult)
    requires PositiveCloses(klineData)
    ensures exists emas :: IsEmaSeries(Closes(klineData), Smoothing(EmaLength), emas) &&
                           result == Outcome(klineData, emas, useCompounding)
    ensures LedgerOk(result.trades, ModeOf(useCompounding))
    ensures result.summary.finalCapital == CapitalBefore(result.trades, |result.trades|)
    ensures result.summary.initialCapital == InitialCapital
    ensures result.summary.totalProfit == result.summary.finalCapital - InitialCapital
    ensures result.summary.totalTrades == |result.trades|
    ensures result.summary.totalProfit == TotalExitProfit(result.trades)
    ensures result.summary.profitPercentage == result.summary.totalProfit / InitialCapital * 100.0
    ensures |klineData| <= EmaLength ==> result.trades == [] && result.summary.finalCapital == InitialCapital
    ensures |klineData| > EmaLength ==> |result.trades| <= 2 * (|klineData| - EmaLength)
  {
    var closes := Closes(klineData);
    var emaValues: seq<real> := [];
    if |closes| > 0 {
      emaValues := CalculateEma(closes, EmaLength);
    }
    assert IsEmaSeries(closes, Smoothing(EmaLength), emaValues);
    var capital, trades := TradeBars(klineData, emaValues, useCompounding);
    var finalCapital := capital;
    var totalProfit := finalCapital - InitialCapital;
    result := BacktestResult(trades, Summary(InitialCapital, finalCapital, totalProfit, |trades|,
                                             totalProfit / InitialCapital * 100.0));
    OutcomeSummary(klineData, emaValues, useCompounding);
  }

  /**
    The trading loop: from bar EmaLength on, evaluates each bar's signals from
    the state before it, stores the new pause flags, executes the exits and then
    the entries. The final capital and ledger are those of the engine's Run.
   */
  method TradeBars(klineData: seq<Kline>, emaValues: seq<real>, useCompounding: bool)
    returns (capital: real, trades: seq<Trade>)
    requires |emaValues| == |klineData| && PositiveCloses(klineData)
    ensures var final := Run(klineData, emaValues, useCompounding,
                             if |klineData| > EmaLength then |klineData| else EmaLength);
            capital == final.capital && trades == final.trades
  {
    var position := 0;
    var entryPrice := 0.0;
    var investedAmount := 0.0;
    var longPaused := false;
    var shortPaused := false;
    capital := InitialCapital;
    trades := [];
    var i := EmaLength;
    while i < |klineData|
      invariant EmaLength <= i <= if |klineData| > EmaLength then |klineData| else EmaLength
      invariant Engine(position, entryPrice, investedAmount, longPaused, shortPaused, capital, trades)
                == Run(klineData, emaValues, useCompounding, i)
    {
      position, entryPrice, investedAmount, longPaused, shortPaused, capital, trades :=
        TradeBar(klineData[i], emaValues[i], klineData[i - 1].close, emaValues[i - 1], useCompounding,
                 position, entryPrice, investedAmount, longPaused, shortPaused, capital, trades);
      RunStep(klineData, emaValues, useCompounding, i);
      i := i + 1;
    }
  }

  /**
    One pass of the trading loop's body: evaluates the bar's signals from the
    state before it, stores the new pause flags, executes the exits and then
    the entries. The new state is one Step of the engine.
   */
  method TradeBar(bar: Kline, ema: real, prevClose: real, prevEma: real, useCompounding: bool,
                  position: int, entryPrice: real, investedAmount: real, longPaused: bool, shortPaused: bool,
                  capital: real, trades: seq<Trade>)
    returns (position': int, entryPrice': real, investedAmount': real, longPaused': bool, shortPaused': bool,
             capital': real, trades': seq<Trade>)
    requires position != 0 ==> entryPrice != 0.0
    ensures Engine(position', entryPrice', investedAmount', longPaused', shortPaused', capital', trades')
            == Step(Engine(position, entryPrice, investedAmount, longPaused, shortPaused, capital, trades),
                    bar, ema, prevClose, prevEma, useCompounding)
  {
    var close := bar.close;
    var s := Evaluate(position, entryPrice, longPaused, shortPaused, close, ema, prevClose, prevEma);
    longPaused', shortPaused' := s.longPaused, s.shortPaused;
    var exitPosition, exitInvested, exitTrades;
    exitPosition, exitInvested, capital', exitTrades :=
      ApplyExits(s, bar.openTime, close, useCompounding, position, entryPrice, investedAmount, capital, trades);
    position', entryPrice', investedAmount', trades' :=
      ApplyEntries(s, bar.openTime, close, useCompounding, exitPosition, entryPrice, exitInvested, capital', exitTrades);
  }
}
