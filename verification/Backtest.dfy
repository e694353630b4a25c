/**
 The trading-plan simulator (src/open_trader/backtest.py): a cash and position ledger over
 daily bars. Prices, cash and quantities are exact reals.
*/
module Backtest {
  import opened Prelude

  datatype Bar = Bar(date: int, low: real, high: real, close: real)

  datatype PlanSide = BuyPlan | SellPlan

  datatype Plan = Plan(
    side: PlanSide, entryLow: Option<real>, entryHigh: Option<real>,
    stopLoss: Option<real>, target1: Option<real>, target2: Option<real>, maxWeight: real)

  datatype Setup = Setup(plan: Plan, runDate: int, cash: real, position: real, commissionBps: real, slippageBps: real)

  datatype TradeSide = Buy | Sell

  datatype Reason = EntryZone | StopLoss | Target1 | Target2 | EndOfBacktest

  datatype Trade = Trade(date: int, side: TradeSide, price: real, quantity: real, notional: real, fees: real,
    cashAfter: real, reason: Reason)

  datatype EquityRow = EquityRow(date: int, cash: real, quantity: real, close: real, equity: real, drawdownPct: real)

  // ---------------------------------------------------------------- prices, fees and signals

  function BuyPrice(price: real, slippageBps: real): real {
    price * (1.0 + slippageBps / 10000.0)
  }

  function SellPrice(price: real, slippageBps: real): real {
    price * (1.0 - slippageBps / 10000.0)
  }

  function Fee(notional: real, commissionBps: real): real {
    notional * commissionBps / 10000.0
  }

  /** Rounds toward zero. */
  function Truncate(x: real): real {
    if x >= 0.0 then x.Floor as real else -((-x).Floor as real)
  }

  /** What one purchase may cost. */
  function Budget(s: Setup): real {
    s.cash * s.plan.maxWeight
  }

  function BuyQuantity(budget: real, price: real): real {
    if price <= 0.0 then 0.0 else Truncate(budget / price)
  }

  predicate EntryTouched(p: Plan, bar: Bar) {
    p.entryLow.Some? && p.entryHigh.Some? && bar.low <= p.entryHigh.value && bar.high >= p.entryLow.value
  }

  /** A zero upper bound counts as absent, as in the source. */
  function EntryLimit(p: Plan, bar: Bar): real {
    if p.entryHigh.Some? && p.entryHigh.value != 0.0 then p.entryHigh.value else bar.close
  }

  function ExitSignal(p: Plan, bar: Bar): Option<(Reason, real)> {
    if p.stopLoss.Some? && bar.low <= p.stopLoss.value then Some((StopLoss, p.stopLoss.value))
    else if p.target2.Some? && bar.high >= p.target2.value then Some((Target2, p.target2.value))
    else if p.target1.Some? && bar.high >= p.target1.value then Some((Target1, p.target1.value))
    else None
  }

  function SellSideExitSignal(p: Plan, bar: Bar): Option<(Reason, real)> {
    if p.stopLoss.Some? && bar.low <= p.stopLoss.value then Some((StopLoss, p.stopLoss.value))
    else if p.target1.Some? && bar.low <= p.target1.value then Some((Target1, p.target1.value))
    else None
  }

  // ---------------------------------------------------------------- the ledger

  datatype Ledger = Ledger(cash: real, quantity: real, trades: seq<Trade>, peak: real, rows: seq<EquityRow>)

  function Opening(s: Setup): Ledger {
    Ledger(s.cash, if s.plan.side == SellPlan then s.position else 0.0, [], s.cash, [])
  }

  /** The trade with its notional, its fees and the cash it leaves. */
  function Filled(s: Setup, cash: real, date: int, side: TradeSide, price: real, quantity: real,
        reason: Reason): Trade {
    var notional := price * quantity;
    var fees := Fee(notional, s.commissionBps);
    Trade(date, side, price, quantity, notional, fees, if side == Buy then cash - (notional + fees)
                                                       else cash + (notional - fees), reason)
  }

  function EntryPrice(s: Setup, bar: Bar): real {
    BuyPrice(EntryLimit(s.plan, bar), s.slippageBps)
  }

  function EntryQuantity(s: Setup, bar: Bar): real {
    BuyQuantity(Budget(s), EntryPrice(s, bar))
  }

  function Booked(l: Ledger, t: Trade, quantity: real): Ledger {
    l.(cash := t.cashAfter, quantity := quantity, trades := l.trades + [t])
  }

  function Enter(s: Setup, l: Ledger, bar: Bar): Ledger {
    var quantity := EntryQuantity(s, bar);
    if quantity > 0.0 then Booked(l, Filled(s, l.cash, bar.date, Buy, EntryPrice(s, bar), quantity, EntryZone),
      quantity)
    else l.(quantity := quantity)
  }

  function Leave(s: Setup, l: Ledger, date: int, raw: real, reason: Reason): Ledger {
    Booked(l, Filled(s, l.cash, date, Sell, SellPrice(raw, s.slippageBps), l.quantity, reason), 0.0)
  }

  function Act(s: Setup, l: Ledger, bar: Bar): Ledger {
    if bar.date <= s.runDate then l
    else if s.plan.side == BuyPlan && l.quantity == 0.0 && EntryTouched(s.plan, bar) then Enter(s, l, bar)
    else if l.quantity > 0.0 then
      var signal := if s.plan.side == BuyPlan then ExitSignal(s.plan, bar) else SellSideExitSignal(s.plan, bar);
      if signal.Some? then Leave(s, l, bar.date, signal.value.1, signal.value.0) else l
    else l
  }

  function Drawdown(peak: real, equity: real): real {
    if peak == 0.0 then 0.0 else (peak - equity) / peak * 100.0
  }

  function Equity(cash: real, quantity: real, close: real): real {
    cash + quantity * close
  }

  function Mark(l: Ledger, bar: Bar): Ledger {
    var equity := Equity(l.cash, l.quantity, bar.close);
    var peak := if equity > l.peak then equity else l.peak;
    l.(peak := peak, rows :=
      l.rows + [EquityRow(bar.date, l.cash, l.quantity, bar.close, equity, Drawdown(peak, equity))])
  }

  function AfterBars(s: Setup, bars: seq<Bar>): (l: Ledger)
    ensures |l.rows| == |bars|
  {
    if bars == [] then Opening(s)
    else Mark(Act(s, AfterBars(s, bars[..|bars| - 1]), bars[|bars| - 1]), bars[|bars| - 1])
  }

  /** What is still held is sold at the last close, and the last equity row is rewritten. */
  function Close(s: Setup, bars: seq<Bar>, l: Ledger): Ledger
    requires |l.rows| == |bars|
  {
    if l.quantity > 0.0 && bars != [] then
      var last := bars[|bars| - 1];
      var sold := Leave(s, l, last.date, last.close, EndOfBacktest);
      var peak := if sold.cash > l.peak then sold.cash else l.peak;
      sold.(peak := peak,
            rows := l.rows[|bars| - 1 :=
              EquityRow(last.date, sold.cash, 0.0, last.close, sold.cash, Drawdown(peak, sold.cash))])
    else l
  }

  function Simulate(s: Setup, bars: seq<Bar>): Ledger {
    Close(s, bars, AfterBars(s, bars))
  }

  predicate Runnable(s: Setup) {
    if s.plan.side == SellPlan then s.position > 0.0 else s.cash > 0.0 && s.plan.maxWeight > 0.0
  }

  datatype SimulationError = NoInitialCash | NoInitialPosition | InvalidWeight

  /** The variables that the simulation updates. */
  class Book {
    var cash: real
    var quantity: real
    var trades: seq<Trade>
    var peak: real
    var rows: seq<EquityRow>

    constructor (s: Setup)
      ensures Contents() == Opening(s)
    {
      cash, quantity, trades, peak, rows := s.cash, if s.plan.side == SellPlan then s.position else 0.0, [], s.cash, [];
    }

    function Contents(): Ledger
      reads this
    {
      Ledger(cash, quantity, trades, peak, rows)
    }

    method BuyAt(s: Setup, bar: Bar)
      modifies this
      ensures Contents() == Enter(s, old(Contents()), bar)
    {
      var price := EntryPrice(s, bar);
      quantity := BuyQuantity(Budget(s), price);
      if quantity > 0.0 {
        var t := Filled(s, cash, bar.date, Buy, price, quantity, EntryZone);
        cash := t.cashAfter;
        trades := trades + [t];
      }
    }

    method SellAt(s: Setup, date: int, raw: real, reason: Reason)
      modifies this
      ensures Contents() == Leave(s, old(Contents()), date, raw, reason)
    {
      var t := Filled(s, cash, date, Sell, SellPrice(raw, s.slippageBps), quantity, reason);
      cash := t.cashAfter;
      trades := trades + [t];
      quantity := 0.0;
    }

    method MarkTo(bar: Bar)
      modifies this
      ensures Contents() == Mark(old(Contents()), bar)
    {
      var equity := Equity(cash, quantity, bar.close);
      if equity > peak { peak := equity; }
      rows := rows + [EquityRow(bar.date, cash, quantity, bar.close, equity, Drawdown(peak, equity))];
    }

    method ActOn(s: Setup, bar: Bar)
      modifies this
      ensures Contents() == Act(s, old(Contents()), bar)
    {
      if bar.date > s.runDate {
        if s.plan.side == BuyPlan && quantity == 0.0 && EntryTouched(s.plan, bar) {
          BuyAt(s, bar);
        } else if quantity > 0.0 {
          var signal := if s.plan.side == BuyPlan then ExitSignal(s.plan, bar) else SellSideExitSignal(s.plan, bar);
          if signal.Some? { SellAt(s, bar.date, signal.value.1, signal.value.0); }
        }
      }
    }

    method Liquidate(s: Setup, bars: seq<Bar>)
      requires |rows| == |bars|
      modifies this
      ensures Contents() == Close(s, bars, old(Contents()))
    {
      if quantity > 0.0 && bars != [] {
        var last := bars[|bars| - 1];
        SellAt(s, last.date, last.close, EndOfBacktest);
        if cash > peak { peak := cash; }
        rows := rows[|bars| - 1 := EquityRow(last.date, cash, 0.0, last.close, cash, Drawdown(peak, cash))];
      }
    }
  }

  /** `_simulate_trading_plan`. */
  method SimulateTradingPlan(s: Setup, bars: seq<Bar>)
      returns (r: Result<(seq<Trade>, seq<EquityRow>), SimulationError>)
    ensures r.Ok? <==> Runnable(s)
    ensures r.Err? ==> r.error == if s.plan.side == SellPlan then NoInitialPosition
                                  else if s.cash <= 0.0 then NoInitialCash else InvalidWeight
    ensures r.Ok? ==> r.value == (Simulate(s, bars).trades, Simulate(s, bars).rows)
  {
    if s.plan.side == SellPlan && s.position <= 0.0 { return Err(NoInitialPosition); }
    if s.plan.side == BuyPlan && s.cash <= 0.0 { return Err(NoInitialCash); }
    if s.plan.side == BuyPlan && s.plan.maxWeight <= 0.0 { return Err(InvalidWeight); }
    var book := new Book(s);
    for i := 0 to |bars|
      invariant fresh(book) && book.Contents() == AfterBars(s, bars[..i])
    {
      assert bars[..i + 1][..i] == bars[..i];
      book.ActOn(s, bars[i]);
      book.MarkTo(bars[i]);
    }
    assert bars[..|bars|] == bars;
    book.Liquidate(s, bars);
    return Ok((book.trades, book.rows));
  }

  // ---------------------------------------------------------------- what every buy-side run satisfies

  predicate BuySide(s: Setup) {
    s.plan.side == BuyPlan && Runnable(s)
  }

  predicate SortedBars(bars: seq<Bar>) {
    forall i, j :: 0 <= i < j < |bars| ==> bars[i].date <= bars[j].date
  }

  /** q is the largest whole number of shares that the budget buys at the price. */
  predicate Largest(budget: real, price: real, q: real) {
    q == q.Floor as real && q * price <= budget < (q + 1.0) * price
  }

  predicate LargestAffordable(s: Setup, t: Trade) {
    Largest(Budget(s), t.price, t.quantity)
  }

  predicate AllLargest(s: Setup, trades: seq<Trade>) {
    forall i :: 0 <= i < |trades| && trades[i].side == Buy ==> LargestAffordable(s, trades[i])
  }

  /** BUY, SELL, BUY, SELL, starting with a purchase, each sale of exactly what was bought before it. */
  predicate Alternating(trades: seq<Trade>) {
    forall i :: 0 <= i < |trades| ==> Follows(trades, i)
  }

  predicate Follows(trades: seq<Trade>, i: nat)
    requires i < |trades|
  {
    if trades[i].side == Buy then trades[i].quantity > 0.0 && (i == 0 || trades[i - 1].side == Sell)
    else i > 0 && trades[i - 1].side == Buy && trades[i].quantity == trades[i - 1].quantity
  }

  /** The last trade is a purchase that no sale has closed. */
  predicate Open(trades: seq<Trade>) {
    trades != [] && trades[|trades| - 1].side == Buy
  }

  predicate DatedAfter(trades: seq<Trade>, date: int) {
    forall i :: 0 <= i < |trades| ==> trades[i].date > date
  }

  function CashFlow(t: Trade): real {
    if t.side == Sell then t.notional - t.fees else -(t.notional + t.fees)
  }

  /** What the first k trades brought in. */
  function Flow(trades: seq<Trade>, k: nat): real
    requires k <= |trades|
  {
    if k == 0 then 0.0 else Flow(trades, k - 1) + CashFlow(trades[k - 1])
  }

  function TotalFlow(trades: seq<Trade>): real {
    Flow(trades, |trades|)
  }

  /** Every recorded balance is the initial cash plus what the trades up to then brought in. */
  predicate Accounted(cash: real, trades: seq<Trade>) {
    forall i :: 0 <= i < |trades| ==> trades[i].cashAfter == cash + Flow(trades, i + 1)
  }

  /** The position is what the last trade left, and the cash is what the trades imply. */
  predicate Balanced(s: Setup, l: Ledger) {
    && Alternating(l.trades) && DatedAfter(l.trades, s.runDate)
    && l.cash == s.cash + TotalFlow(l.trades) && Accounted(s.cash, l.trades)
    && l.quantity == if Open(l.trades) then l.trades[|l.trades| - 1].quantity else 0.0
  }

  lemma {:induction false} FlowOfPrefix(trades: seq<Trade>, t: Trade, k: nat)
    requires k <= |trades|
    ensures Flow(trades + [t], k) == Flow(trades, k)
  {
    if k > 0 { FlowOfPrefix(trades, t, k - 1); }
  }

  lemma {:induction false} FlowSnoc(trades: seq<Trade>, t: Trade)
    ensures TotalFlow(trades + [t]) == TotalFlow(trades) + CashFlow(t)
  {
    FlowOfPrefix(trades, t, |trades|);
  }

  lemma {:induction false} AccountedSnoc(cash: real, trades: seq<Trade>, t: Trade)
    requires Accounted(cash, trades) && t.cashAfter == cash + TotalFlow(trades) + CashFlow(t)
    ensures Accounted(cash, trades + [t])
  {
    forall i | 0 <= i < |trades| + 1 ensures (trades + [t])[i].cashAfter == cash + Flow(trades + [t], i + 1) {
      if i < |trades| { FlowOfPrefix(trades, t, i + 1); } else { FlowSnoc(trades, t); }
    }
  }

  lemma {:induction false} QuotientFits(x: real, q: real, price: real)
    requires q <= x < q + 1.0 && price > 0.0
    ensures q * price <= x * price < (q + 1.0) * price
  {
    MulMonotone(q, x, price);
    MulStrict(x, q + 1.0, price);
  }

  lemma {:induction false} MulMonotone(a: real, b: real, c: real)
    requires a <= b && c > 0.0
    ensures a * c <= b * c
  {
  }

  lemma {:induction false} MulStrict(a: real, b: real, c: real)
    requires a < b && c > 0.0
    ensures a * c < b * c
  {
  }

  lemma {:induction false} DivideBack(budget: real, price: real)
    requires price > 0.0
    ensures budget / price * price == budget
    ensures budget > 0.0 ==> budget / price > 0.0
  {
  }

  lemma {:induction false} TruncateWhole(x: real)
    requires x > 0.0
    ensures Truncate(x) == Truncate(x).Floor as real && 0.0 <= Truncate(x) <= x < Truncate(x) + 1.0
  {
  }

  lemma {:induction false} TruncatedLargest(x: real, price: real)
    requires x > 0.0 && price > 0.0
    ensures Largest(x * price, price, Truncate(x)) && Truncate(x) >= 0.0
  {
    TruncateWhole(x);
    QuotientFits(x, Truncate(x), price);
  }

  lemma {:induction false} QuantityIsLargest(budget: real, price: real)
    requires budget > 0.0 && price > 0.0
    ensures Largest(budget, price, BuyQuantity(budget, price)) && BuyQuantity(budget, price) >= 0.0
  {
    DivideBack(budget, price);
    var x := budget / price;
    assert x * price == budget;
    TruncatedLargest(x, price);
  }

  lemma {:induction false} PositiveBudget(s: Setup)
    requires BuySide(s)
    ensures Budget(s) > 0.0
  {
    MulStrict(0.0, s.cash, s.plan.maxWeight);
  }

  /** A purchase takes the largest whole number of shares within the weight budget, or none. */
  lemma {:induction false} EntryIsLargest(s: Setup, bar: Bar)
    requires BuySide(s)
    ensures EntryQuantity(s, bar) >= 0.0
    ensures EntryQuantity(s, bar) > 0.0 ==> Largest(Budget(s), EntryPrice(s, bar), EntryQuantity(s, bar))
  {
    PositiveBudget(s);
    var price := EntryPrice(s, bar);
    if price > 0.0 { QuantityIsLargest(Budget(s), price); }
  }

  lemma {:induction false} FilledFlow(s: Setup, cash: real, date: int, side: TradeSide, price: real, quantity: real,
        reason: Reason)
    ensures var t := Filled(s, cash, date, side, price, quantity, reason);
      t.cashAfter == cash + CashFlow(t) && t.side == side && t.quantity == quantity && t.date == date
  {
  }

  lemma {:induction false} AlternatingSnoc(trades: seq<Trade>, t: Trade)
    requires Alternating(trades)
    requires if Open(trades) then t.side == Sell && t.quantity == trades[|trades| - 1].quantity
             else t.side == Buy && t.quantity > 0.0
    ensures Alternating(trades + [t])
  {
    var more := trades + [t];
    forall i | 0 <= i < |more| ensures Follows(more, i) {
      if i < |trades| { assert Follows(trades, i); }
    }
  }

  lemma {:induction false} BookedBalanced(s: Setup, l: Ledger, t: Trade, quantity: real)
    requires Balanced(s, l) && t.date > s.runDate && t.cashAfter == l.cash + CashFlow(t)
    requires if !Open(l.trades) then t.side == Buy && t.quantity == quantity && quantity > 0.0
             else t.side == Sell && t.quantity == l.quantity && quantity == 0.0
    ensures Balanced(s, Booked(l, t, quantity))
  {
    FlowSnoc(l.trades, t);
    AlternatingSnoc(l.trades, t);
    AccountedSnoc(s.cash, l.trades, t);
  }

  lemma {:induction false} EnterBalanced(s: Setup, l: Ledger, bar: Bar)
    requires BuySide(s) && Balanced(s, l) && !Open(l.trades) && bar.date > s.runDate
    ensures Balanced(s, Enter(s, l, bar))
  {
    EntryIsLargest(s, bar);
    var quantity := EntryQuantity(s, bar);
    if quantity > 0.0 {
      FilledFlow(s, l.cash, bar.date, Buy, EntryPrice(s, bar), quantity, EntryZone);
      BookedBalanced(s, l, Filled(s, l.cash, bar.date, Buy, EntryPrice(s, bar), quantity, EntryZone), quantity);
    }
  }

  lemma {:induction false} LeaveBalanced(s: Setup, l: Ledger, date: int, raw: real, reason: Reason)
    requires Balanced(s, l) && Open(l.trades) && date > s.runDate
    ensures Balanced(s, Leave(s, l, date, raw, reason))
  {
    FilledFlow(s, l.cash, date, Sell, SellPrice(raw, s.slippageBps), l.quantity, reason);
    BookedBalanced(s, l, Filled(s, l.cash, date, Sell, SellPrice(raw, s.slippageBps), l.quantity, reason), 0.0);
  }

  /** The position tells whether the last trade was a purchase. */
  lemma {:induction false} PositionShowsOpen(s: Setup, l: Ledger)
    requires Balanced(s, l)
    ensures if Open(l.trades) then l.quantity > 0.0 else l.quantity == 0.0
  {
    if Open(l.trades) { assert Follows(l.trades, |l.trades| - 1); }
  }

  lemma {:induction false} ActBalanced(s: Setup, l: Ledger, bar: Bar)
    requires BuySide(s) && Balanced(s, l)
    ensures Balanced(s, Act(s, l, bar))
  {
    PositionShowsOpen(s, l);
    if bar.date > s.runDate {
      if l.quantity == 0.0 && EntryTouched(s.plan, bar) {
        EnterBalanced(s, l, bar);
      } else if l.quantity > 0.0 && ExitSignal(s.plan, bar).Some? {
        LeaveBalanced(s, l, bar.date, ExitSignal(s.plan, bar).value.1, ExitSignal(s.plan, bar).value.0);
      }
    }
  }

  lemma {:induction false} MarkBalanced(s: Setup, l: Ledger, bar: Bar)
    requires Balanced(s, l)
    ensures Balanced(s, Mark(l, bar))
  {
  }

  lemma {:induction false} AlwaysBalanced(s: Setup, bars: seq<Bar>)
    requires BuySide(s)
    ensures Balanced(s, AfterBars(s, bars))
  {
    if bars != [] {
      var before := bars[..|bars| - 1];
      AlwaysBalanced(s, before);
      ActBalanced(s, AfterBars(s, before), bars[|bars| - 1]);
      MarkBalanced(s, Act(s, AfterBars(s, before), bars[|bars| - 1]), bars[|bars| - 1]);
    }
  }

  /** A step keeps the trades or books one more, dated by its bar; a purchase has the entry's price and quantity. */
  lemma {:induction false} ActTrades(s: Setup, l: Ledger, bar: Bar) returns (t: Option<Trade>)
    ensures Act(s, l, bar).trades == if t.Some? then l.trades + [t.value] else l.trades
    ensures t.Some? ==> t.value.date == bar.date
    ensures t.Some? && t.value.side == Buy ==>
      t.value.quantity == EntryQuantity(s, bar) > 0.0 && t.value.price == EntryPrice(s, bar)
  {
    var trades := Act(s, l, bar).trades;
    t := if |trades| > |l.trades| then Some(trades[|l.trades|]) else None;
  }

  lemma {:induction false} PurchasesLargest(s: Setup, bars: seq<Bar>)
    requires BuySide(s)
    ensures AllLargest(s, AfterBars(s, bars).trades)
  {
    if bars != [] {
      var before, bar := bars[..|bars| - 1], bars[|bars| - 1];
      PurchasesLargest(s, before);
      EntryIsLargest(s, bar);
      var t := ActTrades(s, AfterBars(s, before), bar);
      if t.Some? && t.value.side == Buy { assert LargestAffordable(s, t.value); }
    }
  }

  /** Every trade is dated by a bar, so on sorted bars no trade is later than the last one. */
  lemma {:induction false} TradesDated(s: Setup, bars: seq<Bar>)
    requires SortedBars(bars)
    ensures forall t <- AfterBars(s, bars).trades :: bars != [] && t.date <= bars[|bars| - 1].date
  {
    if bars != [] {
      var before, bar := bars[..|bars| - 1], bars[|bars| - 1];
      TradesDated(s, before);
      var t := ActTrades(s, AfterBars(s, before), bar);
    }
  }

  /**
   Every buy-side run alternates equal buys and sales after the run date, ends flat, and its cash is accounted for.
  */
  lemma {:induction false} BuyRunBalances(s: Setup, bars: seq<Bar>)
    requires BuySide(s) && SortedBars(bars)
    ensures var l := Simulate(s, bars);
      && Alternating(l.trades) && !Open(l.trades) && DatedAfter(l.trades, s.runDate)
      && l.quantity == 0.0 && l.cash == s.cash + TotalFlow(l.trades) && Accounted(s.cash, l.trades)
  {
    AlwaysBalanced(s, bars);
    var l := AfterBars(s, bars);
    PositionShowsOpen(s, l);
    if Open(l.trades) {
      TradesDated(s, bars);
      var last := bars[|bars| - 1];
      assert l.trades[|l.trades| - 1] in l.trades;
      LeaveBalanced(s, l, last.date, last.close, EndOfBacktest);
    }
  }

  lemma {:induction false} BuyRunLargest(s: Setup, bars: seq<Bar>)
    requires BuySide(s)
    ensures AllLargest(s, Simulate(s, bars).trades)
  {
    PurchasesLargest(s, bars);
  }

  /** Later bars never change earlier trades; only the closing sale depends on where the bars end. */
  lemma {:induction false} EarlierTradesStay(s: Setup, bars: seq<Bar>, k: nat)
    requires k <= |bars|
    ensures AfterBars(s, bars[..k]).trades <= AfterBars(s, bars).trades <= Simulate(s, bars).trades
    ensures |Simulate(s, bars).trades| <= |AfterBars(s, bars).trades| + 1
  {
    if k == |bars| {
      assert bars[..k] == bars;
    } else {
      EarlierTradesStay(s, bars[..|bars| - 1], k);
      assert bars[..|bars| - 1][..k] == bars[..k];
    }
  }

  // ---------------------------------------------------------------- what every sell-side run satisfies

  predicate SellSide(s: Setup) {
    s.plan.side == SellPlan && Runnable(s)
  }

  /** Nothing sold yet, or the whole position sold once after the run date. */
  ghost predicate SoldAtMostOnce(s: Setup, l: Ledger) {
    || (l.trades == [] && l.quantity == s.position && l.cash == s.cash)
    || (l.quantity == 0.0 && |l.trades| == 1 && WholeSale(s, l) && l.trades[0].date > s.runDate)
  }

  predicate WholeSale(s: Setup, l: Ledger)
    requires |l.trades| == 1
  {
    var t := l.trades[0];
    t.side == Sell && t.quantity == s.position && l.cash == t.cashAfter == s.cash + CashFlow(t)
  }

  lemma {:induction false} SellsAtMostOnce(s: Setup, bars: seq<Bar>)
    requires SellSide(s)
    ensures SoldAtMostOnce(s, AfterBars(s, bars))
  {
    if bars != [] {
      var before := bars[..|bars| - 1];
      SellsAtMostOnce(s, before);
    }
  }

  /**
   A sell-side run over at least one bar sells the whole position in one sale. Its closing sale has no
   date guard, so the sale comes after the run date exactly when the last bar does.
  */
  lemma {:induction false} SellRunLiquidates(s: Setup, bars: seq<Bar>)
    requires SellSide(s) && SortedBars(bars) && bars != []
    ensures var l := Simulate(s, bars);
      && |l.trades| == 1 && WholeSale(s, l) && l.quantity == 0.0
      && (DatedAfter(l.trades, s.runDate) <==> bars[|bars| - 1].date > s.runDate)
  {
    SellsAtMostOnce(s, bars);
    var l := AfterBars(s, bars);
    if l.quantity == 0.0 {
      TradesDated(s, bars);
      assert l.trades[0] in l.trades;
    } else {
      assert Simulate(s, bars).trades[0].date == bars[|bars| - 1].date;
    }
  }

  const LATE_SETUP := Setup(Plan(SellPlan, None, None, Some(1.0), None, None, 0.0), 5, 100.0, 10.0, 0.0, 0.0)
  const LATE_BARS := [Bar(5, 8.0, 12.0, 10.0)]

  /** A sell-side run whose bars end on the run date: the position is sold on that date all the same. */
  lemma {:induction false} SoldOnRunDate()
    ensures SellSide(LATE_SETUP) && SortedBars(LATE_BARS)
    ensures !DatedAfter(Simulate(LATE_SETUP, LATE_BARS).trades, LATE_SETUP.runDate)
  {
    SellRunLiquidates(LATE_SETUP, LATE_BARS);
  }

  // ---------------------------------------------------------------- the equity curve

  /** The highest of the floor and the first k equities. */
  function Highest(floor: real, rows: seq<EquityRow>, k: nat): real
    requires k <= |rows|
  {
    if k == 0 then floor
    else
      var h := Highest(floor, rows, k - 1);
      if rows[k - 1].equity > h then rows[k - 1].equity else h
  }

  /** The drawdown is the part of the peak that is lost, in percent. */
  lemma {:induction false} DrawdownIsShare(peak: real, equity: real)
    requires peak != 0.0
    ensures Drawdown(peak, equity) * peak == 100.0 * (peak - equity)
  {
    var share := (peak - equity) / peak;
    assert share * peak == peak - equity;
    assert share * 100.0 * peak == 100.0 * (share * peak);
  }

  /** It is at least each of them, and one of them. */
  lemma {:induction false} HighestIsReached(floor: real, rows: seq<EquityRow>, k: nat)
    requires k <= |rows|
    ensures Highest(floor, rows, k) >= floor && forall i :: 0 <= i < k ==> Highest(floor, rows, k) >= rows[i].equity
    ensures Highest(floor, rows, k) == floor || exists i :: 0 <= i < k && Highest(floor, rows, k) == rows[i].equity
  {
    if k > 0 { HighestIsReached(floor, rows, k - 1); }
  }

  /** Each row's drawdown is measured from the highest equity up to that row, the initial cash included. */
  predicate DrawdownsMeasured(cash: real, rows: seq<EquityRow>) {
    forall i :: 0 <= i < |rows| ==> Measured(rows[i], Highest(cash, rows, i + 1))
  }

  predicate PeakMeasured(cash: real, l: Ledger) {
    l.peak == Highest(cash, l.rows, |l.rows|) && DrawdownsMeasured(cash, l.rows)
  }

  predicate Measured(row: EquityRow, peak: real) {
    row.drawdownPct == Drawdown(peak, row.equity)
  }

  lemma {:induction false} HighestOfPrefix(floor: real, rows: seq<EquityRow>, row: EquityRow, k: nat)
    requires k <= |rows|
    ensures Highest(floor, rows + [row], k) == Highest(floor, rows, k)
  {
    if k > 0 { HighestOfPrefix(floor, rows, row, k - 1); }
  }

  lemma {:induction false} MeasuredSnoc(cash: real, rows: seq<EquityRow>, row: EquityRow)
    requires DrawdownsMeasured(cash, rows) && Measured(row, Highest(cash, rows + [row], |rows| + 1))
    ensures DrawdownsMeasured(cash, rows + [row])
  {
    forall i | 0 <= i < |rows| + 1 ensures Measured((rows + [row])[i], Highest(cash, rows + [row], i + 1)) {
      if i < |rows| { HighestOfPrefix(cash, rows, row, i + 1); }
    }
  }

  lemma {:induction false} PeakIsHighest(s: Setup, bars: seq<Bar>)
    ensures PeakMeasured(s.cash, AfterBars(s, bars))
  {
    if bars != [] {
      PeakIsHighest(s, bars[..|bars| - 1]);
      var l := AfterBars(s, bars[..|bars| - 1]);
      ActKeepsRows(s, l, bars[|bars| - 1]);
      MarkMeasured(s, Act(s, l, bars[|bars| - 1]), bars[|bars| - 1]);
    }
  }

  lemma {:induction false} ActKeepsRows(s: Setup, l: Ledger, bar: Bar)
    ensures Act(s, l, bar).rows == l.rows && Act(s, l, bar).peak == l.peak
  {
  }

  lemma {:induction false} MarkMeasured(s: Setup, l: Ledger, bar: Bar)
    requires PeakMeasured(s.cash, l)
    ensures PeakMeasured(s.cash, Mark(l, bar))
  {
    var row := Mark(l, bar).rows[|l.rows|];
    HighestOfPrefix(s.cash, l.rows, row, |l.rows|);
    MeasuredSnoc(s.cash, l.rows, row);
  }

  lemma {:induction false} HighestOfSame(floor: real, a: seq<EquityRow>, b: seq<EquityRow>, k: nat)
    requires k <= |a| && k <= |b| && forall i :: 0 <= i < k ==> a[i] == b[i]
    ensures Highest(floor, a, k) == Highest(floor, b, k)
  {
    if k > 0 { HighestOfSame(floor, a, b, k - 1); }
  }

  /** The position is sold at the last close. */
  predicate ClosesOut(s: Setup, bars: seq<Bar>) {
    AfterBars(s, bars).quantity > 0.0 && bars != []
  }

  function Maximum(a: real, b: real): real {
    if a >= b then a else b
  }

  /**
   The closing sale rewrites the last row and no other; what it reports is all cash, measured from the old peak or the
   new cash.
  */
  lemma {:induction false} ClosingRow(s: Setup, bars: seq<Bar>)
    requires ClosesOut(s, bars)
    ensures var before, after, n := AfterBars(s, bars), Simulate(s, bars), |bars| - 1;
      && |after.rows| == |before.rows| && after.rows[..n] == before.rows[..n]
      && after.rows[n].equity == after.rows[n].cash == after.cash && after.rows[n].quantity == 0.0
      && after.peak == Maximum(before.peak, after.cash) && Measured(after.rows[n], after.peak)
  {
  }

  lemma {:induction false} NoClosingRow(s: Setup, bars: seq<Bar>)
    requires !ClosesOut(s, bars)
    ensures Simulate(s, bars) == AfterBars(s, bars)
  {
  }

  /** All rows of a finished run but a rewritten last one are measured from the highest equity up to them. */
  lemma {:induction false} RunMeasured(s: Setup, bars: seq<Bar>)
    ensures var rows := Simulate(s, bars).rows;
      forall i :: 0 <= i < |rows| - (if ClosesOut(s, bars) then 1 else 0) ==>
        Measured(rows[i], Highest(s.cash, rows, i + 1))
  {
    PeakIsHighest(s, bars);
    var before, after := AfterBars(s, bars).rows, Simulate(s, bars).rows;
    if ClosesOut(s, bars) {
      ClosingRow(s, bars);
      forall i | 0 <= i < |after| - 1 ensures Measured(after[i], Highest(s.cash, after, i + 1)) {
        assert forall k :: 0 <= k <= i ==> after[k] == after[..|bars| - 1][k] == before[..|bars| - 1][k] == before[k];
        HighestOfSame(s.cash, before, after, i + 1);
        assert Measured(before[i], Highest(s.cash, before, i + 1));
      }
    } else {
      NoClosingRow(s, bars);
    }
  }

  /** What is left of a price after the slippage and the commission of a sale. */
  function KeptPrice(s: Setup, price: real): real {
    price * ((1.0 - s.slippageBps / 10000.0) * (1.0 - s.commissionBps / 10000.0))
  }

  lemma {:induction false} NetOfFee(notional: real, bps: real)
    ensures notional - notional * bps / 10000.0 == notional * (1.0 - bps / 10000.0)
  {
  }

  lemma {:induction false} Regroup(price: real, a: real, quantity: real, b: real)
    ensures price * a * quantity * b == quantity * (price * (a * b))
  {
  }

  /** A sale brings in the quantity at the price that is kept. */
  lemma {:induction false} LeaveCash(s: Setup, l: Ledger, date: int, raw: real, reason: Reason)
    ensures Leave(s, l, date, raw, reason).cash == l.cash + l.quantity * KeptPrice(s, raw)
  {
    var a, b := 1.0 - s.slippageBps / 10000.0, 1.0 - s.commissionBps / 10000.0;
    NetOfFee(raw * a * l.quantity, s.commissionBps);
    Regroup(raw, a, l.quantity, b);
  }

  lemma {:induction false} ClosingCash(s: Setup, bars: seq<Bar>, l: Ledger)
    requires bars != [] && |l.rows| == |bars| && l.quantity > 0.0
    ensures Close(s, bars, l).cash == l.cash + l.quantity * KeptPrice(s, bars[|bars| - 1].close)
  {
    var last := bars[|bars| - 1];
    LeaveCash(s, l, last.date, last.close, EndOfBacktest);
  }

  /** The last bar adds one row, for the cash and the position that it leaves. */
  lemma {:induction false} LastMark(s: Setup, bars: seq<Bar>)
    requires bars != []
    ensures var n, l := |bars| - 1, AfterBars(s, bars);
      var before := AfterBars(s, bars[..n]);
      var marked := Equity(l.cash, l.quantity, bars[n].close);
      && l.rows[..n] == before.rows && l.rows[n].equity == marked && l.peak == Maximum(before.peak, marked)
  {
    var n := |bars| - 1;
    ActKeepsRows(s, AfterBars(s, bars[..n]), bars[n]);
  }

  /** The highest equity that the finished run shows: the peak before the last bar, or the closing cash. */
  lemma {:induction false} VisibleHighest(s: Setup, bars: seq<Bar>)
    requires ClosesOut(s, bars)
    ensures Highest(s.cash, Simulate(s, bars).rows, |bars|)
         == Maximum(AfterBars(s, bars[..|bars| - 1]).peak, Simulate(s, bars).cash)
  {
    var n := |bars| - 1;
    var before, after := AfterBars(s, bars[..n]), Simulate(s, bars);
    ClosingRow(s, bars);
    LastMark(s, bars);
    PeakIsHighest(s, bars[..n]);
    assert forall k :: 0 <= k < n ==> after.rows[k] == after.rows[..n][k] == before.rows[k];
    HighestOfSame(s.cash, before.rows, after.rows, n);
  }

  lemma {:induction false} ScaleCompare(q: real, x: real, y: real)
    requires q > 0.0
    ensures q * x <= q * y <==> x <= y
  {
    if x <= y { MulMonotone(x, y, q); } else { MulStrict(y, x, q); }
  }

  /** Selling loses nothing against the close exactly when the costs take nothing of it. */
  lemma {:induction false} SaleKeepsEquity(s: Setup, bars: seq<Bar>, l: Ledger)
    requires bars != [] && |l.rows| == |bars| && l.quantity > 0.0
    ensures var close := bars[|bars| - 1].close;
      Equity(l.cash, l.quantity, close) <= Close(s, bars, l).cash <==> close <= KeptPrice(s, close)
  {
    var close := bars[|bars| - 1].close;
    ClosingCash(s, bars, l);
    CompareProceeds(l.cash, l.quantity, close, KeptPrice(s, close), Close(s, bars, l).cash);
  }

  lemma {:induction false} CompareProceeds(cash: real, quantity: real, close: real, kept: real, sold: real)
    requires quantity > 0.0 && sold == cash + quantity * kept
    ensures Equity(cash, quantity, close) <= sold <==> close <= kept
  {
    ScaleCompare(quantity, close, kept);
  }

  /**
   The peak that the rewritten last row is measured from is the highest equity that the rows show exactly when the
   last bar set no new high or the closing sale costs nothing; otherwise the row hides the equity that its drawdown
   refers to.
  */
  lemma {:induction false} ClosingPeakVisibleIff(s: Setup, bars: seq<Bar>)
    requires ClosesOut(s, bars)
    ensures var l, n := AfterBars(s, bars), |bars| - 1;
      Simulate(s, bars).peak == Highest(s.cash, Simulate(s, bars).rows, |bars|) <==>
        || Equity(l.cash, l.quantity, bars[n].close) <= AfterBars(s, bars[..n]).peak
        || bars[n].close <= KeptPrice(s, bars[n].close)
  {
    ClosingRow(s, bars);
    LastMark(s, bars);
    VisibleHighest(s, bars);
    SaleKeepsEquity(s, bars, AfterBars(s, bars));
  }

  const SLIPPED_SETUP := LATE_SETUP.(slippageBps := 100.0)

  lemma {:induction false} SlippedRun()
    ensures ClosesOut(SLIPPED_SETUP, LATE_BARS) && AfterBars(SLIPPED_SETUP, LATE_BARS[..0]).peak == 100.0
    ensures AfterBars(SLIPPED_SETUP, LATE_BARS).cash == 100.0 && AfterBars(SLIPPED_SETUP, LATE_BARS).quantity == 10.0
  {
    assert LATE_BARS[..0] == [];
  }

  /** One percent of slippage: the last row is measured from 200 while no row shows that much. */
  lemma {:induction false} HiddenPeak()
    ensures Simulate(SLIPPED_SETUP, LATE_BARS).peak != Highest(SLIPPED_SETUP.cash,
      Simulate(SLIPPED_SETUP, LATE_BARS).rows, 1)
  {
    SlippedRun();
    assert KeptPrice(SLIPPED_SETUP, 10.0) == 9.9;
    ClosingPeakVisibleIff(SLIPPED_SETUP, LATE_BARS);
  }

  // ---------------------------------------------------------------- which prices the trades have

  lemma {:induction false} AfterOneMore(s: Setup, bars: seq<Bar>, n: nat)
    requires n < |bars|
    ensures AfterBars(s, bars[..n + 1]) == Mark(Act(s, AfterBars(s, bars[..n]), bars[n]), bars[n])
  {
    assert bars[..n + 1][..n] == bars[..n];
  }

  predicate StopTouched(p: Plan, bar: Bar) {
    p.stopLoss.Some? && bar.low <= p.stopLoss.value
  }

  /** The price is a target of a long position that the bar reaches. */
  predicate Reaches(p: Plan, bar: Bar, x: real) {
    bar.high >= x && (p.target1 == Some(x) || p.target2 == Some(x))
  }

  predicate TargetsOrdered(p: Plan) {
    p.target1.Some? && p.target2.Some? ==> p.target1.value <= p.target2.value
  }

  /** The sale of the whole position of `l` at this price before slippage. */
  predicate SellsAt(s: Setup, l: Ledger, t: Trade, date: int, raw: real) {
    t.side == Sell && t.quantity == l.quantity && t.date == date && t.price == raw * (1.0 - s.slippageBps / 10000.0)
  }

  /** What one bar after the run date does to a held long position: nothing, the stop, or the best target reached. */
  ghost predicate LongExit(s: Setup, l: Ledger, m: Ledger, bar: Bar) {
    if !StopTouched(s.plan, bar) && !(exists x :: Reaches(s.plan, bar, x)) then m.trades == l.trades
    else
      && |m.trades| == |l.trades| + 1 && m.trades[..|l.trades|] == l.trades
      && var t := m.trades[|l.trades|];
      if StopTouched(s.plan, bar) then SellsAt(s, l, t, bar.date, s.plan.stopLoss.value) && t.reason == StopLoss
      else exists raw :: TakesTarget(s, l, t, bar, raw)
  }

  /** The sale is at a target that the bar reaches, the second one if it does, and no reached target is better. */
  ghost predicate TakesTarget(s: Setup, l: Ledger, t: Trade, bar: Bar, raw: real) {
    && Reaches(s.plan, bar, raw) && SellsAt(s, l, t, bar.date, raw)
    && (TargetsOrdered(s.plan) ==> forall x :: Reaches(s.plan, bar, x) ==> x <= raw)
    && (t.reason == Target1 || t.reason == Target2)
    && (t.reason == Target2 <==> s.plan.target2.Some? && bar.high >= s.plan.target2.value)
    && Some(raw) == if t.reason == Target2 then s.plan.target2 else s.plan.target1
  }

  lemma {:induction false} LeaveTrade(s: Setup, l: Ledger, date: int, raw: real, reason: Reason)
    ensures var m := Leave(s, l, date, raw, reason);
      && |m.trades| == |l.trades| + 1 && m.trades[..|l.trades|] == l.trades
      && SellsAt(s, l, m.trades[|l.trades|], date, raw) && m.trades[|l.trades|].reason == reason
  {
  }

  lemma {:induction false} LongExits(s: Setup, l: Ledger, bar: Bar)
    requires s.plan.side == BuyPlan && l.quantity > 0.0 && bar.date > s.runDate
    ensures LongExit(s, l, Act(s, l, bar), bar)
  {
    var p := s.plan;
    if StopTouched(p, bar) {
      LeaveTrade(s, l, bar.date, p.stopLoss.value, StopLoss);
    } else if p.target2.Some? && bar.high >= p.target2.value {
      LeaveTrade(s, l, bar.date, p.target2.value, Target2);
      var m := Act(s, l, bar);
      assert Reaches(p, bar, p.target2.value);
      assert TakesTarget(s, l, m.trades[|l.trades|], bar, p.target2.value);
    } else if p.target1.Some? && bar.high >= p.target1.value {
      LeaveTrade(s, l, bar.date, p.target1.value, Target1);
      var m := Act(s, l, bar);
      assert Reaches(p, bar, p.target1.value);
      assert TakesTarget(s, l, m.trades[|l.trades|], bar, p.target1.value);
    }
  }

  /** A short plan leaves at the stop or at the target when the bar falls to it. */
  predicate ShortExit(s: Setup, l: Ledger, m: Ledger, bar: Bar) {
    var falls := s.plan.target1.Some? && bar.low <= s.plan.target1.value;
    if !StopTouched(s.plan, bar) && !falls then m.trades == l.trades
    else
      && |m.trades| == |l.trades| + 1 && m.trades[..|l.trades|] == l.trades
      && var t := m.trades[|l.trades|];
      if StopTouched(s.plan, bar) then SellsAt(s, l, t, bar.date, s.plan.stopLoss.value) && t.reason == StopLoss
      else SellsAt(s, l, t, bar.date, s.plan.target1.value) && t.reason == Target1
  }

  lemma {:induction false} ShortExits(s: Setup, l: Ledger, bar: Bar)
    requires s.plan.side == SellPlan && l.quantity > 0.0 && bar.date > s.runDate
    ensures ShortExit(s, l, Act(s, l, bar), bar)
  {
    if StopTouched(s.plan, bar) {
      LeaveTrade(s, l, bar.date, s.plan.stopLoss.value, StopLoss);
    } else if s.plan.target1.Some? && bar.low <= s.plan.target1.value {
      LeaveTrade(s, l, bar.date, s.plan.target1.value, Target1);
    }
  }

  /** The bar and the entry zone meet. */
  predicate ZoneMet(p: Plan, bar: Bar) {
    p.entryLow.Some? && p.entryHigh.Some? && p.entryLow.value <= bar.high && bar.low <= p.entryHigh.value
  }

  /** A flat long plan buys exactly when the bar meets the zone and a share is affordable, at the zone's upper bound. */
  predicate LongEntry(s: Setup, l: Ledger, m: Ledger, bar: Bar) {
    if !ZoneMet(s.plan, bar) || EntryQuantity(s, bar) <= 0.0 then m.trades == l.trades
    else
      && |m.trades| == |l.trades| + 1 && m.trades[..|l.trades|] == l.trades
      && var t := m.trades[|l.trades|];
      && t.side == Buy && t.date == bar.date && t.reason == EntryZone && t.quantity == EntryQuantity(s, bar)
      && (s.plan.entryHigh.value != 0.0 ==> t.price == s.plan.entryHigh.value * (1.0 + s.slippageBps / 10000.0))
      && (s.plan.entryHigh.value == 0.0 ==> t.price == bar.close * (1.0 + s.slippageBps / 10000.0))
  }

  lemma {:induction false} LongEnters(s: Setup, l: Ledger, bar: Bar)
    requires s.plan.side == BuyPlan && l.quantity == 0.0 && bar.date > s.runDate
    ensures LongEntry(s, l, Act(s, l, bar), bar)
  {
  }

  /** Nothing happens up to the run date. */
  lemma {:induction false} NothingBefore(s: Setup, bars: seq<Bar>, n: nat)
    requires n < |bars| && bars[n].date <= s.runDate
    ensures AfterBars(s, bars[..n + 1]).trades == AfterBars(s, bars[..n]).trades
  {
    AfterOneMore(s, bars, n);
  }

  /**
   What each bar of a long run does: a held position is left at the stop or the best target reached, a flat one is
   entered at the upper bound of the zone, and otherwise nothing is traded.
  */
  lemma {:induction false} LongRunTrades(s: Setup, bars: seq<Bar>, n: nat)
    requires BuySide(s) && n < |bars| && bars[n].date > s.runDate
    ensures var l, m := AfterBars(s, bars[..n]), AfterBars(s, bars[..n + 1]);
      if Open(l.trades) then LongExit(s, l, m, bars[n]) else LongEntry(s, l, m, bars[n])
  {
    var l := AfterBars(s, bars[..n]);
    AlwaysBalanced(s, bars[..n]);
    PositionShowsOpen(s, l);
    AfterOneMore(s, bars, n);
    if Open(l.trades) { LongExits(s, l, bars[n]); } else { LongEnters(s, l, bars[n]); }
  }

  lemma {:induction false} ShortRunTrades(s: Setup, bars: seq<Bar>, n: nat)
    requires SellSide(s) && n < |bars| && bars[n].date > s.runDate
    ensures var l, m := AfterBars(s, bars[..n]), AfterBars(s, bars[..n + 1]);
      if l.trades == [] then ShortExit(s, l, m, bars[n]) else m.trades == l.trades
  {
    var l := AfterBars(s, bars[..n]);
    SellsAtMostOnce(s, bars[..n]);
    AfterOneMore(s, bars, n);
    if l.trades == [] { ShortExits(s, l, bars[n]); }
  }

  /** The row is that of the bar, with the cash and the position of the ledger, valued at the close. */
  predicate Shows(row: EquityRow, l: Ledger, bar: Bar) {
    && row.date == bar.date && row.close == bar.close && row.cash == l.cash && row.quantity == l.quantity
    && row.equity == Equity(l.cash, l.quantity, bar.close)
  }

  lemma {:induction false} MarkShows(l: Ledger, bar: Bar)
    ensures Shows(Mark(l, bar).rows[|l.rows|], Mark(l, bar), bar)
  {
  }

  lemma {:induction false} LastShows(s: Setup, bars: seq<Bar>)
    requires bars != []
    ensures Shows(AfterBars(s, bars).rows[|bars| - 1], AfterBars(s, bars), bars[|bars| - 1])
  {
    var l, bar := AfterBars(s, bars[..|bars| - 1]), bars[|bars| - 1];
    ActKeepsRows(s, l, bar);
    MarkShows(Act(s, l, bar), bar);
  }

  /** Each row shows its bar and the cash and the position after it, valued at the close. */
  lemma {:induction false} RowsMarked(s: Setup, bars: seq<Bar>, i: nat)
    requires i < |bars|
    ensures Shows(AfterBars(s, bars).rows[i], AfterBars(s, bars[..i + 1]), bars[i])
  {
    var n := |bars| - 1;
    if i == n {
      assert bars[..i + 1] == bars;
      LastShows(s, bars);
    } else {
      RowsMarked(s, bars[..n], i);
      assert bars[..n][..i + 1] == bars[..i + 1];
      LastMark(s, bars);
      assert AfterBars(s, bars).rows[i] == AfterBars(s, bars).rows[..n][i];
    }
  }

  // ---------------------------------------------------------------- overdrafts

  /** What a purchase costs, commission included. */
  function Cost(s: Setup, price: real, quantity: real): real {
    quantity * price * (1.0 + s.commissionBps / 10000.0)
  }

  lemma {:induction false} WithFee(notional: real, bps: real)
    ensures notional + notional * bps / 10000.0 == notional * (1.0 + bps / 10000.0)
  {
  }

  /** A purchase is sized from the initial cash, so it overdraws exactly when it costs more than the cash left. */
  lemma {:induction false} OverdrawsIff(s: Setup, l: Ledger, bar: Bar)
    requires EntryQuantity(s, bar) > 0.0
    ensures Enter(s, l, bar).cash >= 0.0 <==> Cost(s, EntryPrice(s, bar), EntryQuantity(s, bar)) <= l.cash
  {
    WithFee(EntryPrice(s, bar) * EntryQuantity(s, bar), s.commissionBps);
  }

  /** Cash that covers the whole weight budget with commission is never overdrawn. */
  lemma {:induction false} CoveredPurchase(s: Setup, l: Ledger, bar: Bar)
    requires BuySide(s) && s.commissionBps >= 0.0 && Budget(s) * (1.0 + s.commissionBps / 10000.0) <= l.cash
    ensures Enter(s, l, bar).cash >= 0.0
  {
    PositiveBudget(s);
    var factor := 1.0 + s.commissionBps / 10000.0;
    MulMonotone(0.0, Budget(s), factor);
    EntryIsLargest(s, bar);
    if EntryQuantity(s, bar) > 0.0 {
      MulMonotone(EntryQuantity(s, bar) * EntryPrice(s, bar), Budget(s), factor);
      OverdrawsIff(s, l, bar);
    }
  }

  const STOPPED_SETUP :=
    Setup(Plan(BuyPlan, Some(10.0), Some(10.0), Some(9.0), None, None, 1.0), 0, 100.0, 0.0, 0.0, 0.0)
  const STOPPED_BARS := [Bar(1, 9.5, 10.5, 10.0), Bar(2, 8.5, 9.2, 9.0), Bar(3, 9.5, 10.5, 10.0)]

  /** Entering at 10 with the whole of 100 buys ten shares for all of it. */
  lemma {:induction false} StoppedEntry(bar: Bar)
    ensures EntryPrice(STOPPED_SETUP, bar) == 10.0 && EntryQuantity(STOPPED_SETUP, bar) == 10.0
    ensures forall l :: Enter(STOPPED_SETUP, l, bar).cash == l.cash - 100.0
                     && Enter(STOPPED_SETUP, l, bar).quantity == 10.0
  {
    assert Budget(STOPPED_SETUP) / 10.0 == 10.0;
  }

  lemma {:induction false} StoppedExit(l: Ledger, bar: Bar)
    requires l.quantity == 10.0
    ensures Leave(STOPPED_SETUP, l, bar.date, 9.0, StopLoss).cash == l.cash + 90.0
  {
    LeaveCash(STOPPED_SETUP, l, bar.date, 9.0, StopLoss);
    assert KeptPrice(STOPPED_SETUP, 9.0) == 9.0;
  }

  lemma {:induction false} StoppedActs(l: Ledger)
    ensures l.quantity == 0.0 ==> Act(STOPPED_SETUP, l, STOPPED_BARS[0]).cash == l.cash - 100.0
    ensures l.quantity == 0.0 ==> Act(STOPPED_SETUP, l, STOPPED_BARS[0]).quantity == 10.0
    ensures l.quantity == 10.0 ==> Act(STOPPED_SETUP, l, STOPPED_BARS[1]).cash == l.cash + 90.0
    ensures l.quantity == 10.0 ==> Act(STOPPED_SETUP, l, STOPPED_BARS[1]).quantity == 0.0
    ensures l.quantity == 0.0 ==> Act(STOPPED_SETUP, l, STOPPED_BARS[2]).cash == l.cash - 100.0
  {
    StoppedEntry(STOPPED_BARS[0]);
    StoppedEntry(STOPPED_BARS[2]);
    if l.quantity == 10.0 { StoppedExit(l, STOPPED_BARS[1]); }
  }

  /** Buy, stop out, buy again: the second purchase leaves a debt of ten. */
  lemma {:induction false} OverdrawnRun()
    ensures AfterBars(STOPPED_SETUP, STOPPED_BARS).cash == -10.0
  {
    var bars := STOPPED_BARS;
    assert bars[..0] == [] && bars[..3] == bars;
    AfterOneMore(STOPPED_SETUP, bars, 0);
    AfterOneMore(STOPPED_SETUP, bars, 1);
    AfterOneMore(STOPPED_SETUP, bars, 2);
    StoppedActs(AfterBars(STOPPED_SETUP, bars[..0]));
    StoppedActs(AfterBars(STOPPED_SETUP, bars[..1]));
    StoppedActs(AfterBars(STOPPED_SETUP, bars[..2]));
  }

  // ---------------------------------------------------------------- winning round trips

  predicate Wins(buy: Trade, sale: Trade) {
    sale.notional - sale.fees > buy.notional + buy.fees
  }

  /** Position i closes a profitable round trip opened by the trade just before it. */
  predicate ClosesWin(trades: seq<Trade>, i: int) {
    1 <= i < |trades| && trades[i - 1].side == Buy && trades[i].side == Sell && Wins(trades[i - 1], trades[i])
  }

  /** The scan, which remembers an open purchase, counts the profitable sales that directly follow a purchase. */
  method WinningRoundTrips(trades: seq<Trade>) returns (wins: nat)
    ensures wins == |set i | 0 <= i < |trades| && ClosesWin(trades, i)|
  {
    wins := 0;
    var current: Option<Trade> := None;
    ghost var closed: set<int> := {};
    for i := 0 to |trades|
      invariant closed == set j | 0 <= j < i && ClosesWin(trades, j)
      invariant wins == |closed|
      invariant current == if i > 0 && trades[i - 1].side == Buy then Some(trades[i - 1]) else None
    {
      var trade := trades[i];
      if trade.side == Buy {
        current := Some(trade);
      } else if current.Some? {
        if Wins(current.value, trade) {
          wins := wins + 1;
          closed := closed + {i};
        }
        current := None;
      }
    }
  }
}
