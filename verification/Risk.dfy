/** The pre-trade risk engine: a chain of checks in which the first violation wins. */
module Risk {
  import opened Arith
  import opened Core
  import opened Limiter
  import opened Breaker
  import opened Ledger
  import opened Orders

  datatype RiskLimits = RiskLimits(
    maxContractsPerOrder: int,
    maxContractsPerSymbol: int,
    maxPositionNotional: real,
    rate: Limits,
    maxGrossLeverage: real
  )

  datatype MarginRequirement = MarginRequirement(initial: real, maintenance: real)

  datatype MarginRules = MarginRules(
    schedule: map<Symbol, MarginRequirement>,
    initialBufferPct: real,
    maintenanceBufferPct: real
  )

  datatype Verdict =
    | Approved
    | CircuitBreakerHalted | InvalidQuantity | FatFingerOrderSize | OrderRateLimit | PositionLimitBreach
    | NoReferencePrice | NotionalLimitBreach | NoEquity | LeverageLimitBreach | MarginBreach

  /** What the risk engine has last been told, and its rate windows. */
  datatype RiskView = RiskView(
    positions: map<Symbol, int>,
    prices: map<Symbol, real>,
    multipliers: Multipliers,
    windows: RateWindows
  )

  function Known(v: RiskView, s: Symbol): int {
    if s in v.positions then v.positions[s] else 0
  }

  function Projected(v: RiskView, sig: Signal): int {
    Known(v, sig.symbol) + Signed(sig.side, sig.targetQuantity)
  }

  function OrderNotional(v: RiskView, sig: Signal): real
    requires sig.symbol in v.prices
  {
    Abs(sig.targetQuantity) as real * v.prices[sig.symbol] * MultiplierOf(v.multipliers, sig.symbol)
  }

  predicate MarginCovers(rules: MarginRules, v: RiskView, sig: Signal, equity: real) {
    && sig.symbol in rules.schedule
    && var req := rules.schedule[sig.symbol];
       var contracts := Abs(Projected(v, sig)) as real;
       && equity - contracts * req.initial * (1.0 + rules.initialBufferPct / 100.0) >= 0.0
       && equity >= contracts * req.maintenance * (1.0 + rules.maintenanceBufferPct / 100.0)
  }

  predicate SizeAllowed(limits: RiskLimits, sig: Signal) {
    0 < Abs(sig.targetQuantity) <= limits.maxContractsPerOrder
  }

  /** Everything an approved order has been checked against. */
  predicate Permitted(v: RiskView, limits: RiskLimits, rules: MarginRules, halted: bool, sig: Signal,
                      equity: real, gross: real, now: real) {
    && !halted
    && SizeAllowed(limits, sig)
    && HasRoom(Trimmed(v.windows, now), limits.rate)
    && Abs(Projected(v, sig)) <= limits.maxContractsPerSymbol
    && sig.symbol in v.prices && 0.0 < v.prices[sig.symbol]
    && OrderNotional(v, sig) <= limits.maxPositionNotional
    && 0.0 < equity
    && (gross + OrderNotional(v, sig)) / equity <= limits.maxGrossLeverage
    && MarginCovers(rules, v, sig, equity)
  }

  lemma LeverageAsProduct(exposure: real, equity: real, leverage: real)
    requires 0.0 < equity
    ensures exposure / equity <= leverage <==> exposure <= leverage * equity
  {
    ScaleQuotient(exposure, equity);
    assert Scale(leverage, equity) == leverage * equity;
    var ratio := exposure / equity;
    hide Scale;
    if ratio <= leverage {
      ScaleGrows(ratio, leverage, equity);
    } else {
      ScaleGrows(leverage, ratio, equity);
    }
  }

  lemma NotionalIs(v: RiskView, sig: Signal)
    requires sig.symbol in v.prices
    ensures OrderNotional(v, sig)
         == Abs(sig.targetQuantity) as real * v.prices[sig.symbol]
            * (if sig.symbol in v.multipliers then v.multipliers[sig.symbol] else 1.0)
  {
  }

  lemma MarginIgnoresWindows(rules: MarginRules, v: RiskView, w: RiskView, sig: Signal, equity: real)
    requires v.positions == w.positions
    ensures MarginCovers(rules, v, sig, equity) <==> MarginCovers(rules, w, sig, equity)
  {
  }

  lemma MarginCoversIff(rules: MarginRules, v: RiskView, sig: Signal, equity: real)
    ensures MarginCovers(rules, v, sig, equity) <==>
      var s, projected := sig.symbol, Abs(Projected(v, sig)) as real;
      && s in rules.schedule
      && projected * rules.schedule[s].initial * (1.0 + rules.initialBufferPct / 100.0) <= equity
      && projected * rules.schedule[s].maintenance * (1.0 + rules.maintenanceBufferPct / 100.0) <= equity
  {
  }

  /**
   What approval means in money: the order's quantity at the last price and contract size
   is within the notional limit, together with the gross exposure within so many times the
   equity, and the equity covers both margins of the position it would lead to.
   */
  lemma PermittedIff(v: RiskView, limits: RiskLimits, rules: MarginRules, halted: bool, sig: Signal,
                     equity: real, gross: real, now: real)
    ensures Permitted(v, limits, rules, halted, sig, equity, gross, now) <==>
      var s, size := sig.symbol, Abs(sig.targetQuantity);
      var held := if s in v.positions then v.positions[s] else 0;
      var projected := Abs(if sig.side.Buy? then held + sig.targetQuantity else held - sig.targetQuantity);
      var contract := if s in v.multipliers then v.multipliers[s] else 1.0;
      && !halted && 1 <= size <= limits.maxContractsPerOrder
      && HasRoom(Trimmed(v.windows, now), limits.rate)
      && projected <= limits.maxContractsPerSymbol
      && s in v.prices && v.prices[s] > 0.0
      && size as real * v.prices[s] * contract <= limits.maxPositionNotional
      && equity > 0.0
      && gross + size as real * v.prices[s] * contract <= limits.maxGrossLeverage * equity
      && s in rules.schedule
      && projected as real * rules.schedule[s].initial * (1.0 + rules.initialBufferPct / 100.0) <= equity
      && projected as real * rules.schedule[s].maintenance * (1.0 + rules.maintenanceBufferPct / 100.0) <= equity
  {
    hide HasRoom, Trimmed, MarginCovers, OrderNotional;
    MarginCoversIff(rules, v, sig, equity);
    if sig.symbol in v.prices && 0.0 < equity {
      NotionalIs(v, sig);
      LeverageAsProduct(gross + OrderNotional(v, sig), equity, limits.maxGrossLeverage);
    }
  }

  /** What each verdict says: its own check failed, and every check before it passed. */
  ghost predicate Warranted(verdict: Verdict, v: RiskView, limits: RiskLimits, rules: MarginRules, halted: bool,
                            sig: Signal, equity: real, gross: real, now: real)
  {
    var s, size := sig.symbol, Abs(sig.targetQuantity);
    var fits := !halted && 1 <= size <= limits.maxContractsPerOrder && HasRoom(Trimmed(v.windows, now), limits.rate);
    var placed := fits && Abs(Projected(v, sig)) <= limits.maxContractsPerSymbol;
    var priced := placed && s in v.prices && v.prices[s] > 0.0;
    match verdict
    case CircuitBreakerHalted => halted
    case InvalidQuantity => !halted && sig.targetQuantity == 0
    case FatFingerOrderSize => !halted && sig.targetQuantity != 0 && limits.maxContractsPerOrder < size
    case OrderRateLimit => !halted && 1 <= size <= limits.maxContractsPerOrder && !fits
    case PositionLimitBreach => fits && !placed
    case NoReferencePrice => placed && !priced
    case NotionalLimitBreach => priced && OrderNotional(v, sig) > limits.maxPositionNotional
    case NoEquity => priced && OrderNotional(v, sig) <= limits.maxPositionNotional && equity <= 0.0
    case LeverageLimitBreach =>
      && priced && OrderNotional(v, sig) <= limits.maxPositionNotional && equity > 0.0
      && (gross + OrderNotional(v, sig)) / equity > limits.maxGrossLeverage
    case MarginBreach =>
      && priced && OrderNotional(v, sig) <= limits.maxPositionNotional && equity > 0.0
      && (gross + OrderNotional(v, sig)) / equity <= limits.maxGrossLeverage
      && !MarginCovers(rules, v, sig, equity)
    case Approved => Permitted(v, limits, rules, halted, sig, equity, gross, now)
  }

  /** The first violation wins: no check has more than one warranted verdict. */
  lemma OneVerdict(a: Verdict, b: Verdict, v: RiskView, limits: RiskLimits, rules: MarginRules, halted: bool,
                   sig: Signal, equity: real, gross: real, now: real)
    requires Warranted(a, v, limits, rules, halted, sig, equity, gross, now)
    requires Warranted(b, v, limits, rules, halted, sig, equity, gross, now)
    ensures a == b
  {
    hide HasRoom, Trimmed, OrderNotional, Projected, MarginCovers;
  }

  /**
   Once a reading has tripped the breaker, whatever is done to it, no order is permitted
   again before a reset, a reading of another day, or a restored session that is not halted.
   */
  lemma TripRefuses(s: Session, equity: real, date: int, limit: real, cs: seq<Command>, v: RiskView,
                    limits: RiskLimits, rules: MarginRules, sig: Signal, account: real, gross: real, now: real)
    requires Measurable(s, equity, date) && Updated(s, equity, date, limit).1
    ensures
      var tripped := Updated(s, equity, date, limit).0;
      Permitted(v, limits, rules, ObeyedAll(tripped, cs, limit).halted, sig, account, gross, now) ==>
        exists i :: 0 <= i < |cs| && Lifts(ObeyedAll(tripped, cs[..i], limit), cs[i])
  {
    hide HasRoom, Trimmed, MarginCovers, OrderNotional, Projected, Lifts, ObeyedAll;
    var tripped := Updated(s, equity, date, limit).0;
    if !ObeyedAll(tripped, cs, limit).halted {
      HaltHolds(tripped, cs, limit);
    }
  }

  /** The rate limiter is consulted, and may be charged, only by orders of allowed size. */
  function WindowsAfterCheck(v: RiskView, limits: RiskLimits, halted: bool, sig: Signal, now: real): RateWindows {
    if halted || !SizeAllowed(limits, sig) then v.windows else Attempt(v.windows, now, limits.rate)
  }

  class RiskEngine {
    const limits: RiskLimits
    const margin: MarginRules
    const breaker: DrawdownCircuitBreaker
    const limiter: TokenRateLimiter
    var positions: map<Symbol, int>
    var prices: map<Symbol, real>
    var multipliers: Multipliers

    function View(): RiskView
      reads this, limiter
    {
      RiskView(positions, prices, multipliers, limiter.View())
    }

    constructor (limits: RiskLimits, margin: MarginRules, breaker: DrawdownCircuitBreaker)
      ensures this.limits == limits && this.margin == margin && this.breaker == breaker
      ensures fresh(limiter) && limiter.limits == limits.rate
      ensures View() == RiskView(map[], map[], map[], RateWindows([], []))
    {
      this.limits, this.margin, this.breaker := limits, margin, breaker;
      limiter := new TokenRateLimiter(limits.rate);
      positions, prices, multipliers := map[], map[], map[];
    }

    method UpdateMarketState(s: Symbol, price: real, multiplier: real)
      modifies this`prices, this`multipliers
      ensures View() == old(View()).(prices := old(prices)[s := price],
                                     multipliers := old(multipliers)[s := multiplier])
    {
      prices := prices[s := price];
      multipliers := multipliers[s := multiplier];
    }

    method UpdatePositions(current: map<Symbol, int>)
      modifies this`positions
      ensures View() == old(View()).(positions := old(positions) + current)
    {
      positions := positions + current;
    }

    method CheckOrder(sig: Signal, equity: real, gross: real, now: real) returns (verdict: Verdict)
      requires limiter.limits == limits.rate
      modifies limiter
      ensures verdict == Approved <==>
        Permitted(old(View()), limits, margin, breaker.halted, sig, equity, gross, now)
      ensures verdict == CircuitBreakerHalted <==> breaker.halted
      ensures Warranted(verdict, old(View()), limits, margin, breaker.halted, sig, equity, gross, now)
      ensures limiter.View() ==
        if verdict in {CircuitBreakerHalted, InvalidQuantity, FatFingerOrderSize} then old(limiter.View())
        else Attempt(old(limiter.View()), now, limits.rate)
      ensures View() == old(View()).(windows := WindowsAfterCheck(old(View()), limits, breaker.halted, sig, now))
    {
      hide HasRoom, Trimmed, MarginCovers, Attempt, MultiplierOf;
      if breaker.halted {
        return CircuitBreakerHalted;
      }
      var qty := Abs(sig.targetQuantity);
      if qty <= 0 {
        return InvalidQuantity;
      }
      if qty > limits.maxContractsPerOrder {
        return FatFingerOrderSize;
      }
      var ok := limiter.TryAcquire(now);
      if !ok {
        return OrderRateLimit;
      }
      var current := if sig.symbol in positions then positions[sig.symbol] else 0;
      var signedQty := Signed(sig.side, sig.targetQuantity);
      if Abs(current + signedQty) > limits.maxContractsPerSymbol {
        return PositionLimitBreach;
      }
      if sig.symbol !in prices || prices[sig.symbol] <= 0.0 {
        return NoReferencePrice;
      }
      var notional := qty as real * prices[sig.symbol] * MultiplierOf(multipliers, sig.symbol);
      if notional > limits.maxPositionNotional {
        return NotionalLimitBreach;
      }
      if equity <= 0.0 {
        return NoEquity;
      }
      if (gross + notional) / equity > limits.maxGrossLeverage {
        return LeverageLimitBreach;
      }
      MarginIgnoresWindows(margin, old(View()), View(), sig, equity);
      if !MarginCovers(margin, View(), sig, equity) {
        return MarginBreach;
      }
      return Approved;
    }
  }
}
