/**
 The scanner's entry gate: how many positions may be open or on their way, when
 the handling of a bar pauses for the equity lookup and polls, fills and closes
 happen meanwhile.
 */
module Gate {
  import opened Core
  import opened Arith

  const PENDING_ENTRY_TTL := 10.0

  /** Whole lots whose notional does not exceed the order's. */
  function ComputeLots(notional: real, price: real, stepSize: real): int {
    if price <= 0.0 || stepSize <= 0.0 then 0 else (notional / (price * stepSize)).Floor
  }

  function Notional(lots: int, price: real, stepSize: real): real {
    Scale(lots as real, price * stepSize)
  }

  /** The most lots whose notional stays within the order's. */
  lemma LotsFitNotional(notional: real, price: real, stepSize: real)
    requires 0.0 < price && 0.0 < stepSize
    ensures
      var lots := ComputeLots(notional, price, stepSize);
      Notional(lots, price, stepSize) <= notional < Notional(lots + 1, price, stepSize)
  {
    ProductSign(price, stepSize);
    WholeUnits(notional, price * stepSize);
  }

  lemma WholeUnits(x: real, unit: real)
    requires 0.0 < unit
    ensures Scale((x / unit).Floor as real, unit) <= x < Scale(((x / unit).Floor + 1) as real, unit)
  {
    hide Scale;
    var q := x / unit;
    ScaleQuotient(x, unit);
    ScaleGrows(q.Floor as real, q, unit);
    ScaleGrows(q, (q.Floor + 1) as real, unit);
  }

  function Pruned(pending: map<Symbol, real>, open: set<Symbol>, now: real): map<Symbol, real> {
    map s | s in pending && s !in open && now - pending[s] <= PENDING_ENTRY_TTL :: pending[s]
  }

  predicate Admits(pending: map<Symbol, real>, open: set<Symbol>, s: Symbol, maxOpen: nat) {
    s !in open + pending.Keys && |open + pending.Keys| < maxOpen
  }

  /** The strategy; `on_bar` is split where it awaits the account equity. */
  class FundingMomentumScanner {
    const maxOpenPositions: nat
    var pendingEntries: map<Symbol, real>

    constructor (maxOpenPositions: nat)
      ensures this.maxOpenPositions == maxOpenPositions && pendingEntries == map[]
    {
      this.maxOpenPositions := maxOpenPositions;
      pendingEntries := map[];
    }

    method PrunePendingEntries(open: set<Symbol>, now: real)
      modifies this
      ensures pendingEntries == Pruned(old(pendingEntries), open, now)
      ensures forall s :: s in pendingEntries <==>
        s in old(pendingEntries) && s !in open && now - old(pendingEntries)[s] <= 10.0
      ensures forall s :: s in pendingEntries ==> pendingEntries[s] == old(pendingEntries)[s]
    {
      var confirmedOrStale :=
        set s | s in pendingEntries && (s in open || now - pendingEntries[s] > PENDING_ENTRY_TTL);
      pendingEntries := pendingEntries - confirmedOrStale;
    }

    /** Up to the await: prunes, then admits or drops the symbol. */
    method OnBar(s: Symbol, open: set<Symbol>, now: real, setup: bool) returns (awaiting: bool)
      modifies this
      ensures pendingEntries == Pruned(old(pendingEntries), open, now)
      ensures awaiting <==> setup && Admits(pendingEntries, open, s, maxOpenPositions)
      ensures awaiting <==>
        setup && s !in open && s !in pendingEntries && |open + pendingEntries.Keys| < maxOpenPositions
    {
      PrunePendingEntries(open, now);
      var openSymbols := open + pendingEntries.Keys;
      if s in openSymbols {
        return false;
      }
      if |openSymbols| >= maxOpenPositions {
        return false;
      }
      awaiting := setup;
    }

    /** After the await: a positive number of lots becomes a pending entry. */
    method OnEquity(s: Symbol, now: real, lots: int) returns (emitted: bool)
      modifies this
      ensures emitted <==> 0 < lots
      ensures pendingEntries == if emitted then old(pendingEntries)[s := now] else old(pendingEntries)
    {
      if lots <= 0 {
        return false;
      }
      pendingEntries := pendingEntries[s := now];
      emitted := true;
    }
  }

  // ---- The gate, the monitor and the exchange together ----

  /**
   `held` is what the exchange holds, `open` what the monitor last saw, `sent` the
   entry orders that may still fill, `awaiting` the bar whose handler is paused,
   `clock` the time at which the strategy last looked.
   */
  datatype World = World(
    held: set<Symbol>,
    open: set<Symbol>,
    pending: map<Symbol, real>,
    sent: set<Symbol>,
    awaiting: Option<Symbol>,
    clock: real
  )

  datatype Step =
    | BarArrives(symbol: Symbol, now: real, setup: bool)
    | EquityArrives(now: real, lots: int)
    | EntryFills(symbol: Symbol)
    | EntryDies(symbol: Symbol)
    | PositionCloses(symbol: Symbol)
    | PollCompletes

  function Start(clock: real): World {
    World({}, {}, map[], {}, None, clock)
  }

  /**
   The bus hands out one bar at a time and the clock never goes back; only orders that
   were sent can fill, or die: refused by the risk engine or the exchange, which the
   strategy is not told.
   */
  predicate Possible(w: World, st: Step) {
    match st
    case BarArrives(_, now, _) => w.awaiting.None? && w.clock <= now
    case EquityArrives(now, _) => w.awaiting.Some? && w.clock <= now
    case EntryFills(s) => s in w.sent
    case EntryDies(s) => s in w.sent
    case PositionCloses(s) => s in w.held
    case PollCompletes => true
  }

  function Next(w: World, st: Step, maxOpen: nat): World
    requires Possible(w, st)
  {
    match st
    case BarArrives(s, now, setup) =>
      var pending := Pruned(w.pending, w.open, now);
      w.(pending := pending, clock := now,
         awaiting := if setup && Admits(pending, w.open, s, maxOpen) then Some(s) else None)
    case EquityArrives(now, lots) =>
      var s := w.awaiting.value;
      if 0 < lots
      then w.(pending := w.pending[s := now], sent := w.sent + {s}, awaiting := None, clock := now)
      else w.(awaiting := None, clock := now)
    case EntryFills(s) => w.(held := w.held + {s}, sent := w.sent - {s})
    case EntryDies(s) => w.(sent := w.sent - {s})
    case PositionCloses(s) => w.(held := w.held - {s})
    case PollCompletes => w.(open := w.held)
  }

  /** Symbols that are or may soon become positions, as the gate counts them. */
  function Claimed(w: World): set<Symbol> {
    w.open + w.pending.Keys + (if w.awaiting.Some? then {w.awaiting.value} else {})
  }

  /** Positions and live orders of entries are all still counted by the gate. */
  predicate Counted(w: World) {
    && w.held <= w.open + w.pending.Keys
    && w.sent <= w.pending.Keys
    && w.sent !! w.held + w.open
  }

  predicate Sound(w: World, maxOpen: nat) {
    && Counted(w)
    && |Claimed(w)| <= maxOpen
    && (w.awaiting.Some? ==> w.awaiting.value !in w.open + w.pending.Keys)
  }

  /** A bar whose pruning forgets an entry that has filled unseen or may still fill. */
  predicate DropsLiveEntry(w: World, st: Step) {
    st.BarArrives? && exists s :: s in w.held + w.sent && s !in w.open
                                  && s in w.pending && st.now - w.pending[s] > PENDING_ENTRY_TTL
  }

  lemma {:induction false} SubsetSize<T>(a: set<T>, b: set<T>)
    requires a <= b
    ensures |a| <= |b|
  {
    if a != {} {
      var x :| x in a;
      SubsetSize(a - {x}, b - {x});
    }
  }

  /** Claims only ever grow by the symbol a bar was admitted for. */
  lemma StepKeepsCap(w: World, st: Step, maxOpen: nat)
    requires Possible(w, st) && Sound(w, maxOpen)
    ensures |Claimed(Next(w, st, maxOpen))| <= maxOpen
  {
    var v := Next(w, st, maxOpen);
    if st.BarArrives? {
      if v.awaiting.Some? {
        assert Claimed(v) == v.open + v.pending.Keys + {st.symbol};
      } else {
        assert Claimed(v) <= w.open + w.pending.Keys <= Claimed(w);
        SubsetSize(Claimed(v), Claimed(w));
      }
    } else {
      ClaimsShrink(w, st, maxOpen);
      SubsetSize(Claimed(v), Claimed(w));
    }
  }

  lemma ClaimsShrink(w: World, st: Step, maxOpen: nat)
    requires Possible(w, st) && Counted(w) && !st.BarArrives?
    ensures Claimed(Next(w, st, maxOpen)) <= Claimed(w)
  {
  }

  lemma StepKeepsCount(w: World, st: Step, maxOpen: nat)
    requires Possible(w, st) && Sound(w, maxOpen)
    ensures Counted(Next(w, st, maxOpen)) <==> !DropsLiveEntry(w, st)
  {
    if st.BarArrives? {
      BarKeepsCount(w, st, maxOpen);
    } else {
      OthersKeepCount(w, st, maxOpen);
    }
  }

  lemma OthersKeepCount(w: World, st: Step, maxOpen: nat)
    requires Possible(w, st) && Sound(w, maxOpen) && !st.BarArrives?
    ensures Counted(Next(w, st, maxOpen))
  {
    hide Pruned, Admits;
  }

  lemma BarKeepsCount(w: World, st: Step, maxOpen: nat)
    requires Possible(w, st) && Sound(w, maxOpen) && st.BarArrives?
    ensures Counted(Next(w, st, maxOpen)) <==> !DropsLiveEntry(w, st)
  {
    hide Admits;
    var v := Next(w, st, maxOpen);
    if DropsLiveEntry(w, st) {
      var s :| s in w.held + w.sent && s !in w.open && s in w.pending && st.now - w.pending[s] > PENDING_ENTRY_TTL;
      assert s !in v.open + v.pending.Keys;
    } else {
      forall s | s in w.held + w.sent && s !in w.open ensures s in v.pending {
        assert s in w.pending;
      }
    }
  }

  predicate Run(ws: seq<World>, steps: seq<Step>, maxOpen: nat) {
    && |ws| == |steps| + 1 && ws[0] == Start(ws[0].clock)
    && forall i :: 0 <= i < |steps| ==> Possible(ws[i], steps[i]) && ws[i + 1] == Next(ws[i], steps[i], maxOpen)
  }

  lemma {:induction false} SoundUpTo(ws: seq<World>, steps: seq<Step>, maxOpen: nat, i: nat)
    requires Run(ws, steps, maxOpen) && i < |ws|
    requires forall j :: 0 <= j < i ==> !DropsLiveEntry(ws[j], steps[j])
    ensures Sound(ws[i], maxOpen)
  {
    if i > 0 {
      SoundUpTo(ws, steps, maxOpen, i - 1);
      StepKeepsCap(ws[i - 1], steps[i - 1], maxOpen);
      StepKeepsCount(ws[i - 1], steps[i - 1], maxOpen);
    }
  }

  /**
   Over every interleaving of bars, lookups, fills, refusals, closes and polls, the gate
   keeps counting everything that is or may become a position if and only if no
   bar prunes a live entry.
   */
  lemma GateCountsIff(ws: seq<World>, steps: seq<Step>, maxOpen: nat)
    requires Run(ws, steps, maxOpen)
    ensures (forall i :: 0 <= i < |ws| ==> Sound(ws[i], maxOpen))
            <==> forall i :: 0 <= i < |steps| ==> !DropsLiveEntry(ws[i], steps[i])
  {
    if forall i :: 0 <= i < |steps| ==> !DropsLiveEntry(ws[i], steps[i]) {
      forall i | 0 <= i < |ws| ensures Sound(ws[i], maxOpen) {
        SoundUpTo(ws, steps, maxOpen, i);
      }
    } else {
      var i :| 0 <= i < |steps| && DropsLiveEntry(ws[i], steps[i]);
      if Sound(ws[i], maxOpen) {
        StepKeepsCount(ws[i], steps[i], maxOpen);
        assert !Sound(ws[i + 1], maxOpen);
      }
    }
  }

  /** What a sound state means: the cap covers the exchange, and entries are new. */
  lemma CapCoversExchange(w: World, maxOpen: nat)
    requires Sound(w, maxOpen)
    ensures |w.held + w.sent + w.open + w.pending.Keys| <= maxOpen
    ensures w.awaiting.Some? ==> w.awaiting.value !in w.held + w.sent + w.open + w.pending.Keys
  {
    SubsetSize(w.held + w.sent + w.open + w.pending.Keys, Claimed(w));
  }

  /** A bar that admits its symbol, and an equity that buys a lot. */
  lemma Entry(w: World, s: Symbol, now: real, pending: map<Symbol, real>)
    requires w.awaiting.None? && w.open == {} && w.clock <= now
    requires Pruned(w.pending, {}, now) == pending && pending == map[]
    ensures
      var arrived := Next(w, BarArrives(s, now, true), 1);
      && Possible(arrived, EquityArrives(now, 1))
      && Next(arrived, EquityArrives(now, 1), 1) == World(w.held, {}, map[s := now], w.sent + {s}, None, now)
  {
    assert {} + pending.Keys == {};
    assert Admits(pending, {}, s, 1);
  }

  lemma OneFills(w: World, s: Symbol)
    requires s in w.sent
    ensures Possible(w, EntryFills(s))
    ensures Next(w, EntryFills(s), 1) == w.(held := w.held + {s}, sent := w.sent - {s})
  {
  }

  lemma SlowFill() returns (ws: seq<World>, steps: seq<Step>)
    ensures Run(ws, steps, 1) && ws[|steps|].held == {0, 1}
  {
    hide Next, Admits;
    steps := [BarArrives(0, 0.0, true), EquityArrives(0.0, 1), BarArrives(1, 11.0, true), EquityArrives(11.0, 1),
              EntryFills(0), EntryFills(1)];
    Entry(Start(0.0), 0, 0.0, map[]);
    var w2 := World({}, {}, map[0 := 0.0], {0}, None, 0.0);
    Entry(w2, 1, 11.0, map[]);
    var w4 := World({}, {}, map[1 := 11.0], {0, 1}, None, 11.0);
    var w5 := World({0}, {}, map[1 := 11.0], {1}, None, 11.0);
    var w6 := World({0, 1}, {}, map[1 := 11.0], {}, None, 11.0);
    assert w2.sent + {1} == {0, 1} && {0} + {1} == {0, 1} && {0, 1} - {0} == {1};
    OneFills(w4, 0);
    OneFills(w5, 1);
    ws := [Start(0.0), Next(Start(0.0), steps[0], 1), w2, Next(w2, steps[2], 1), w4, w5, w6];
  }

  /**
   An entry that is neither filled nor polled within ten seconds is forgotten: with
   a maximum of one, the exchange ends up holding two positions.
   */
  lemma SlowFillBreaksCap()
    ensures exists ws: seq<World>, steps: seq<Step> :: Run(ws, steps, 1) && |ws[|steps|].held| == 2
  {
    var ws, steps := SlowFill();
    assert |ws[|steps|].held| == 2;
  }

  // ---- What one dropped entry leads to ----

  /** The steps can be taken one after another, none of them dropping a live entry. */
  predicate Quietly(w: World, steps: seq<Step>, maxOpen: nat)
    decreases |steps|
  {
    steps == [] ||
    (Possible(w, steps[0]) && !DropsLiveEntry(w, steps[0]) && Quietly(Next(w, steps[0], maxOpen), steps[1..], maxOpen))
  }

  function Ended(w: World, steps: seq<Step>, maxOpen: nat): World
    requires Quietly(w, steps, maxOpen)
    decreases |steps|
  {
    if steps == [] then w else Ended(Next(w, steps[0], maxOpen), steps[1..], maxOpen)
  }

  /** `v` can be reached from `w`, time moving on, without dropping another live entry. */
  ghost predicate Leads(w: World, v: World, maxOpen: nat) {
    exists steps :: Quietly(w, steps, maxOpen) && Ended(w, steps, maxOpen) == v
  }

  lemma {:induction false} QuietlyOn(w: World, first: seq<Step>, then_: seq<Step>, maxOpen: nat)
    requires Quietly(w, first, maxOpen) && Quietly(Ended(w, first, maxOpen), then_, maxOpen)
    ensures Quietly(w, first + then_, maxOpen)
    ensures Ended(w, first + then_, maxOpen) == Ended(Ended(w, first, maxOpen), then_, maxOpen)
    decreases |first|
  {
    if first == [] {
      assert first + then_ == then_;
    } else {
      assert (first + then_)[1..] == first[1..] + then_;
      QuietlyOn(Next(w, first[0], maxOpen), first[1..], then_, maxOpen);
    }
  }

  lemma LeadsOn(u: World, v: World, w: World, maxOpen: nat)
    requires Leads(u, v, maxOpen) && Leads(v, w, maxOpen)
    ensures Leads(u, w, maxOpen)
  {
    var first :| Quietly(u, first, maxOpen) && Ended(u, first, maxOpen) == v;
    var then_ :| Quietly(v, then_, maxOpen) && Ended(v, then_, maxOpen) == w;
    QuietlyOn(u, first, then_, maxOpen);
  }

  lemma LeadsByStep(w: World, st: Step, maxOpen: nat)
    requires Possible(w, st) && !DropsLiveEntry(w, st)
    ensures Leads(w, Next(w, st, maxOpen), maxOpen)
  {
    var v := Next(w, st, maxOpen);
    assert [st][1..] == [];
    assert Quietly(v, [], maxOpen) && Ended(v, [], maxOpen) == v;
    assert Quietly(w, [st], maxOpen) && Ended(w, [st], maxOpen) == v;
  }

  lemma LeadsNowhere(w: World, maxOpen: nat)
    ensures Leads(w, w, maxOpen)
  {
    assert Quietly(w, [], maxOpen) && Ended(w, [], maxOpen) == w;
  }

  lemma LeadsOneMore(u: World, v: World, st: Step, maxOpen: nat)
    requires Leads(u, v, maxOpen) && Possible(v, st) && !DropsLiveEntry(v, st)
    ensures Leads(u, Next(v, st, maxOpen), maxOpen)
  {
    LeadsByStep(v, st, maxOpen);
    LeadsOn(u, v, Next(v, st, maxOpen), maxOpen);
  }

  /** An order for `s` may still fill, and nothing at the gate counts it. */
  predicate Loose(w: World, s: Symbol) {
    w.awaiting.None? && s in w.sent && s !in w.held + w.open + w.pending.Keys
  }

  /** Every other position closes, ... */
  lemma {:induction false} CloseAll(w: World, maxOpen: nat)
    ensures Leads(w, w.(held := {}), maxOpen)
    decreases |w.held|
  {
    if w.held == {} {
      LeadsNowhere(w, maxOpen);
    } else {
      var s :| s in w.held;
      LeadsByStep(w, PositionCloses(s), maxOpen);
      CloseAll(w.(held := w.held - {s}), maxOpen);
      LeadsOn(w, w.(held := w.held - {s}), w.(held := {}), maxOpen);
    }
  }

  /** ... every other entry is refused, ... */
  lemma {:induction false} RefuseAllBut(w: World, s: Symbol, maxOpen: nat)
    requires s in w.sent
    ensures Leads(w, w.(sent := {s}), maxOpen)
    decreases |w.sent|
  {
    if w.sent == {s} {
      LeadsNowhere(w, maxOpen);
    } else {
      var t :| t in w.sent && t != s;
      LeadsByStep(w, EntryDies(t), maxOpen);
      RefuseAllBut(w.(sent := w.sent - {t}), s, maxOpen);
      LeadsOn(w, w.(sent := w.sent - {t}), w.(sent := {s}), maxOpen);
    }
  }

  lemma {:induction false} LatestTime(pending: map<Symbol, real>) returns (latest: real)
    ensures forall s :: s in pending ==> pending[s] <= latest
    decreases |pending|
  {
    if pending == map[] {
      latest := 0.0;
    } else {
      var s :| s in pending;
      var others := pending - {s};
      latest := LatestTime(others);
      assert forall t :: t in pending && t != s ==> t in others;
      latest := MaxR(latest, pending[s]);
    }
  }

  /** The exchange holds nothing, and one loose order may still fill. */
  function Bare(s: Symbol, clock: real): World {
    World({}, {}, map[], {s}, None, clock)
  }

  /** ... a poll sees nothing open, and the pending entries grow stale. */
  lemma Emptied(w: World, s: Symbol, maxOpen: nat) returns (late: real)
    requires Loose(w, s)
    ensures Leads(w, Bare(s, late), maxOpen)
  {
    var closed := w.(held := {});
    CloseAll(w, maxOpen);
    var refused := closed.(sent := {s});
    RefuseAllBut(closed, s, maxOpen);
    LeadsOn(w, closed, refused, maxOpen);
    LeadsOneMore(w, refused, PollCompletes, maxOpen);
    var polled := Next(refused, PollCompletes, maxOpen);
    var latest := LatestTime(polled.pending);
    late := MaxR(latest, w.clock) + 11.0;
    assert Pruned(polled.pending, {}, late) == map[];
    LeadsOneMore(w, polled, BarArrives(s, late, false), maxOpen);
    assert Next(polled, BarArrives(s, late, false), maxOpen) == Bare(s, late);
  }

  /** `n` symbols above `s`, entered at one time and filled unseen. */
  function Crowd(s: Symbol, n: nat, at: real): World {
    World(Above(s, n), {}, map t | t in Above(s, n) :: at, {s}, None, at)
  }

  function Above(s: Symbol, n: nat): set<Symbol> {
    if n == 0 then {} else Above(s, n - 1) + {s + n}
  }

  lemma {:induction false} AboveSize(s: Symbol, n: nat)
    ensures |Above(s, n)| == n
    ensures forall t :: t in Above(s, n) ==> s < t <= s + n
  {
    if n > 0 {
      AboveSize(s, n - 1);
    }
  }

  lemma CrowdAdmits(s: Symbol, n: nat, at: real, maxOpen: nat)
    requires n < maxOpen
    ensures Possible(Crowd(s, n, at), BarArrives(s + n + 1, at, true))
    ensures !DropsLiveEntry(Crowd(s, n, at), BarArrives(s + n + 1, at, true))
    ensures Next(Crowd(s, n, at), BarArrives(s + n + 1, at, true), maxOpen)
         == Crowd(s, n, at).(awaiting := Some(s + n + 1))
  {
    var w := Crowd(s, n, at);
    AboveSize(s, n);
    assert w.pending.Keys == Above(s, n) && Pruned(w.pending, {}, at) == w.pending;
    assert {} + w.pending.Keys == Above(s, n);
  }

  lemma CrowdGrows(s: Symbol, n: nat, at: real)
    ensures
      var w, t := Crowd(s, n, at), s + n + 1;
      Crowd(s, n + 1, at) == World(w.held + {t}, {}, w.pending[t := at], {s}, None, at)
  {
  }

  /** The steps by which one more symbol joins the crowd. */
  lemma CrowdSteps(s: Symbol, n: nat, at: real, maxOpen: nat)
    requires n < maxOpen
    ensures
      var w, t := Crowd(s, n, at), s + n + 1;
      var arrived := w.(awaiting := Some(t));
      var entered := w.(pending := w.pending[t := at], sent := {s, t});
      && Possible(arrived, EquityArrives(at, 1)) && Next(arrived, EquityArrives(at, 1), maxOpen) == entered
      && Possible(entered, EntryFills(t)) && Next(entered, EntryFills(t), maxOpen) == Crowd(s, n + 1, at)
  {
    hide Above;
    CrowdGrows(s, n, at);
    assert {s} + {s + n + 1} == {s, s + n + 1} && {s, s + n + 1} - {s + n + 1} == {s};
  }

  lemma OneMoreJoins(s: Symbol, n: nat, at: real, maxOpen: nat)
    requires n < maxOpen
    ensures Leads(Crowd(s, n, at), Crowd(s, n + 1, at), maxOpen)
  {
    hide Leads, Crowd, Next, Admits;
    var w, t := Crowd(s, n, at), s + n + 1;
    CrowdAdmits(s, n, at, maxOpen);
    CrowdSteps(s, n, at, maxOpen);
    LeadsByStep(w, BarArrives(t, at, true), maxOpen);
    LeadsOneMore(w, w.(awaiting := Some(t)), EquityArrives(at, 1), maxOpen);
    LeadsOneMore(w, w.(pending := w.pending[t := at], sent := {s, t}), EntryFills(t), maxOpen);
  }

  lemma {:induction false} CrowdGathers(s: Symbol, n: nat, at: real, maxOpen: nat)
    requires n <= maxOpen
    ensures Leads(Crowd(s, 0, at), Crowd(s, n, at), maxOpen)
  {
    hide Leads, Crowd;
    if n == 0 {
      LeadsNowhere(Crowd(s, 0, at), maxOpen);
    } else {
      CrowdGathers(s, n - 1, at, maxOpen);
      OneMoreJoins(s, n - 1, at, maxOpen);
      LeadsOn(Crowd(s, 0, at), Crowd(s, n - 1, at), Crowd(s, n, at), maxOpen);
    }
  }

  /** The exchange can come to hold more than the maximum. */
  ghost predicate CanOvershoot(w: World, maxOpen: nat) {
    exists v :: Leads(w, v, maxOpen) && maxOpen < |v.held|
  }

  /** A loose order takes the exchange one over the maximum once the gate has filled up. */
  lemma LooseOvershoots(w: World, s: Symbol, maxOpen: nat)
    requires Loose(w, s)
    ensures CanOvershoot(w, maxOpen)
  {
    var late := Emptied(w, s, maxOpen);
    var full := Crowd(s, maxOpen, late);
    assert Above(s, 0) == {} && Crowd(s, 0, late) == Bare(s, late);
    CrowdGathers(s, maxOpen, late, maxOpen);
    LeadsOn(w, Crowd(s, 0, late), full, maxOpen);
    LeadsOneMore(w, full, EntryFills(s), maxOpen);
    AboveSize(s, maxOpen);
    assert Next(full, EntryFills(s), maxOpen).held == Above(s, maxOpen) + {s};
  }

  /** Just after `w` dropped a live entry and finished with the bar. */
  function Settled(w: World, now: real): World {
    w.(pending := Pruned(w.pending, w.open, now), awaiting := None, clock := now)
  }

  lemma LeadsToSettled(w: World, st: Step, maxOpen: nat)
    requires Possible(w, st) && st.BarArrives?
    ensures Leads(Next(w, st, maxOpen), Settled(w, st.now), maxOpen)
  {
    var v := Next(w, st, maxOpen);
    if v.awaiting.Some? {
      LeadsByStep(v, EquityArrives(st.now, 0), maxOpen);
      assert Next(v, EquityArrives(st.now, 0), maxOpen) == Settled(w, st.now);
    } else {
      LeadsNowhere(v, maxOpen);
    }
  }

  lemma PruneTwice(pending: map<Symbol, real>, open: set<Symbol>, now: real)
    ensures Pruned(Pruned(pending, open, now), open, now) == Pruned(pending, open, now)
  {
  }

  /** A forgotten entry leaves room for one more at the gate, and its own symbol is welcome. */
  lemma ForgottenIsAdmitted(w: World, s: Symbol, now: real, maxOpen: nat)
    requires Sound(w, maxOpen) && s in w.pending && s !in w.open && now - w.pending[s] > PENDING_ENTRY_TTL
    ensures Admits(Settled(w, now).pending, w.open, s, maxOpen)
  {
    var pending := Pruned(w.pending, w.open, now);
    var before := w.open + w.pending.Keys;
    assert w.open + pending.Keys <= before - {s};
    SubsetSize(w.open + pending.Keys, before - {s});
    SubsetSize(before, Claimed(w));
  }

  /** An entry that filled unseen is entered again; a poll then confirms it twice over. */
  lemma EnteredAgain(v: World, s: Symbol, now: real, maxOpen: nat) returns (u: World)
    requires v.awaiting.None? && v.clock == now && Pruned(v.pending, v.open, now) == v.pending
    requires s in v.held && s !in v.open && Admits(v.pending, v.open, s, maxOpen)
    ensures Leads(v, u, maxOpen) && Loose(u, s)
  {
    hide Leads;
    var arrived := v.(awaiting := Some(s));
    LeadsByStep(v, BarArrives(s, now, true), maxOpen);
    var entered := v.(pending := v.pending[s := now], sent := v.sent + {s});
    LeadsOneMore(v, arrived, EquityArrives(now, 1), maxOpen);
    var polled := entered.(open := v.held);
    LeadsOneMore(v, entered, PollCompletes, maxOpen);
    var confirmed := Next(polled, BarArrives(s, now, false), maxOpen);
    LeadsOneMore(v, polled, BarArrives(s, now, false), maxOpen);
    var closed := confirmed.(held := v.held - {s});
    LeadsOneMore(v, confirmed, PositionCloses(s), maxOpen);
    u := closed.(open := closed.held);
    LeadsOneMore(v, closed, PollCompletes, maxOpen);
  }

  /** Dropping a live entry can take the exchange over the maximum, with nothing else going wrong. */
  lemma DropOvershoots(w: World, st: Step, maxOpen: nat)
    requires Possible(w, st) && Sound(w, maxOpen) && DropsLiveEntry(w, st)
    ensures CanOvershoot(Next(w, st, maxOpen), maxOpen)
  {
    var v, settled := Next(w, st, maxOpen), Settled(w, st.now);
    LeadsToSettled(w, st, maxOpen);
    var s :| s in w.held + w.sent && s !in w.open && s in w.pending && st.now - w.pending[s] > PENDING_ENTRY_TTL;
    var u := settled;
    if s !in w.sent {
      ForgottenIsAdmitted(w, s, st.now, maxOpen);
      PruneTwice(w.pending, w.open, st.now);
      u := EnteredAgain(settled, s, st.now, maxOpen);
      LeadsOn(v, settled, u, maxOpen);
    }
    LooseOvershoots(u, s, maxOpen);
    var x :| Leads(u, x, maxOpen) && maxOpen < |x.held|;
    LeadsOn(v, u, x, maxOpen);
  }

  lemma {:induction false} QuietStaysSound(w: World, steps: seq<Step>, maxOpen: nat)
    requires Sound(w, maxOpen) && Quietly(w, steps, maxOpen)
    ensures Sound(Ended(w, steps, maxOpen), maxOpen)
    decreases |steps|
  {
    if steps != [] {
      StepKeepsCap(w, steps[0], maxOpen);
      StepKeepsCount(w, steps[0], maxOpen);
      QuietStaysSound(Next(w, steps[0], maxOpen), steps[1..], maxOpen);
    }
  }

  lemma SoundNeverOvershoots(w: World, maxOpen: nat)
    requires Sound(w, maxOpen)
    ensures !CanOvershoot(w, maxOpen)
  {
    if CanOvershoot(w, maxOpen) {
      var v :| Leads(w, v, maxOpen) && maxOpen < |v.held|;
      var steps :| Quietly(w, steps, maxOpen) && Ended(w, steps, maxOpen) == v;
      QuietStaysSound(w, steps, maxOpen);
      CapCoversExchange(v, maxOpen);
      SubsetSize(v.held, v.held + v.sent + v.open + v.pending.Keys);
    }
  }

  /**
   Exactly when the cap is lost: after any step of a run in which no live entry was
   dropped before, the exchange can come to hold more than the maximum without another
   one being dropped if and only if that very step drops one.
   */
  lemma CapLostIff(ws: seq<World>, steps: seq<Step>, maxOpen: nat, i: nat)
    requires Run(ws, steps, maxOpen) && i < |steps|
    requires forall j :: 0 <= j < i ==> !DropsLiveEntry(ws[j], steps[j])
    ensures CanOvershoot(ws[i + 1], maxOpen) <==> DropsLiveEntry(ws[i], steps[i])
  {
    SoundUpTo(ws, steps, maxOpen, i);
    hide Sound, CanOvershoot, DropsLiveEntry;
    if DropsLiveEntry(ws[i], steps[i]) {
      DropOvershoots(ws[i], steps[i], maxOpen);
    } else {
      SoundUpTo(ws, steps, maxOpen, i + 1);
      SoundNeverOvershoots(ws[i + 1], maxOpen);
    }
  }
}
