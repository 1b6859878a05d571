/** The daily drawdown circuit breaker, and what a session of updates means. */
module Breaker {
  import opened Core

  datatype Reason = NoReason | Drawdown(pct: real, equity: real, start: real, peak: real) | Forced(text: string)

  datatype Session = Session(
    date: int,
    startingEquity: real,
    peakEquity: real,
    halted: bool,
    reason: Reason,
    autoResetPending: bool
  )

  predicate Solvent(s: Session) {
    0.0 < s.startingEquity <= s.peakEquity
  }

  predicate IsLimit(limit: real) {
    0.0 < limit <= 100.0
  }

  function Fall(from: real, equity: real): real
    requires from != 0.0
  {
    (from - equity) / from * 100.0
  }

  function Reset(s: Session, equity: real, date: int): Session {
    Session(date, equity, equity, false, NoReason, s.autoResetPending)
  }

  /** No drawdown is ever divided by a zero baseline. */
  predicate Measurable(s: Session, equity: real, date: int) {
    date == s.date && !s.halted ==> s.startingEquity != 0.0 && MaxR(s.peakEquity, equity) != 0.0
  }

  /** A new calendar day starts a fresh session and never trips. */
  function Updated(s: Session, equity: real, date: int, limit: real): (r: (Session, bool))
    requires Measurable(s, equity, date)
    ensures Solvent(s) && (date != s.date ==> 0.0 < equity) ==> Solvent(r.0)
    ensures r.1 ==> r.0.halted
  {
    if date != s.date then (Reset(s, equity, date).(autoResetPending := true), false)
    else
      var t := s.(peakEquity := MaxR(s.peakEquity, equity));
      if t.halted then (t, false)
      else
        var pct := MaxR(Fall(t.startingEquity, equity), Fall(t.peakEquity, equity));
        if pct >= limit
        then (t.(halted := true, reason := Drawdown(pct, equity, t.startingEquity, t.peakEquity)), true)
        else (t, false)
  }

  class DrawdownCircuitBreaker {
    const maxDailyDrawdownPct: real
    var startingEquity: real
    var sessionDate: int
    var peakEquity: real
    var halted: bool
    var haltReason: Reason
    var autoResetPending: bool

    function View(): Session
      reads this
    {
      Session(sessionDate, startingEquity, peakEquity, halted, haltReason, autoResetPending)
    }

    constructor (limit: real, startingEquity: real, today: int)
      requires 0.0 < startingEquity && IsLimit(limit)
      ensures maxDailyDrawdownPct == limit
      ensures View() == Session(today, startingEquity, startingEquity, false, NoReason, false) && Solvent(View())
    {
      maxDailyDrawdownPct := limit;
      this.startingEquity, peakEquity, sessionDate := startingEquity, startingEquity, today;
      halted, haltReason, autoResetPending := false, NoReason, false;
    }

    method ConsumeAutoResetFlag() returns (flag: bool)
      modifies this`autoResetPending
      ensures flag == old(autoResetPending) && !autoResetPending
    {
      flag := autoResetPending;
      autoResetPending := false;
    }

    method ResetSession(equity: real, date: int)
      modifies this
      ensures View() == Reset(old(View()), equity, date)
      ensures sessionDate == date && startingEquity == peakEquity == equity && !halted
    {
      startingEquity, peakEquity, sessionDate := equity, equity, date;
      halted, haltReason := false, NoReason;
    }

    method Restore(date: int, starting: real, peak: real, halted: bool, reason: Reason)
      modifies this
      ensures View() == Session(date, starting, peak, halted, reason, old(autoResetPending))
    {
      sessionDate, startingEquity, peakEquity := date, starting, peak;
      this.halted, haltReason := halted, reason;
    }

    method Update(equity: real, date: int) returns (tripped: bool)
      requires Measurable(View(), equity, date)
      modifies this
      ensures (View(), tripped) == Updated(old(View()), equity, date, maxDailyDrawdownPct)
      ensures sessionDate == date && (old(halted) || date != old(sessionDate) ==> !tripped)
      ensures date != old(sessionDate) ==> startingEquity == peakEquity == equity && !halted && autoResetPending
      ensures date == old(sessionDate) ==>
        && startingEquity == old(startingEquity) && peakEquity == MaxR(old(peakEquity), equity)
        && (halted <==> old(halted) || tripped) && (!tripped ==> haltReason == old(haltReason))
    {
      if date != sessionDate {
        ResetSession(equity, date);
        autoResetPending := true;
        return false;
      }
      peakEquity := MaxR(peakEquity, equity);
      if halted {
        return false;
      }
      var fromStart := (startingEquity - equity) / startingEquity * 100.0;
      var fromPeak := (peakEquity - equity) / peakEquity * 100.0;
      var pct := MaxR(fromStart, fromPeak);
      if pct >= maxDailyDrawdownPct {
        halted := true;
        haltReason := Drawdown(pct, equity, startingEquity, peakEquity);
        return true;
      }
      return false;
    }

    method ForceHalt(text: string)
      modifies this`halted, this`haltReason
      ensures View() == old(View()).(halted := true, reason := Forced(text))
    {
      halted, haltReason := true, Forced(text);
    }
  }

  // ---- What a session of same-day updates amounts to ----

  function After(s: Session, es: seq<real>, limit: real): (r: Session)
    requires Solvent(s)
    ensures Solvent(r) && r.date == s.date && r.startingEquity == s.startingEquity
  {
    if es == [] then s
    else Updated(After(s, es[..|es| - 1], limit), es[|es| - 1], s.date, limit).0
  }

  predicate TrippedAt(s: Session, es: seq<real>, k: nat, limit: real)
    requires Solvent(s) && k < |es|
  {
    Updated(After(s, es[..k], limit), es[k], s.date, limit).1
  }

  /** The highest equity seen so far, the opening one included. */
  function HighMark(start: real, es: seq<real>): (r: real)
    ensures start <= r
  {
    if es == [] then start else MaxR(HighMark(start, es[..|es| - 1]), es[|es| - 1])
  }

  /** Equity has given back `limit` percent of the high mark up to then. */
  predicate Breaches(start: real, es: seq<real>, k: nat, limit: real)
    requires k < |es|
  {
    GivenBack(HighMark(start, es[..k + 1]), es[k], limit)
  }

  predicate FirstBreach(start: real, es: seq<real>, k: nat, limit: real)
    requires k < |es|
  {
    Breaches(start, es, k, limit) && forall j :: 0 <= j < k ==> !Breaches(start, es, j, limit)
  }

  lemma FallReaches(from: real, equity: real, limit: real)
    requires 0.0 < from
    ensures Fall(from, equity) >= limit <==> equity <= (1.0 - limit / 100.0) * from
  {
    var fall := (from - equity) / from;
    assert fall * from == from - equity;
    if fall * 100.0 >= limit {
      assert fall * from >= (limit / 100.0) * from;
    } else {
      assert fall * from < (limit / 100.0) * from;
    }
  }

  /** The from-start test never decides: the from-peak test is at least as strict. */
  lemma PeakTestDecides(start: real, peak: real, equity: real, limit: real)
    requires 0.0 < start <= peak && IsLimit(limit)
    ensures Fall(start, equity) >= limit ==> Fall(peak, equity) >= limit
  {
    FallReaches(start, equity, limit);
    FallReaches(peak, equity, limit);
    assert (1.0 - limit / 100.0) * (peak - start) >= 0.0;
  }

  /** Equity has given back `limit` percent of this peak. */
  predicate GivenBack(peak: real, equity: real, limit: real) {
    equity <= (1.0 - limit / 100.0) * peak
  }

  /** One same-day update trips on the fall from the peak and nothing else. */
  lemma UpdateDecides(t: Session, equity: real, limit: real)
    requires Solvent(t) && IsLimit(limit)
    ensures
      var peak := MaxR(t.peakEquity, equity);
      var (after, tripped) := Updated(t, equity, t.date, limit);
      && after.peakEquity == peak
      && (tripped <==> !t.halted && GivenBack(peak, equity, limit))
      && (after.halted <==> t.halted || GivenBack(peak, equity, limit))
  {
    var peak := MaxR(t.peakEquity, equity);
    PeakTestDecides(t.startingEquity, peak, equity, limit);
    FallReaches(peak, equity, limit);
  }

  lemma OneUpdate(s: Session, es: seq<real>, k: nat, limit: real)
    requires Solvent(s) && IsLimit(limit) && k < |es|
    requires After(s, es[..k], limit).peakEquity == HighMark(s.peakEquity, es[..k])
    ensures
      var before := After(s, es[..k], limit);
      var after := After(s, es[..k + 1], limit);
      && after.peakEquity == HighMark(s.peakEquity, es[..k + 1])
      && (after.halted <==> before.halted || Breaches(s.peakEquity, es, k, limit))
      && (TrippedAt(s, es, k, limit) <==> !before.halted && Breaches(s.peakEquity, es, k, limit))
  {
    assert es[..k + 1][..k] == es[..k];
    UpdateDecides(After(s, es[..k], limit), es[k], limit);
    hide Updated, GivenBack;
  }

  ghost predicate AnyBreach(start: real, es: seq<real>, n: nat, limit: real)
    requires n <= |es|
  {
    exists k :: 0 <= k < n && Breaches(start, es, k, limit)
  }

  lemma {:induction false} HaltedByBreach(s: Session, es: seq<real>, n: nat, limit: real)
    requires Solvent(s) && IsLimit(limit) && n <= |es|
    ensures After(s, es[..n], limit).peakEquity == HighMark(s.peakEquity, es[..n])
    ensures After(s, es[..n], limit).halted <==> s.halted || AnyBreach(s.peakEquity, es, n, limit)
  {
    if n > 0 {
      HaltedByBreach(s, es, n - 1, limit);
      OneUpdate(s, es, n - 1, limit);
      hide Breaches, After, HighMark;
    }
  }

  /**
   From any state of a session, over any updates of the same day, the breaker is halted
   exactly if it was or some equity breached the limit against the high mark up to then,
   and `update` reports a trip at the first such equity and at no other.
   */
  lemma BreakerMeetsSpec(s: Session, es: seq<real>, limit: real)
    requires Solvent(s) && IsLimit(limit)
    ensures After(s, es, limit).peakEquity == HighMark(s.peakEquity, es)
    ensures After(s, es, limit).halted <==> s.halted || AnyBreach(s.peakEquity, es, |es|, limit)
    ensures forall k :: 0 <= k < |es| ==>
      (TrippedAt(s, es, k, limit) <==> !s.halted && FirstBreach(s.peakEquity, es, k, limit))
  {
    assert es[..|es|] == es;
    HaltedByBreach(s, es, |es|, limit);
    forall k | 0 <= k < |es|
      ensures TrippedAt(s, es, k, limit) <==> !s.halted && FirstBreach(s.peakEquity, es, k, limit)
    {
      HaltedByBreach(s, es, k, limit);
      OneUpdate(s, es, k, limit);
      hide Breaches, After, HighMark, TrippedAt;
    }
  }

  // ---- Any number of days ----

  datatype Reading = Reading(equity: real, date: int)

  predicate PositiveReadings(rs: seq<Reading>) {
    forall i :: 0 <= i < |rs| ==> 0.0 < rs[i].equity
  }

  function Lived(s: Session, rs: seq<Reading>, limit: real): (r: Session)
    requires Solvent(s) && PositiveReadings(rs)
    ensures Solvent(r) && r.date == if rs == [] then s.date else rs[|rs| - 1].date
  {
    if rs == [] then s
    else
      var last := rs[|rs| - 1];
      Updated(Lived(s, rs[..|rs| - 1], limit), last.equity, last.date, limit).0
  }

  /** The last reading was taken on another day than what came before it. */
  predicate NewDay(s: Session, rs: seq<Reading>)
    requires rs != []
  {
    rs[|rs| - 1].date != if |rs| == 1 then s.date else rs[|rs| - 2].date
  }

  /** What a day is measured by: the mark it opened with, and the equities read since. */
  datatype DaySoFar = DaySoFar(open: real, equities: seq<real>, haltedBefore: bool)

  function Today(s: Session, rs: seq<Reading>): DaySoFar {
    if rs == [] then DaySoFar(s.peakEquity, [], s.halted)
    else if NewDay(s, rs) then DaySoFar(rs[|rs| - 1].equity, [], false)
    else
      var day := Today(s, rs[..|rs| - 1]);
      day.(equities := day.equities + [rs[|rs| - 1].equity])
  }

  ghost predicate DayBreached(day: DaySoFar, limit: real) {
    day.haltedBefore || AnyBreach(day.open, day.equities, |day.equities|, limit)
  }

  lemma AnyBreachOn(open: real, es: seq<real>, e: real, limit: real)
    ensures AnyBreach(open, es + [e], |es| + 1, limit)
       <==> AnyBreach(open, es, |es|, limit) || GivenBack(HighMark(open, es + [e]), e, limit)
    ensures HighMark(open, es + [e]) == MaxR(HighMark(open, es), e)
  {
    hide GivenBack;
    var all := es + [e];
    assert all[..|es|] == es && all[..|es| + 1] == all;
    assert Breaches(open, all, |es|, limit) <==> GivenBack(HighMark(open, all), e, limit);
    forall k | 0 <= k < |es| ensures Breaches(open, all, k, limit) <==> Breaches(open, es, k, limit) {
      assert all[..k + 1] == es[..k + 1];
    }
    hide Breaches;
  }

  /**
   Over any readings of any days: the breaker is halted exactly if some equity read
   since the last change of date breached the limit against the high mark since then,
   with that day's first equity as the opening mark; and the last reading trips it
   exactly if it is the first of its day to do so.
   */
  lemma {:induction false} BreakerOverDays(s: Session, rs: seq<Reading>, limit: real)
    requires Solvent(s) && PositiveReadings(rs) && IsLimit(limit)
    ensures
      var r, day := Lived(s, rs, limit), Today(s, rs);
      r.peakEquity == HighMark(day.open, day.equities) && (r.halted <==> DayBreached(day, limit))
    ensures rs != [] ==>
      var last := rs[|rs| - 1];
      Updated(Lived(s, rs[..|rs| - 1], limit), last.equity, last.date, limit).1
      <==> DayBreached(Today(s, rs), limit) && !NewDay(s, rs) && !DayBreached(Today(s, rs[..|rs| - 1]), limit)
  {
    if rs != [] {
      var init, last := rs[..|rs| - 1], rs[|rs| - 1];
      BreakerOverDays(s, init, limit);
      var before, day := Lived(s, init, limit), Today(s, init);
      if !NewDay(s, rs) {
        assert before.date == last.date;
        UpdateDecides(before, last.equity, limit);
        AnyBreachOn(day.open, day.equities, last.equity, limit);
      }
      hide GivenBack, AnyBreach, HighMark, Fall;
    }
  }

  // ---- What lifts a halt ----

  /** Everything that can be done to a breaker. */
  datatype Command =
    | Read(equity: real, date: int)
    | Force(text: string)
    | Reopen(equity: real, date: int)
    | Load(date: int, starting: real, peak: real, halted: bool, reason: Reason)

  /** A reading that would divide by zero raises the peak before it fails. */
  function Obeyed(s: Session, c: Command, limit: real): Session {
    match c
    case Read(equity, date) =>
      if Measurable(s, equity, date) then Updated(s, equity, date, limit).0
      else s.(peakEquity := MaxR(s.peakEquity, equity))
    case Force(text) => s.(halted := true, reason := Forced(text))
    case Reopen(equity, date) => Reset(s, equity, date)
    case Load(date, starting, peak, halted, reason) =>
      Session(date, starting, peak, halted, reason, s.autoResetPending)
  }

  function ObeyedAll(s: Session, cs: seq<Command>, limit: real): Session {
    if cs == [] then s else Obeyed(ObeyedAll(s, cs[..|cs| - 1], limit), cs[|cs| - 1], limit)
  }

  /** A reset, a reading of another day, or a restored session that is not halted. */
  predicate Lifts(s: Session, c: Command) {
    match c
    case Read(_, date) => date != s.date
    case Force(_) => false
    case Reopen(_, _) => true
    case Load(_, _, _, halted, _) => !halted
  }

  /** Exactly these lift a halt, and nothing else does. */
  lemma LiftedIff(s: Session, c: Command, limit: real)
    requires s.halted
    ensures !Obeyed(s, c, limit).halted <==> Lifts(s, c)
  {
  }

  /** From one halt to the next command that lifts it, the breaker stays halted. */
  lemma {:induction false} HaltHolds(s: Session, cs: seq<Command>, limit: real)
    requires s.halted && !ObeyedAll(s, cs, limit).halted
    ensures exists i :: 0 <= i < |cs| && Lifts(ObeyedAll(s, cs[..i], limit), cs[i])
  {
    var init, c := cs[..|cs| - 1], cs[|cs| - 1];
    hide Obeyed, Lifts;
    var before := ObeyedAll(s, init, limit);
    if before.halted {
      LiftedIff(before, c, limit);
    } else {
      HaltHolds(s, init, limit);
      var i :| 0 <= i < |init| && Lifts(ObeyedAll(s, init[..i], limit), init[i]);
      assert init[..i] == cs[..i] && init[i] == cs[i];
    }
  }
}
