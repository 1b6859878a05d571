/** Crash recovery of the circuit breaker from a persisted snapshot. */
module Recovery {
  import opened Core
  import opened Breaker

  datatype Snapshot = Snapshot(
    date: int,
    startingEquity: real,
    peakEquity: real,
    halted: bool,
    reason: Reason,
    environment: string
  )

  /** The state file: absent or unreadable counts as `None`. */
  type Disk = Option<Snapshot>

  function SnapshotOf(s: Session, environment: string): Snapshot {
    Snapshot(s.date, s.startingEquity, s.peakEquity, s.halted, s.reason, environment)
  }

  predicate Matches(disk: Disk, today: int, environment: string) {
    disk.Some? && disk.value.date == today && disk.value.environment == environment
  }

  function Recovered(s: Session, disk: Disk, today: int, environment: string, equity: real): Session {
    if Matches(disk, today, environment) then
      var d := disk.value;
      Session(today, d.startingEquity, d.peakEquity, d.halted, d.reason, s.autoResetPending)
    else Reset(s, equity, today)
  }

  class StateRecoveryService {
    const breaker: DrawdownCircuitBreaker
    const environment: string
    var positions: map<Symbol, int>
    var disk: Disk

    constructor (breaker: DrawdownCircuitBreaker, environment: string, disk: Disk)
      ensures this.breaker == breaker && this.environment == environment
      ensures this.disk == disk && positions == map[]
    {
      this.breaker, this.environment, this.disk := breaker, environment, disk;
      positions := map[];
    }

    method Persist()
      modifies this`disk
      ensures disk == Some(SnapshotOf(breaker.View(), environment))
    {
      disk := Some(Snapshot(breaker.sessionDate, breaker.startingEquity, breaker.peakEquity,
                            breaker.halted, breaker.haltReason, environment));
    }

    /** Positions come from the broker, the session from disk when it matches. */
    method Recover(today: int, brokerPositions: map<Symbol, int>, equity: real) returns (restored: bool)
      modifies this, breaker
      ensures positions == old(positions) + brokerPositions
      ensures breaker.View() == Recovered(old(breaker.View()), old(disk), today, environment, equity)
      ensures disk == Some(SnapshotOf(breaker.View(), environment))
      ensures restored <==> Matches(old(disk), today, environment)
      ensures restored <==>
        old(disk).Some? && old(disk).value.date == today && old(disk).value.environment == environment
      ensures !restored ==> breaker.sessionDate == today && !breaker.halted
      ensures !restored ==> breaker.startingEquity == breaker.peakEquity == equity
      ensures restored ==>
        var d := old(disk).value;
        && breaker.sessionDate == d.date && breaker.startingEquity == d.startingEquity
        && breaker.peakEquity == d.peakEquity && breaker.halted == d.halted && breaker.haltReason == d.reason
    {
      positions := positions + brokerPositions;
      restored := RestoreCircuitBreaker(today, equity);
      Persist();
    }

    method RestoreCircuitBreaker(today: int, equity: real) returns (restored: bool)
      modifies breaker
      ensures breaker.View() == Recovered(old(breaker.View()), disk, today, environment, equity)
      ensures restored <==> Matches(disk, today, environment)
      ensures restored <==> disk.Some? && disk.value.date == today && disk.value.environment == environment
      ensures !restored ==> breaker.sessionDate == today && !breaker.halted
      ensures !restored ==> breaker.startingEquity == breaker.peakEquity == equity
      ensures restored ==>
        var d := disk.value;
        && breaker.sessionDate == d.date && breaker.startingEquity == d.startingEquity
        && breaker.peakEquity == d.peakEquity && breaker.halted == d.halted && breaker.haltReason == d.reason
    {
      if disk.Some? && disk.value.date == today && disk.value.environment == environment {
        var d := disk.value;
        breaker.Restore(today, d.startingEquity, d.peakEquity, d.halted, d.reason);
        return true;
      }
      breaker.ResetSession(equity, today);
      return false;
    }
  }

  // ---- What recovery preserves ----

  /** Everything but the one-shot notification flag, which is not persisted. */
  predicate SameSession(s: Session, t: Session) {
    s.(autoResetPending := t.autoResetPending) == t
  }

  datatype Event = Update(equity: real, date: int) | ForceHalt(text: string)

  predicate Feasible(s: Session, ev: Event) {
    Solvent(s) && (ev.Update? && ev.date != s.date ==> 0.0 < ev.equity)
  }

  function Next(s: Session, ev: Event, limit: real): (r: (Session, bool))
    requires Feasible(s, ev)
    ensures Solvent(r.0)
  {
    match ev
    case Update(equity, date) => Updated(s, equity, date, limit)
    case ForceHalt(text) => (s.(halted := true, reason := Forced(text)), false)
  }

  predicate PositiveEquities(evs: seq<Event>) {
    forall i :: 0 <= i < |evs| && evs[i].Update? ==> 0.0 < evs[i].equity
  }

  function Future(s: Session, evs: seq<Event>, limit: real): (r: Session)
    requires Solvent(s) && PositiveEquities(evs)
    ensures Solvent(r)
  {
    if evs == [] then s
    else Next(Future(s, evs[..|evs| - 1], limit), evs[|evs| - 1], limit).0
  }

  /** Sessions that differ only in the flag answer every future event alike. */
  lemma {:induction false} SameFuture(s: Session, t: Session, evs: seq<Event>, limit: real)
    requires Solvent(s) && SameSession(s, t) && PositiveEquities(evs)
    ensures SameSession(Future(s, evs, limit), Future(t, evs, limit))
    ensures evs != [] ==>
      Next(Future(s, evs[..|evs| - 1], limit), evs[|evs| - 1], limit).1
      == Next(Future(t, evs[..|evs| - 1], limit), evs[|evs| - 1], limit).1
  {
    if evs != [] {
      SameFuture(s, t, evs[..|evs| - 1], limit);
    }
  }

  /**
   A crash is invisible: a process restarted the same day in the same environment,
   whatever its new breaker held and whatever equity it now reads, answers every
   future event as the crashed one would have.
   */
  lemma CrashIsInvisible(s: Session, restarted: Session, environment: string, equity: real, evs: seq<Event>,
                         limit: real)
    requires Solvent(s) && PositiveEquities(evs)
    ensures
      var r := Recovered(restarted, Some(SnapshotOf(s, environment)), s.date, environment, equity);
      && Solvent(r)
      && SameSession(Future(s, evs, limit), Future(r, evs, limit))
      && (evs != [] ==>
           Next(Future(s, evs[..|evs| - 1], limit), evs[|evs| - 1], limit).1
           == Next(Future(r, evs[..|evs| - 1], limit), evs[|evs| - 1], limit).1)
  {
    var r := Recovered(restarted, Some(SnapshotOf(s, environment)), s.date, environment, equity);
    assert SameSession(s, r);
    SameFuture(s, r, evs, limit);
  }

  /** Restarts of the same day and environment: new breaker, current equity. */
  datatype Restart = Restart(booted: Session, equity: real)

  function DiskAfter(disk: Disk, restarts: seq<Restart>, today: int, environment: string): Disk {
    if restarts == [] then disk
    else
      var before := DiskAfter(disk, restarts[..|restarts| - 1], today, environment);
      var r := restarts[|restarts| - 1];
      Some(SnapshotOf(Recovered(r.booted, before, today, environment, r.equity), environment))
  }

  /**
   However often recovery runs in one day, it writes what the first one wrote:
   a snapshot of the same day and environment is a fixed point, halt included.
   */
  lemma {:induction false} RecoveryIsIdempotent(disk: Disk, restarts: seq<Restart>, today: int, environment: string)
    requires restarts != []
    ensures DiskAfter(disk, restarts, today, environment)
         == Some(SnapshotOf(Recovered(restarts[0].booted, disk, today, environment, restarts[0].equity), environment))
    ensures Matches(disk, today, environment) ==> DiskAfter(disk, restarts, today, environment) == disk
  {
    var n := |restarts| - 1;
    if n == 0 {
      assert restarts[..0] == [];
    } else {
      RecoveryIsIdempotent(disk, restarts[..n], today, environment);
    }
  }

  /**
   However often recovery runs in one day, the last breaker is halted exactly when the
   snapshot found by the first was of this day and environment, and halted.
   */
  lemma HaltSurvivesIff(disk: Disk, restarts: seq<Restart>, today: int, environment: string)
    requires restarts != []
    ensures
      var n := |restarts| - 1;
      var before := DiskAfter(disk, restarts[..n], today, environment);
      Recovered(restarts[n].booted, before, today, environment, restarts[n].equity).halted
      <==> Matches(disk, today, environment) && disk.value.halted
  {
    var n := |restarts| - 1;
    if n > 0 {
      RecoveryIsIdempotent(disk, restarts[..n], today, environment);
    } else {
      assert restarts[..0] == [];
    }
  }

  // ---- Restarting from an older snapshot ----

  lemma {:induction false} HighMarkGrows(low: real, high: real, es: seq<real>)
    requires low <= high
    ensures HighMark(low, es) <= HighMark(high, es)
  {
    if es != [] {
      HighMarkGrows(low, high, es[..|es| - 1]);
    }
  }

  lemma GivenBackGrows(low: real, high: real, equity: real, limit: real)
    requires low <= high && IsLimit(limit) && GivenBack(low, equity, limit)
    ensures GivenBack(high, equity, limit)
  {
    var kept := 1.0 - limit / 100.0;
    assert 0.0 <= kept && kept * (high - low) >= 0.0;
    assert kept * high == kept * low + kept * (high - low);
  }

  lemma BreachGrows(low: real, high: real, es: seq<real>, limit: real)
    requires low <= high && IsLimit(limit) && AnyBreach(low, es, |es|, limit)
    ensures AnyBreach(high, es, |es|, limit)
  {
    hide GivenBack, HighMark;
    var k :| 0 <= k < |es| && Breaches(low, es, k, limit);
    HighMarkGrows(low, high, es[..k + 1]);
    GivenBackGrows(HighMark(low, es[..k + 1]), HighMark(high, es[..k + 1]), es[k], limit);
    assert Breaches(high, es, k, limit);
  }

  /**
   What a restart from a snapshot loses when updates `missed` came after it was written:
   the halt exactly if it was tripped by one of them, and the rise of the high mark over
   them. From then on the restarted breaker never halts before the original would.
   */
  lemma StaleSnapshotLoses(s: Session, missed: seq<real>, restarted: Session, environment: string, equity: real,
                           later: seq<real>, limit: real)
    requires Solvent(s) && IsLimit(limit)
    ensures
      var live := After(s, missed, limit);
      var r := Recovered(restarted, Some(SnapshotOf(s, environment)), s.date, environment, equity);
      && Solvent(r)
      && (live.halted && !r.halted <==> !s.halted && AnyBreach(s.peakEquity, missed, |missed|, limit))
      && live.peakEquity - r.peakEquity == HighMark(s.peakEquity, missed) - s.peakEquity
      && (After(r, later, limit).halted ==> After(live, later, limit).halted)
  {
    hide AnyBreach, HighMark;
    var live := After(s, missed, limit);
    var r := Recovered(restarted, Some(SnapshotOf(s, environment)), s.date, environment, equity);
    BreakerMeetsSpec(s, missed, limit);
    BreakerMeetsSpec(live, later, limit);
    BreakerMeetsSpec(r, later, limit);
    if AnyBreach(r.peakEquity, later, |later|, limit) {
      BreachGrows(r.peakEquity, live.peakEquity, later, limit);
    }
  }
}
