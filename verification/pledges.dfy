/**
 * The pledge renewal scheduler (`PledgeKeeper`): one renewal adds the
 * pledge's CO2e factor to its impact and one to its streak; on start it
 * replays the renewals missed while nothing ran, waits out the rest of the
 * current period, and from then on renews once per period.
 *
 * The clock is an integer count of milliseconds that only `Sleep` advances;
 * every renewal is logged in the ghost sequence `renewals`.
 */
module Pledges {
  import opened Wrappers
  import opened Documents

  /** The 1.3 s added to every steady-state sleep, in milliseconds. */
  const BUFFER: nat := 1300

  /** Why loading a pledge fails. */
  datatype LoadError =
    | Missing        // find_one found nothing, and indexing None raises
    | NotADuration   // the stored frequency is not keyword arguments of timedelta
    | NotPositive    // a duration of zero or less

  /**
   * A `last_updated` as `find_one` hands it back. A client built without
   * `tz_aware=True`, as `MongoClient()` is by default, gives a naive
   * `datetime`; an aware client gives it in UTC.
   */
  datatype Stamp = Aware(millis: int) | Naive(millis: int)

  /** The stored instant `t`, read through a client that is `tz_aware` or not. */
  function ReadBack(t: int, tzAware: bool): (s: Stamp)
    ensures s.millis == t && (s.Aware? <==> tzAware)
  {
    if tzAware then Aware(t) else Naive(t)
  }

  /**
   * `seconds_diff` as Python evaluates it: the aware `datetime.now(tz=timezone.utc)`
   * less the stamp, which raises `TypeError` when the stamp is naive.
   */
  function SecondsDiff(now: int, last: Stamp): (r: Result<int, string>)
    ensures r.Err? <==> last.Naive?
    ensures r.Ok? ==> r.value == now - last.millis
  {
    if last.Naive? then Err("TypeError") else Ok(now - last.millis)
  }

  /** As written: every stamp read back by the default client makes `seconds_diff` raise. */
  lemma DefaultClientCannotSubtract(t: int, now: int)
    ensures SecondsDiff(now, ReadBack(t, false)) == Err("TypeError")
  {
  }

  /**
   * As intended: read through an aware client, `seconds_diff` is the lag the
   * scheduler's `Since` computes, non-negative exactly when the last renewal
   * is not in the future.
   */
  lemma AwareClientMeasuresLag(t: int, now: int)
    ensures SecondsDiff(now, ReadBack(t, true)) == Ok(now - t)
    ensures SecondsDiff(now, ReadBack(t, true)).value >= 0 <==> t <= now
  {
  }

  /** Why a modelled run of the scheduler ends. */
  datatype Stop = FuelSpent | LoadFailed(error: LoadError)

  /**
   * The number of catch-up renewals, `int(lagged)` of `math.modf(waited / f)`:
   * the quotient truncated toward zero, and no renewal for a negative lag.
   */
  function Lagged(waited: int, f: int): (k: nat)
    requires f > 0
    ensures waited < 0 ==> k == 0
  {
    if waited >= 0 then waited / f else 0
  }

  /**
   * `f - f * frac(waited / f)`, the wait that aligns the next renewal with a
   * period boundary; the fractional part of `modf` carries the sign of
   * `waited`.
   */
  function Remainder(waited: int, f: int): (r: int)
    requires f > 0
    ensures 0 < r < 2 * f
    ensures waited >= 0 ==> r <= f
  {
    if waited >= 0 then f - waited % f else f + (-waited) % f
  }

  /**
   * The catch-up renewals stand for the whole periods waited, and the aligning
   * renewal lands exactly one period after the last of them.
   */
  lemma CatchUpCoversWaited(waited: int, f: int)
    requires f > 0 && waited >= 0
    ensures waited + Remainder(waited, f) == (Lagged(waited, f) + 1) * f
    ensures 0 < Remainder(waited, f) <= f
    ensures Remainder(waited, f) == f <==> waited % f == 0
  {
    var q := waited / f;
    assert waited == q * f + waited % f;
  }

  /** A last renewal in the future (clock skew) replays nothing and waits between one and two periods. */
  lemma NegativeLagWaitsLonger(waited: int, f: int)
    requires f > 0 && waited < 0
    ensures Lagged(waited, f) == 0
    ensures f <= Remainder(waited, f) < 2 * f
  {
    var w := -waited;
    assert w == (w / f) * f + w % f;
    assert Remainder(waited, f) == f + w % f;
  }

  /** Whatever the lag, the aligning wait is a positive sleep. */
  lemma RemainderPositive(waited: int, f: int)
    requires f > 0
    ensures Remainder(waited, f) > 0
  {
    if waited >= 0 {
      CatchUpCoversWaited(waited, f);
    } else {
      NegativeLagWaitsLonger(waited, f);
    }
  }

  /** A pledge renewed 7500 s after its last renewal with an hourly frequency: two catch-ups, 3300 s to wait. */
  lemma HourlyExample()
    ensures Lagged(7_500_000, 3_600_000) == 2 && Remainder(7_500_000, 3_600_000) == 3_300_000
  {
  }

  /** One renewal at instant `at` (`update_pledge`). */
  function Renewed(p: Pledge, at: int): (r: Pledge)
    ensures r.impact == p.impact + p.co2eFactor && r.streak == p.streak + 1 && r.lastUpdated == at
    ensures r.(impact := p.impact, streak := p.streak, lastUpdated := p.lastUpdated) == p
  {
    p.(impact := p.impact + p.co2eFactor, streak := p.streak + 1, lastUpdated := at)
  }

  /** The pledge after renewals at each instant of `times`, in order. */
  function RenewedTimes(p: Pledge, times: seq<int>): Pledge
  {
    if times == [] then p else Renewed(RenewedTimes(p, times[..|times| - 1]), times[|times| - 1])
  }

  /** k renewals add k to the streak and k factors to the impact, and change nothing else. */
  lemma {:induction false} RenewedTimesEffect(p: Pledge, times: seq<int>)
    ensures RenewedTimes(p, times).streak == p.streak + |times|
    ensures RenewedTimes(p, times).impact == p.impact + (|times| as real) * p.co2eFactor
    ensures RenewedTimes(p, times).lastUpdated == if times == [] then p.lastUpdated else times[|times| - 1]
    ensures RenewedTimes(p, times).(impact := p.impact, streak := p.streak, lastUpdated := p.lastUpdated) == p
  {
    if times != [] {
      RenewedTimesEffect(p, times[..|times| - 1]);
    }
  }

  lemma {:induction false} RenewedTimesAppend(p: Pledge, a: seq<int>, b: seq<int>)
    ensures RenewedTimes(p, a + b) == RenewedTimes(RenewedTimes(p, a), b)
  {
    if b != [] {
      assert (a + b)[..|a + b| - 1] == a + b[..|b| - 1];
      RenewedTimesAppend(p, a, b[..|b| - 1]);
    } else {
      assert a + b == a;
    }
  }

  /** `n` renewals at the same instant `t`. */
  function Repeat(t: int, n: nat): (s: seq<int>)
    ensures |s| == n && forall i :: 0 <= i < n ==> s[i] == t
  {
    if n == 0 then [] else Repeat(t, n - 1) + [t]
  }

  /** `n` instants, the first at `start`, each `gap` after the one before. */
  function Steady(start: int, gap: int, n: nat): (s: seq<int>)
    ensures |s| == n
    decreases n
  {
    if n == 0 then [] else [start] + Steady(start + gap, gap, n - 1)
  }

  lemma {:induction false} SteadyAt(start: int, gap: int, n: nat, i: nat)
    requires i < n
    ensures Steady(start, gap, n)[i] == start + i * gap
    decreases n
  {
    if i > 0 {
      SteadyAt(start + gap, gap, n - 1, i - 1);
    }
  }

  /** With a gap of zero or more, steady instants never run back and never precede the first. */
  lemma {:induction false} SteadyAscending(start: int, gap: int, n: nat)
    requires gap >= 0
    ensures Ascending(Steady(start, gap, n))
    ensures forall i :: 0 <= i < n ==> start <= Steady(start, gap, n)[i]
    decreases n
  {
    if n > 0 {
      var rest := Steady(start + gap, gap, n - 1);
      SteadyAscending(start + gap, gap, n - 1);
      var s := Steady(start, gap, n);
      assert s == [start] + rest;
      forall i | 0 < i < n ensures s[i] == rest[i - 1] && start <= s[i] {
      }
      forall i, j | 0 <= i < j < n ensures s[i] <= s[j] {
        if i > 0 {
          assert s[i] == rest[i - 1] && s[j] == rest[j - 1];
        }
      }
    }
  }

  ghost predicate Ascending(times: seq<int>) {
    forall i, j :: 0 <= i < j < |times| ==> times[i] <= times[j]
  }

  /** What `init_pledge` reads from a stored document: its last renewal and its frequency. */
  function Load(doc: Option<Pledge>): (r: Result<(int, int), LoadError>)
    ensures doc.None? ==> r == Err(Missing)
    ensures doc.Some? ==> (r.Ok? <==> doc.value.frequency.Duration?)
    ensures r.Ok? ==> r.value == (doc.value.lastUpdated, doc.value.frequency.millis)
  {
    match doc
    case None => Err(Missing)
    case Some(p) =>
      match p.frequency
      case Named(_) => Err(NotADuration)
      case Duration(ms) => Ok((p.lastUpdated, ms))
  }

  /** A document the scheduler can run on: present, with a positive duration. */
  predicate Runnable(doc: Option<Pledge>) {
    Load(doc).Ok? && Load(doc).value.1 > 0
  }

  /** Renewals never change whether, or at which frequency, a pledge can be run. */
  lemma RenewalsKeepFrequency(p: Pledge, times: seq<int>)
    ensures RenewedTimes(p, times).frequency == p.frequency
    ensures Load(Some(RenewedTimes(p, times))).Ok? == Load(Some(p)).Ok?
  {
    RenewedTimesEffect(p, times);
  }

  /** The first steady-state renewal after a load at `start` of a pledge last renewed at `last`. */
  function FirstSteady(start: int, last: int, f: int): (r: int)
    ensures r >= start && r >= last + f
    ensures r == start <==> start - last >= f
  {
    if start - last >= f then start else last + f + BUFFER
  }

  /**
   * The renewal instants of a scheduler that loads, at `start`, a pledge
   * whose last renewal is `waited` in the past, with period `f`: one catch-up
   * renewal per whole period waited, all at `start`, then `n` renewals from
   * the next period boundary on, each a period and the buffer after the one
   * before.
   */
  function CatchUp(start: int, waited: int, f: int, n: nat): seq<int>
    requires f > 0
  {
    Repeat(start, Lagged(waited, f)) + Steady(start + Remainder(waited, f), f + BUFFER, n)
  }

  /**
   * A catch-up replays one renewal per whole period waited, all at the load
   * instant, then renews `n` times on the grid that starts at the aligned
   * instant.
   */
  lemma CatchUpShape(start: int, waited: int, f: int, n: nat)
    requires f > 0
    ensures var r := CatchUp(start, waited, f, n);
            && |r| == Lagged(waited, f) + n
            && (forall i :: 0 <= i < Lagged(waited, f) ==> r[i] == start)
            && (forall i :: Lagged(waited, f) <= i < |r| ==>
                  r[i] == start + Remainder(waited, f) + (i - Lagged(waited, f)) * (f + BUFFER))
  {
    var k := Lagged(waited, f);
    var r := CatchUp(start, waited, f, n);
    forall i | k <= i < |r|
      ensures r[i] == start + Remainder(waited, f) + (i - k) * (f + BUFFER)
    {
      SteadyAt(start + Remainder(waited, f), f + BUFFER, n, i - k);
    }
  }

  /** The log of a catch-up: the replayed renewals, then the steady ones from the aligned instant. */
  lemma CatchUpLog(r0: seq<int>, t0: int, waited: int, f: int, n: nat, mid: seq<int>, at: int, gap: int, r: seq<int>)
    requires f > 0 && gap == f + BUFFER
    requires mid == r0 + Repeat(t0, Lagged(waited, f))
    requires at == t0 + Remainder(waited, f)
    requires r == mid + Steady(at, gap, n)
    ensures r == r0 + CatchUp(t0, waited, f, n)
  {
    assert r == r0 + (Repeat(t0, Lagged(waited, f)) + Steady(t0 + Remainder(waited, f), f + BUFFER, n));
  }

  /** The log of a renewal at `at` followed by the steady renewals it starts. */
  lemma SteadyLog(r0: seq<int>, at: int, f: int, n: nat, log: seq<int>, r: seq<int>)
    requires f > 0
    requires log == r0 + [at]
    requires r == log + Steady(FirstSteady(at, at, f), f + BUFFER, n)
    ensures r == r0 + Steady(at, f + BUFFER, n + 1)
  {
    assert r == r0 + ([at] + Steady(at + f + BUFFER, f + BUFFER, n));
  }

  /**
   * The pledges collection after `update_one` renewed the first document
   * named `name` at each instant of `times`; a collection without such a
   * document is left as it is.
   */
  function RenewedStore(store: seq<Pledge>, name: string, times: seq<int>): seq<Pledge>
  {
    if store == [] then []
    else if store[0].name == name then [RenewedTimes(store[0], times)] + store[1..]
    else [store[0]] + RenewedStore(store[1..], name, times)
  }

  /** Renewing the named document is an update in place of the first match, and of nothing else. */
  lemma {:induction false} RenewedStoreUpdates(store: seq<Pledge>, name: string, times: seq<int>)
    ensures FindFirst(store, name).None? ==> RenewedStore(store, name, times) == store
    ensures FindFirst(store, name).Some? ==>
              var i := FindFirst(store, name).value;
              RenewedStore(store, name, times) == store[i := RenewedTimes(store[i], times)]
  {
    if store != [] && store[0].name != name {
      RenewedStoreUpdates(store[1..], name, times);
      if FindFirst(store[1..], name).Some? {
        var i := FindFirst(store[1..], name).value;
        assert [store[0]] + store[1..][i := RenewedTimes(store[1..][i], times)]
               == store[i + 1 := RenewedTimes(store[i + 1], times)];
      } else {
        assert [store[0]] + store[1..] == store;
      }
    } else if store != [] {
      assert [RenewedTimes(store[0], times)] + store[1..] == store[0 := RenewedTimes(store[0], times)];
    }
  }

  /** Renewing keeps the document's place, so later lookups find the renewed document. */
  lemma RenewedStoreLookup(store: seq<Pledge>, name: string, times: seq<int>)
    ensures FindFirst(RenewedStore(store, name, times), name) == FindFirst(store, name)
    ensures FindOne(RenewedStore(store, name, times), name)
            == if FindOne(store, name).None? then None else Some(RenewedTimes(FindOne(store, name).value, times))
  {
    RenewedStoreUpdates(store, name, times);
    if FindFirst(store, name).Some? {
      var i := FindFirst(store, name).value;
      RenewedTimesEffect(store[i], times);
      ReplaceFirstKeepsLookup(store, name, RenewedTimes(store[i], times));
    }
  }

  /** The pledge after `k` renewals, the last of them at `at`. */
  function RenewedCount(p: Pledge, k: nat, at: int): (r: Pledge)
    ensures k > 0 ==> r.lastUpdated == at
    ensures r.(impact := p.impact, streak := p.streak, lastUpdated := p.lastUpdated) == p
  {
    if k == 0 then p else Renewed(RenewedCount(p, k - 1, at), at)
  }

  /** `k` renewals add `k` to the streak and `k` factors to the impact. */
  lemma {:induction false} RenewedCountEffect(p: Pledge, k: nat, at: int)
    ensures RenewedCount(p, k, at).streak == p.streak + k
    ensures RenewedCount(p, k, at).impact == p.impact + (k as real) * p.co2eFactor
  {
    if k > 0 {
      RenewedCountEffect(p, k - 1, at);
    }
  }

  /** The last instant of a non-empty log. */
  function LastOf(times: seq<int>): int
  {
    if |times| == 0 then 0 else times[|times| - 1]
  }

  /** Only the instant of the last renewal survives in the document. */
  lemma {:induction false} RenewedCountRestamp(p: Pledge, k: nat, a: int, b: int, t: int)
    ensures Renewed(RenewedCount(p, k, a), t) == Renewed(RenewedCount(p, k, b), t)
  {
    if k > 0 {
      RenewedCountRestamp(p, k - 1, a, b, a);
    }
  }

  /** Renewing at each instant of a log is renewing as often as it is long, stamped with its last instant. */
  lemma {:induction false} RenewedTimesCount(p: Pledge, times: seq<int>)
    ensures RenewedTimes(p, times) == RenewedCount(p, |times|, LastOf(times))
  {
    if times != [] {
      var init := times[..|times| - 1];
      RenewedTimesCount(p, init);
      RenewedCountRestamp(p, |init|, LastOf(init), LastOf(times), LastOf(times));
    }
  }

  /** The renewed collection is the original one with the first match renewed in place. */
  lemma StoreInSlot(store: seq<Pledge>, name: string, times: seq<int>)
    ensures FindFirst(store, name).None? ==> RenewedStore(store, name, times) == store
    ensures FindFirst(store, name).Some? ==>
              var i := FindFirst(store, name).value;
              RenewedStore(store, name, times) == store[i := RenewedCount(store[i], |times|, LastOf(times))]
  {
    RenewedStoreUpdates(store, name, times);
    if FindFirst(store, name).Some? {
      RenewedTimesCount(store[FindFirst(store, name).value], times);
    }
  }

  /** The log a catch-up writes never runs back in time. */
  lemma CatchUpAscending(start: int, waited: int, f: int, n: nat)
    requires f > 0
    ensures Ascending(CatchUp(start, waited, f, n))
  {
    RemainderPositive(waited, f);
    var log := CatchUp(start, waited, f, n);
    var k := Lagged(waited, f);
    var steady := Steady(start + Remainder(waited, f), f + BUFFER, n);
    SteadyAscending(start + Remainder(waited, f), f + BUFFER, n);
    forall i, j | 0 <= i < j < |log| ensures log[i] <= log[j] {
      if k <= i {
        assert log[i] == steady[i - k] && log[j] == steady[j - k];
      } else if k <= j {
        assert log[i] == start && log[j] == steady[j - k];
      }
    }
  }

  /** Renewals at `k` repeated instants and then `n` steady ones: `k + n` renewals, the last on the steady grid. */
  lemma ScheduleRenewsPledge(p: Pledge, start: int, k: nat, at: int, gap: int, n: nat)
    requires n > 0
    ensures RenewedTimes(p, Repeat(start, k) + Steady(at, gap, n)) == RenewedCount(p, k + n, at + (n - 1) * gap)
  {
    var log := Repeat(start, k) + Steady(at, gap, n);
    RenewedTimesCount(p, log);
    SteadyAt(at, gap, n, n - 1);
    assert LastOf(log) == Steady(at, gap, n)[n - 1];
  }

  /**
   * What a catch-up does to a pledge: one renewal per whole period waited
   * and per steady renewal, the last of them on the period grid that starts
   * at the aligned instant (`RenewedCountEffect` turns this into streak and
   * impact).
   */
  lemma CatchUpRenewsPledge(p: Pledge, start: int, waited: int, f: int, n: nat)
    requires f > 0 && n > 0
    ensures RenewedTimes(p, CatchUp(start, waited, f, n))
            == RenewedCount(p, Lagged(waited, f) + n, start + Remainder(waited, f) + (n - 1) * (f + BUFFER))
  {
    ScheduleRenewsPledge(p, start, Lagged(waited, f), start + Remainder(waited, f), f + BUFFER, n);
  }

  /**
   * The synchronous part of `check_lag` after `Lagged(waited, f)` whole
   * periods: the streak grows by one more than that, the impact by as many
   * factors, and the last renewal is the aligned one.
   */
  lemma CatchUpGrowth(p: Pledge, start: int, waited: int, f: int)
    requires f > 0
    ensures var q := RenewedTimes(p, CatchUp(start, waited, f, 1));
            && q.streak == p.streak + Lagged(waited, f) + 1
            && q.impact == p.impact + ((Lagged(waited, f) + 1) as real) * p.co2eFactor
            && q.lastUpdated == start + Remainder(waited, f)
  {
    CatchUpOnce(p, start, waited, f);
    CountedGrowth(p, RenewedTimes(p, CatchUp(start, waited, f, 1)), Lagged(waited, f) + 1, start + Remainder(waited, f));
  }

  /** `CatchUpRenewsPledge` for the single aligned renewal. */
  lemma CatchUpOnce(p: Pledge, start: int, waited: int, f: int)
    requires f > 0
    ensures RenewedTimes(p, CatchUp(start, waited, f, 1)) == RenewedCount(p, Lagged(waited, f) + 1, start + Remainder(waited, f))
  {
    CatchUpRenewsPledge(p, start, waited, f, 1);
  }

  /** A pledge renewed `k > 0` times, stamped `at`, in terms of its fields. */
  lemma CountedGrowth(p: Pledge, q: Pledge, k: nat, at: int)
    requires k > 0 && q == RenewedCount(p, k, at)
    ensures q.streak == p.streak + k && q.impact == p.impact + (k as real) * p.co2eFactor && q.lastUpdated == at
  {
    RenewedCountEffect(p, k, at);
  }

  class PledgeKeeper {
    const pledgeName: string
    ghost const origin: seq<Pledge>  // the pledges collection when the scheduler was created
    ghost const slot: Option<nat>    // where the first document named `pledgeName` sits in it
    var caughtUp: bool
    var pledge: Option<Pledge>       // the copy `init_pledge` loaded and `update_pledge` keeps current
    var store: seq<Pledge>           // the pledges collection
    var now: int                     // the clock, in milliseconds
    ghost var renewals: seq<int>     // the instant of every renewal written so far

    /** The stored document this scheduler owns: the one in its slot. */
    ghost function Doc(): Option<Pledge>
      reads this`store
    {
      if slot.Some? && slot.value < |store| then Some(store[slot.value]) else None
    }

    /**
     * The collection is the one the scheduler started from with its pledge
     * renewed once per logged renewal and stamped with the last one (which
     * is `RenewedStore(origin, pledgeName, renewals)`, see `StoreInSlot`),
     * the kept copy is the stored document, and a caught-up scheduler runs
     * on a pledge with a positive period.
     */
    ghost predicate Valid()
      reads this
    {
      && FindFirst(origin, pledgeName) == slot
      && (slot.None? ==> store == origin)
      && (slot.Some? ==> store == origin[slot.value := RenewedCount(origin[slot.value], |renewals|, LastOf(renewals))])
      && (pledge.Some? ==> Doc() == pledge)
      && (caughtUp ==> Runnable(Doc()))
    }

    /** The owned document is the one `find_one` picks by name: renewals never move it. */
    lemma DocIsFound()
      requires Valid()
      ensures FindFirst(store, pledgeName) == slot
      ensures FindOne(store, pledgeName) == Doc()
    {
      if slot.Some? {
        var i := slot.value;
        ReplaceFirstKeepsLookup(origin, pledgeName, RenewedCount(origin[i], |renewals|, LastOf(renewals)));
      }
    }

    /** The last renewal of the owned document, once it is known to be runnable. */
    ghost function LastRenewal(): int
      reads this`store
      requires Runnable(Doc())
    {
      Load(Doc()).value.0
    }

    /** The renewal period of the owned document, once it is known to be runnable. */
    ghost function Period(): int
      reads this`store
      requires Runnable(Doc())
    {
      Load(Doc()).value.1
    }

    constructor (pledgeName: string, store: seq<Pledge>, now: int)
      ensures Valid()
      ensures this.pledgeName == pledgeName && this.store == store && this.now == now
      ensures origin == store && !caughtUp && pledge == None && renewals == []
    {
      this.pledgeName := pledgeName;
      this.origin := store;
      this.slot := FindFirst(store, pledgeName);
      this.store := store;
      this.now := now;
      caughtUp := false;
      pledge := None;
      renewals := [];
      var i := FindFirst(store, pledgeName);
      if i.Some? {
        assert store[i.value := store[i.value]] == store;
      }
    }

    /** `seconds_diff`: time since `last`. */
    function Since(last: int): (d: int)
      reads this`now
      ensures d >= 0 <==> last <= now
    {
      now - last
    }

    method Sleep(d: nat)
      modifies this`now
      ensures now == old(now) + d
    {
      now := now + d;
    }

    /** `init_pledge`: look the pledge up by name, keep it, read its last renewal and frequency. */
    method InitPledge() returns (r: Result<(int, int), LoadError>)
      requires Valid()
      modifies this`pledge
      ensures Valid()
      ensures r == Load(Doc())
      ensures pledge == if Doc().Some? then Doc() else old(pledge)
    {
      DocIsFound();
      var found := FindOne(store, pledgeName);
      if found.None? {
        return Err(Missing);
      }
      pledge := found;
      match found.value.frequency
      case Named(_) =>
        r := Err(NotADuration);
      case Duration(ms) =>
        r := Ok((found.value.lastUpdated, ms));
    }

    /** The write of `update_pledge`: one renewal at the current instant, stored and kept. */
    method RenewNow()
      requires Valid() && pledge.Some?
      modifies this`store, this`pledge, this`renewals
      ensures Valid() && pledge.Some?
      ensures renewals == old(renewals) + [now]
      ensures pledge == Some(Renewed(old(pledge).value, now))
      ensures caughtUp ==> Period() == old(Period())
    {
      DocIsFound();
      var i := FindFirst(store, pledgeName).value;
      var updated := Renewed(pledge.value, now);
      store := store[i := store[i].(impact := updated.impact, streak := updated.streak, lastUpdated := now)];
      pledge := Some(updated);
      RenewedCountRestamp(origin[i], |renewals|, LastOf(renewals), now, now);
      renewals := renewals + [now];
      assert LastOf(renewals) == now;
    }

    /**
     * `update_pledge`: renew once at the current instant, write the three
     * fields back, and, once caught up, go on keeping the pledge.
     */
    method UpdatePledge(fuel: nat) returns (stop: Option<Stop>)
      requires Valid() && pledge.Some?
      modifies this
      decreases fuel, 0
      ensures Valid() && pledge.Some? && caughtUp == old(caughtUp)
      ensures !old(caughtUp) ==> && stop == None && now == old(now)
                                 && renewals == old(renewals) + [old(now)]
                                 && pledge == Some(Renewed(old(pledge).value, old(now)))
      ensures old(caughtUp) ==> && stop == Some(FuelSpent) && Period() == old(Period())
                                && renewals == old(renewals) + Steady(old(now), Period() + BUFFER, fuel + 1)
    {
      var at := now;
      RenewNow();
      if !caughtUp {
        return None;
      }
      if fuel == 0 {
        assert Steady(at, Period() + BUFFER, 1) == [at];
        return Some(FuelSpent);
      }
      ghost var log := renewals;
      ghost var f := Period();
      assert LastRenewal() == at;
      var s := KeepPledge(fuel - 1);
      SteadyLog(old(renewals), at, f, fuel, log, renewals);
      stop := Some(s);
    }

    /**
     * `_keep_pledge`: load the pledge; if not yet caught up, catch up (whose
     * final renewal keeps the pledge from there on); otherwise sleep until a
     * full period has passed since the loaded renewal, then renew.
     */
    method KeepPledge(fuel: nat) returns (stop: Stop)
      requires Valid()
      modifies this
      decreases fuel, 3
      ensures Valid()
      ensures !Runnable(old(Doc())) ==> && stop.LoadFailed? && caughtUp == old(caughtUp)
                                        && renewals == old(renewals) && now == old(now)
      ensures Runnable(old(Doc())) ==> && stop == FuelSpent && caughtUp && pledge.Some?
                                       && Period() == old(Period())
      ensures Runnable(old(Doc())) && !old(caughtUp) ==>
                renewals == old(renewals) + CatchUp(old(now), old(now) - old(LastRenewal()), old(Period()), fuel + 1)
      ensures Runnable(old(Doc())) && old(caughtUp) ==>
                renewals == old(renewals) + Steady(FirstSteady(old(now), old(LastRenewal()), old(Period())),
                                                   old(Period()) + BUFFER, fuel + 1)
    {
      var loaded := InitPledge();
      if loaded.Err? {
        return LoadFailed(loaded.error);
      }
      var (last, f) := loaded.value;
      if f <= 0 {
        return LoadFailed(NotPositive);
      }
      if !caughtUp {
        // The renewal that ends the catch-up keeps the pledge from then on, so
        // control never comes back here while the scheduler runs.
        stop := CheckLag(last, f, fuel);
        return;
      }
      AwaitPeriod(last, f);
      var s := UpdatePledge(fuel);
      stop := s.value;
    }

    /** The wait loop of `_keep_pledge`: sleep until a full period and the buffer have passed since `last`. */
    method AwaitPeriod(last: int, f: int)
      requires f > 0
      modifies this`now
      ensures now == FirstSteady(old(now), last, f)
    {
      while Since(last) < f
        invariant now == old(now) || (old(now) - last < f && now == last + f + BUFFER)
        decreases f - Since(last)
      {
        var wait := f - Since(last);
        Sleep(wait + BUFFER);
      }
    }

    /**
     * `check_lag`: replay one renewal per whole period waited, then sleep to
     * the next period boundary and renew once more, now caught up.
     */
    method CheckLag(last: int, f: int, fuel: nat) returns (stop: Stop)
      requires Valid() && pledge.Some? && !caughtUp && f > 0
      requires Load(Doc()) == Ok((last, f))
      modifies this
      decreases fuel, 2
      ensures Valid() && caughtUp && pledge.Some? && stop == FuelSpent
      ensures Period() == f
      ensures renewals == old(renewals) + CatchUp(old(now), old(now) - last, f, fuel + 1)
    {
      var waited := Since(last);
      Replay(Lagged(waited, f), fuel);
      ghost var replayed := renewals;
      var remainder := Remainder(waited, f);
      RemainderPositive(waited, f);
      ghost var at := now + remainder;
      stop := Align(remainder, fuel);
      CatchUpLog(old(renewals), old(now), waited, f, fuel + 1, replayed, at, Period() + BUFFER, renewals);
    }

    /** The end of `check_lag`: sleep to the next period boundary and renew there, now caught up. */
    method Align(remainder: nat, fuel: nat) returns (stop: Stop)
      requires Valid() && pledge.Some? && !caughtUp && Runnable(Doc())
      modifies this
      decreases fuel, 1
      ensures Valid() && caughtUp && pledge.Some? && stop == FuelSpent
      ensures Period() == old(Period())
      ensures renewals == old(renewals) + Steady(old(now) + remainder, Period() + BUFFER, fuel + 1)
    {
      caughtUp := true;
      Sleep(remainder);
      var s := UpdatePledge(fuel);
      stop := s.value;
    }

    /** The catch-up loop of `check_lag`: `count` renewals, all at the current instant. */
    method Replay(count: nat, fuel: nat)
      requires Valid() && pledge.Some? && !caughtUp
      requires Runnable(Doc())
      modifies this
      decreases fuel, 1
      ensures Valid() && pledge.Some? && !caughtUp && now == old(now)
      ensures Runnable(Doc()) && Period() == old(Period())
      ensures renewals == old(renewals) + Repeat(old(now), count)
    {
      var i := 0;
      while i < count
        invariant 0 <= i <= count
        invariant Valid() && pledge.Some? && !caughtUp && now == old(now)
        invariant Runnable(Doc()) && Period() == old(Period())
        invariant renewals == old(renewals) + Repeat(old(now), i)
      {
        var _ := UpdatePledge(fuel);
        i := i + 1;
      }
    }
  }
}
