/**
 * The polling state of the two map hooks (`frontend/hooks/useSensorsOnMap.ts`,
 * `frontend/hooks/useUserSensors.ts`) as an explicit state machine: the held
 * list, the loading and error flags, the `consecutiveFailures` and
 * `lastErrorRef` refs, and the period of the running `setInterval`.
 *
 * A refetch cycle is split at its `await`: `Begin` is the synchronous part
 * before the request, `Succeed`/`Fail` the `try`/`catch` with its `finally`.
 * The timer effect re-runs when one of its dependencies changes; of those,
 * only `error` changes during polling, so the period is recomputed exactly
 * when a step changes `error`.
 */
module Poller {
  import opened Wrappers
  import opened MapSensors

  const MaxIntervalMs: int := 60_000
  const DefaultRefetchIntervalMs: int := 5000

  function Pow2(n: nat): (r: nat)
    ensures r >= 1
  {
    if n == 0 then 1 else 2 * Pow2(n - 1)
  }

  function Min(a: int, b: int): int {
    if a <= b then a else b
  }

  /**
   * The timer period: `min(refetchIntervalMs * 2^failures, 60000)`, and no
   * timer at all when the interval is not positive.
   */
  function Backoff(refetchIntervalMs: int, failures: nat): (r: Option<int>)
    ensures r.None? <==> refetchIntervalMs <= 0
    ensures r.Some? ==> 0 < r.value <= MaxIntervalMs
    ensures r.Some? ==> r.value == MaxIntervalMs || r.value == refetchIntervalMs * Pow2(failures)
    ensures r.Some? ==> r.value <= refetchIntervalMs * Pow2(failures)
  {
    if refetchIntervalMs <= 0 then None else Some(Min(refetchIntervalMs * Pow2(failures), MaxIntervalMs))
  }

  lemma {:induction false} Pow2Monotone(m: nat, n: nat)
    requires m <= n
    ensures Pow2(m) <= Pow2(n)
    decreases n
  {
    if m < n {
      Pow2Monotone(m, n - 1);
    }
  }

  lemma {:induction false} Pow2Add(a: nat, b: nat)
    ensures Pow2(a + b) == Pow2(a) * Pow2(b)
    decreases a
  {
    if a > 0 {
      Pow2Add(a - 1, b);
    }
  }

  /** More failures never shorten the period. */
  lemma BackoffMonotone(refetchIntervalMs: int, f: nat, g: nat)
    requires refetchIntervalMs > 0 && f <= g
    ensures Backoff(refetchIntervalMs, f).value <= Backoff(refetchIntervalMs, g).value
  {
    Pow2Monotone(f, g);
    assert refetchIntervalMs * Pow2(f) <= refetchIntervalMs * Pow2(g) by {
      assert refetchIntervalMs * (Pow2(g) - Pow2(f)) >= 0;
    }
  }

  /** Each further failure doubles the period until it reaches the cap. */
  lemma BackoffDoubles(refetchIntervalMs: int, f: nat)
    requires refetchIntervalMs > 0
    ensures Backoff(refetchIntervalMs, f + 1).value == Min(2 * Backoff(refetchIntervalMs, f).value, MaxIntervalMs)
  {
    assert Pow2(f + 1) == 2 * Pow2(f);
    assert refetchIntervalMs * Pow2(f + 1) == 2 * (refetchIntervalMs * Pow2(f));
  }

  /** Sixteen failures in a row always reach the 60 s cap. */
  lemma BackoffReachesCap(refetchIntervalMs: int, f: nat)
    requires refetchIntervalMs > 0 && f >= 16
    ensures Backoff(refetchIntervalMs, f) == Some(MaxIntervalMs)
  {
    Pow2Monotone(16, f);
    assert Pow2(16) == 65536 by {
      assert Pow2(4) == 16;
      Pow2Add(4, 4);
      Pow2Add(8, 8);
    }
    assert refetchIntervalMs * Pow2(f) >= Pow2(f) by {
      assert (refetchIntervalMs - 1) * Pow2(f) >= 0;
    }
  }

  class Poller {
    /** `refetchIntervalMs` of the options (default 5000). */
    const refetchIntervalMs: int
    /** True for `useUserSensors`, whose refetch and timer need a user. */
    const userGated: bool
    const userId: Option<string>
    /**
     * The `sensors` seen by the memoised `refetch` (its dependencies are
     * only `[userId]`): the list of the first render, which is empty.
     */
    const capturedSensors: seq<MapSensor>

    var sensors: seq<MapSensor>
    var loading: bool
    var error: Option<string>
    var consecutiveFailures: nat
    var lastError: Option<string>
    /** The period of the running `setInterval`, or none. */
    var timer: Option<int>

    /** `!userId`: no user, or the empty string. */
    predicate NoUser()
    {
      userId.None? || userId.value == ""
    }

    /** What the timer effect installs for the current failure count. */
    function TimerPeriod(): (p: Option<int>)
      reads this
      ensures userGated && NoUser() ==> p.None?
      ensures !(userGated && NoUser()) ==> p == Backoff(refetchIntervalMs, consecutiveFailures)
    {
      if userGated && NoUser() then None else Backoff(refetchIntervalMs, consecutiveFailures)
    }

    ghost predicate Valid()
      reads this
    {
      && capturedSensors == []
      && (userGated && NoUser() ==> sensors == [] && consecutiveFailures == 0 && timer.None?)
    }

    /** The first render and its timer effect. */
    constructor(refetchIntervalMs: int, userGated: bool, userId: Option<string>)
      ensures Valid()
      ensures this.refetchIntervalMs == refetchIntervalMs && this.userGated == userGated && this.userId == userId
      ensures sensors == [] && loading && error.None? && consecutiveFailures == 0 && lastError.None?
      ensures timer == TimerPeriod()
    {
      this.refetchIntervalMs := refetchIntervalMs;
      this.userGated := userGated;
      this.userId := userId;
      capturedSensors := [];
      sensors := [];
      loading := true;
      error := None;
      consecutiveFailures := 0;
      lastError := None;
      new;
      timer := TimerPeriod();
    }

    /** The timer effect, run when a step has changed `error`. */
    method SyncTimer(previousError: Option<string>)
      modifies this
      ensures timer == if error != previousError then TimerPeriod() else old(timer)
      ensures sensors == old(sensors) && loading == old(loading) && error == old(error)
      ensures consecutiveFailures == old(consecutiveFailures) && lastError == old(lastError)
    {
      if error != previousError {
        timer := TimerPeriod();
      }
    }

    /**
     * The start of `refetch`, as written.  Without a user (user hook only)
     * the list is emptied, loading cleared, and no request is made.
     * Otherwise loading is set when the captured list is empty, which it
     * always is, and the error is cleared.
     */
    method Begin() returns (fetching: bool)
      requires Valid()
      modifies this
      ensures Valid()
      ensures fetching <==> !(userGated && NoUser())
      ensures !fetching ==> sensors == [] && !loading && error == old(error) && timer == old(timer)
      ensures fetching ==> sensors == old(sensors) && loading && error.None?
      ensures fetching ==> timer == if old(error).Some? then TimerPeriod() else old(timer)
      ensures consecutiveFailures == old(consecutiveFailures) && lastError == old(lastError)
    {
      if userGated && NoUser() {
        sensors := [];
        loading := false;
        return false;
      }
      if |capturedSensors| == 0 {
        loading := true;
      }
      var previous := error;
      error := None;
      SyncTimer(previous);
      return true;
    }

    /** The start of `refetch` reading the current list: loading only while nothing is held. */
    method BeginCorrected() returns (fetching: bool)
      requires Valid()
      modifies this
      ensures Valid()
      ensures fetching <==> !(userGated && NoUser())
      ensures !fetching ==> sensors == [] && !loading && error == old(error) && timer == old(timer)
      ensures fetching ==> sensors == old(sensors) && error.None?
      ensures fetching ==> loading == (old(sensors) == [] || old(loading))
      ensures fetching ==> timer == if old(error).Some? then TimerPeriod() else old(timer)
      ensures consecutiveFailures == old(consecutiveFailures) && lastError == old(lastError)
    {
      if userGated && NoUser() {
        sensors := [];
        loading := false;
        return false;
      }
      if |sensors| == 0 {
        loading := true;
      }
      var previous := error;
      error := None;
      SyncTimer(previous);
      return true;
    }

    /**
     * A successful cycle, as written: the list is replaced and the failure
     * count reset, but `error` does not change, so the timer keeps its period.
     */
    method Succeed(list: seq<MapSensor>)
      requires Valid() && !(userGated && NoUser())
      modifies this
      ensures Valid()
      ensures sensors == list && !loading && error == old(error)
      ensures consecutiveFailures == 0 && lastError.None?
      ensures timer == old(timer)
    {
      sensors := list;
      lastError := None;
      consecutiveFailures := 0;
      loading := false;
    }

    /** A successful cycle whose timer follows the reset failure count. */
    method SucceedCorrected(list: seq<MapSensor>)
      requires Valid() && !(userGated && NoUser())
      modifies this
      ensures Valid()
      ensures sensors == list && !loading && error == old(error)
      ensures consecutiveFailures == 0 && lastError.None?
      ensures timer == Backoff(refetchIntervalMs, 0)
    {
      sensors := list;
      lastError := None;
      consecutiveFailures := 0;
      loading := false;
      timer := TimerPeriod();
    }

    /**
     * A failed cycle: the held list is kept, the failure counted, the
     * message shown and remembered; the timer follows when `error` changed.
     */
    method Fail(message: string)
      requires Valid() && !(userGated && NoUser())
      modifies this
      ensures Valid()
      ensures sensors == old(sensors) && !loading && error == Some(message)
      ensures consecutiveFailures == old(consecutiveFailures) + 1 && lastError == Some(message)
      ensures timer == if old(error) != Some(message) then Backoff(refetchIntervalMs, consecutiveFailures) else old(timer)
    {
      var previous := error;
      error := Some(message);
      consecutiveFailures := consecutiveFailures + 1;
      lastError := Some(message);
      loading := false;
      SyncTimer(previous);
    }

    /**
     * A whole cycle with the given result, as written.  After a success the
     * timer holds the period installed when `Begin` cleared the error: the
     * backed-off one for the failure count before the reset.
     */
    method Refetch(c: Cycle)
      requires Valid()
      modifies this
      ensures Valid()
      ensures userGated && NoUser() ==> sensors == [] && !loading && error == old(error) && timer == old(timer)
      ensures !(userGated && NoUser()) && c.Loaded? ==>
        && sensors == c.sensors && consecutiveFailures == 0 && error.None? && !loading
        && timer == if old(error).Some? then Backoff(refetchIntervalMs, old(consecutiveFailures)) else old(timer)
      ensures !(userGated && NoUser()) && c.Failed? ==>
        && sensors == old(sensors) && consecutiveFailures == old(consecutiveFailures) + 1
        && error == Some(c.message) && timer == Backoff(refetchIntervalMs, consecutiveFailures) && !loading
    {
      var fetching := Begin();
      if fetching {
        match c {
          case Loaded(list) => Succeed(list);
          case Failed(message) => Fail(message);
        }
      }
    }
  }

  /** Without a user the user hook neither polls nor shows a list, whatever the interval. */
  method NoUserNoPolling(refetchIntervalMs: int) returns (timer: Option<int>, shown: seq<MapSensor>, loading: bool)
    ensures timer.None? && shown == [] && !loading
  {
    var p := new Poller(refetchIntervalMs, true, None);
    var fetching := p.Begin();
    timer, shown, loading := p.timer, p.sensors, p.loading;
  }

  /** A marker to fill the held list with. */
  const Marker: MapSensor :=
    MapSensor(PurchasedId(JsValue.Number(1.0)), JsValue.Finite(43.2), JsValue.Finite(76.8), JsValue.Number(0.0), true,
              JsValue.Undefined, JsValue.Undefined, JsValue.Undefined, JsValue.Undefined, JsValue.Undefined,
              JsValue.Obj(map[]), JsValue.Undefined, JsValue.Undefined)

  /**
   * As written: with sensors on the map, the next cycle still raises the
   * hook's `loading` flag.  (A consumer that shows its spinner only while
   * the list is empty hides this.)
   */
  method LoadingRaisedEveryCycle() returns (held: nat, loadingDuringRefetch: bool)
    ensures held == 1 && loadingDuringRefetch
  {
    var p := new Poller(DefaultRefetchIntervalMs, false, None);
    var fetching := p.Begin();
    p.Succeed([Marker]);
    fetching := p.Begin();
    held, loadingDuringRefetch := |p.sensors|, p.loading;
  }

  /** Reading the current list, a cycle with sensors on the map keeps the loading flag down. */
  method LoadingStaysDownWhileHolding() returns (held: nat, loadingDuringRefetch: bool)
    ensures held == 1 && !loadingDuringRefetch
  {
    var p := new Poller(DefaultRefetchIntervalMs, false, None);
    var fetching := p.BeginCorrected();
    p.SucceedCorrected([Marker]);
    fetching := p.BeginCorrected();
    held, loadingDuringRefetch := |p.sensors|, p.loading;
  }

  /** As written: after two failures and a recovery, polling stays at the backed-off 20 s. */
  method StaleBackoffAfterRecovery() returns (failures: nat, period: Option<int>)
    ensures failures == 0 && period == Some(20_000)
  {
    var p := new Poller(DefaultRefetchIntervalMs, false, None);
    var fetching := p.Begin();
    p.Fail("Network Error");
    fetching := p.Begin();
    p.Fail("Network Error");
    fetching := p.Begin();
    p.Succeed([]);
    failures, period := p.consecutiveFailures, p.timer;
  }

  /** With the timer following the failure count, recovery restores the nominal 5 s. */
  method BackoffResetAfterRecovery() returns (failures: nat, period: Option<int>)
    ensures failures == 0 && period == Some(DefaultRefetchIntervalMs)
  {
    var p := new Poller(DefaultRefetchIntervalMs, false, None);
    var fetching := p.BeginCorrected();
    p.Fail("Network Error");
    fetching := p.BeginCorrected();
    p.Fail("Network Error");
    fetching := p.BeginCorrected();
    p.SucceedCorrected([]);
    failures, period := p.consecutiveFailures, p.timer;
  }
}
