/**
 Publishing a worker: initialization is attempted on demand and, after failures, no sooner than
 an exponential backoff with a ceiling allows.
 */
module WorkerInit {
  import opened Numeric

  const INIT_RETRY_INITIAL_MS: nat := 1000
  const INIT_RETRY_MAX_MS: nat := 5000

  const SIGN_BIT: int := 0x8000_0000_0000_0000

  datatype EnsureRc = Ready | TooSoon | InitFailed

  // ----- The machine ---------------------------------------------------------------------------

  /** `attempts` is history: the times at which initialization ran. */
  datatype InitState = InitState(published: bool, retryAt: nat, retryDelay: nat, attempts: seq<nat>)

  datatype Call = Call(now: nat, initOk: bool)

  function NextDelay(delay: nat): nat {
    if delay < INIT_RETRY_MAX_MS / 2 then delay * 2 else INIT_RETRY_MAX_MS
  }

  function Ensure(s: InitState, c: Call): InitState {
    if s.published || (s.retryAt != 0 && s.retryAt > c.now) then s
    else if c.initOk then InitState(true, 0, 0, s.attempts + [c.now])
    else
      var delay := if s.retryDelay == 0 then INIT_RETRY_INITIAL_MS else s.retryDelay;
      InitState(false, c.now + delay, NextDelay(delay), s.attempts + [c.now])
  }

  function RunCalls(s: InitState, calls: seq<Call>): InitState
    decreases |calls|
  {
    if calls == [] then s else RunCalls(Ensure(s, calls[0]), calls[1..])
  }

  // ----- The documented delays -------------------------------------------------------------------

  function Doubled(k: nat): nat {
    if k == 0 then 1 else 2 * Doubled(k - 1)
  }

  /** The pause after the k-th consecutive failure, k counted from one. */
  function Pause(k: nat): nat
    requires k >= 1
  {
    var d := INIT_RETRY_INITIAL_MS * Doubled(k - 1);
    if d <= INIT_RETRY_MAX_MS then d else INIT_RETRY_MAX_MS
  }

  function PauseSum(k: nat): nat {
    if k == 0 then 0 else PauseSum(k - 1) + Pause(k)
  }

  lemma {:induction false} DoubledGrows(k: nat)
    ensures Doubled(k) >= 1 && (k >= 3 ==> Doubled(k) >= 8)
  {
    if k > 0 {
      DoubledGrows(k - 1);
    }
    if k == 3 {
      assert Doubled(1) == 2 && Doubled(2) == 4;
    }
  }

  /** Doubling with the early ceiling gives exactly the documented pauses. */
  lemma NextDelayIsNextPause(k: nat)
    requires k >= 1
    ensures NextDelay(Pause(k)) == Pause(k + 1)
  {
    if k >= 4 {
      DoubledGrows(k - 1);
      DoubledGrows(k);
    } else {
      assert Doubled(0) == 1 && Doubled(1) == 2 && Doubled(2) == 4 && Doubled(3) == 8;
    }
  }

  // ----- What every run keeps ----------------------------------------------------------------------

  /** Consecutive attempts are separated by the pauses; while unpublished, the fields say when the
      next attempt may run; a worker is published exactly by an attempt. */
  ghost predicate Spaced(s: InitState) {
    var k := |s.attempts|;
    && (forall i | 0 <= i < k - 1 :: s.attempts[i + 1] >= s.attempts[i] + Pause(i + 1))
    && (s.published ==> k >= 1)
    && (!s.published && k == 0 ==> s.retryAt == 0 && s.retryDelay == 0)
    && (!s.published && k >= 1 ==> s.retryAt == s.attempts[k - 1] + Pause(k) && s.retryDelay == Pause(k + 1))
  }

  lemma PausePositive(k: nat)
    requires k >= 1
    ensures Pause(k) >= 1000
  {
    DoubledGrows(k - 1);
  }

  lemma EnsureSpaced(s: InitState, c: Call)
    requires Spaced(s)
    ensures Spaced(Ensure(s, c))
  {
    var k := |s.attempts|;
    var s' := Ensure(s, c);
    if s' != s && k >= 1 {
      PausePositive(k);
      PausePositive(k + 1);
      NextDelayIsNextPause(k + 1);
    }
    assert Pause(1) == 1000 && Pause(2) == 2000 by { assert Doubled(0) == 1 && Doubled(1) == 2; }
  }

  /** In every run, whatever the outcomes of initialization: after k consecutive failures no
      attempt runs before the k-th pause is over, so attempt k comes no earlier than the first one
      plus the sum of the pauses before it. */
  lemma {:induction false} RunSpaced(s: InitState, calls: seq<Call>)
    requires Spaced(s)
    ensures Spaced(RunCalls(s, calls))
    decreases |calls|
  {
    if calls != [] {
      EnsureSpaced(s, calls[0]);
      RunSpaced(Ensure(s, calls[0]), calls[1..]);
    }
  }

  lemma {:induction false} AttemptsAreBackedOff(calls: seq<Call>, k: nat)
    requires k < |RunCalls(InitState(false, 0, 0, []), calls).attempts|
    ensures
      var attempts := RunCalls(InitState(false, 0, 0, []), calls).attempts;
      attempts[k] >= attempts[0] + PauseSum(k)
    decreases k
  {
    RunSpaced(InitState(false, 0, 0, []), calls);
    if k > 0 {
      AttemptsAreBackedOff(calls, k - 1);
    }
  }

  /** A call between a failure and the end of its pause changes nothing, and a call at its end does
      attempt: the pause is exact. */
  lemma PauseIsExact(s: InitState, c: Call)
    requires Spaced(s) && !s.published && |s.attempts| >= 1
    ensures c.now < s.attempts[|s.attempts| - 1] + Pause(|s.attempts|) ==> Ensure(s, c) == s
    ensures c.now >= s.attempts[|s.attempts| - 1] + Pause(|s.attempts|) ==>
              Ensure(s, c).attempts == s.attempts + [c.now] && Ensure(s, c).published == c.initOk
  {
    PausePositive(|s.attempts|);
  }

  // ----- The program -------------------------------------------------------------------------------

  /** `(ngx_msec_int_t) (a - b) > 0`: the wrapped difference, read as signed, is positive. */
  predicate SignedAfter(a: u64, b: u64) {
    0 < (a - b) % (U64_MAX + 1) <= U64_MAX / 2
  }

  /** That reads the order of the two clock values right if and only if they are less than half the
      range apart. */
  lemma SignedAfterIsExact(a: u64, b: u64)
    ensures (SignedAfter(a, b) <==> a > b) <==> -SIGN_BIT <= a - b < SIGN_BIT
  {
    if a >= b {
      assert (a - b) % (U64_MAX + 1) == a - b;
    } else {
      assert (a - b) % (U64_MAX + 1) == a - b + U64_MAX + 1;
    }
  }

  class MainConf {
    var worker: bool
    var initRetryAt: u64
    var initRetryDelay: u64
    ghost var attempts: seq<nat>

    ghost function State(): InitState
      reads this
    {
      InitState(worker, initRetryAt, initRetryDelay, attempts)
    }

    constructor ()
      ensures State() == InitState(false, 0, 0, [])
    {
      worker, initRetryAt, initRetryDelay, attempts := false, 0, 0, [];
    }

    /** One initialization: it publishes a worker only if it succeeds. */
    method WorkerInit(now: u64, initOk: bool) returns (ok: bool)
      requires !worker
      modifies this`worker, this`attempts
      ensures ok == initOk && worker == initOk && attempts == old(attempts) + [now]
    {
      attempts := attempts + [now];
      if !initOk {
        return false;
      }
      worker := true;
      return true;
    }

    method WorkerEnsure(now: u64, initOk: bool) returns (rc: EnsureRc)
      requires now + INIT_RETRY_MAX_MS <= U64_MAX && initRetryDelay <= INIT_RETRY_MAX_MS
      requires initRetryAt != 0 ==> -SIGN_BIT <= initRetryAt - now < SIGN_BIT
      modifies this
      ensures State() == Ensure(old(State()), Call(now, initOk))
      ensures initRetryDelay <= INIT_RETRY_MAX_MS
      ensures initRetryAt == 0 || initRetryAt == old(initRetryAt) || now <= initRetryAt <= now + INIT_RETRY_MAX_MS
      ensures rc.Ready? <==> worker
      ensures rc.TooSoon? ==> State() == old(State())
      ensures rc.InitFailed? ==> attempts == old(attempts) + [now] && !worker
    {
      if worker {
        return Ready;
      }
      SignedAfterIsExact(initRetryAt, now);
      if initRetryAt != 0 && SignedAfter(initRetryAt, now) {
        return TooSoon;
      }
      initRetryAt := 0;
      var ok := WorkerInit(now, initOk);
      if ok {
        initRetryDelay := 0;
        return Ready;
      }
      var delay := initRetryDelay;
      if delay == 0 {
        delay := INIT_RETRY_INITIAL_MS;
      }
      initRetryAt := now + delay;
      initRetryDelay := if delay < INIT_RETRY_MAX_MS / 2 then delay * 2 else INIT_RETRY_MAX_MS;
      return InitFailed;
    }

    /** Any sequence of requests for a worker, at times within half the range of the clock and clear
        of its wrap-around: the program takes exactly the steps of the machine, and a fresh one spaces
        its attempts by the documented pauses. */
    method EnsureRepeatedly(ghost base: nat, calls: seq<Call>)
      requires forall c | c in calls :: base <= c.now && c.now + INIT_RETRY_MAX_MS < base + SIGN_BIT
                                        && c.now + INIT_RETRY_MAX_MS <= U64_MAX
      requires initRetryDelay <= INIT_RETRY_MAX_MS && (initRetryAt != 0 ==> base <= initRetryAt < base + SIGN_BIT)
      modifies this
      ensures State() == RunCalls(old(State()), calls)
      ensures old(State()) == InitState(false, 0, 0, []) ==>
                forall k | 0 <= k < |attempts| :: attempts[k] >= attempts[0] + PauseSum(k)
    {
      ghost var s := State();
      for i := 0 to |calls|
        invariant RunCalls(s, calls) == RunCalls(State(), calls[i..])
        invariant initRetryDelay <= INIT_RETRY_MAX_MS && (initRetryAt != 0 ==> base <= initRetryAt < base + SIGN_BIT)
      {
        assert calls[i..][0] == calls[i] && calls[i..][1..] == calls[i + 1..];
        assert calls[i] in calls;
        var rc := WorkerEnsure(calls[i].now, calls[i].initOk);
      }
      if s == InitState(false, 0, 0, []) {
        forall k | 0 <= k < |attempts| ensures attempts[k] >= attempts[0] + PauseSum(k) {
          AttemptsAreBackedOff(calls, k);
        }
      }
    }
  }
}
