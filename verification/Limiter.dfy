/** The inbound limiter (internal/api/inbound_limiter.go): a token bucket per key and a global concurrency bound. */
module Limiter {
  import opened Wrappers
  import opened Text

  /** Seconds. */
  type Moment = real

  datatype Bucket = Bucket(tokens: real, last: Moment)

  type Buckets = map<string, Bucket>

  // ---------- one call ----------

  /** The tokens that accrue over a time. */
  function Gain(elapsed: real, qps: real): real {
    elapsed * qps
  }

  /** The bucket of a key as a call at `now` finds it: refilled, and full when it is new. */
  function Refilled(buckets: Buckets, key: string, qps: real, now: Moment): Bucket {
    var b := if key in buckets then buckets[key] else Bucket(qps, now);
    var tokens := b.tokens + Gain(now - b.last, qps);
    Bucket(if tokens > qps then qps else tokens, now)
  }

  predicate Metered(key: string, qps: real) {
    qps > 0.0 && TrimSpace(key) != ""
  }

  predicate Admits(buckets: Buckets, key: string, qps: real, now: Moment) {
    Metered(key, qps) ==> Refilled(buckets, TrimSpace(key), qps, now).tokens >= 1.0
  }

  function After(buckets: Buckets, key: string, qps: real, now: Moment): Buckets {
    if !Metered(key, qps) then buckets
    else
      var b := Refilled(buckets, TrimSpace(key), qps, now);
      buckets[TrimSpace(key) := if b.tokens >= 1.0 then b.(tokens := b.tokens - 1.0) else b]
  }

  // ---------- runs ----------

  datatype Call = Call(key: string, now: Moment)

  function Run(buckets: Buckets, qps: real, calls: seq<Call>): Buckets
    decreases |calls|
  {
    if calls == [] then buckets
    else Run(After(buckets, calls[0].key, qps, calls[0].now), qps, calls[1..])
  }

  /** How many calls for the key the run admits. */
  function Admitted(buckets: Buckets, qps: real, calls: seq<Call>, key: string): nat
    decreases |calls|
  {
    if calls == [] then 0
    else
      var c := calls[0];
      (if TrimSpace(c.key) == key && Admits(buckets, c.key, qps, c.now) then 1 else 0)
      + Admitted(After(buckets, c.key, qps, c.now), qps, calls[1..], key)
  }

  /** Time does not run backwards. */
  ghost predicate Ordered(calls: seq<Call>, since: Moment)
    decreases |calls|
  {
    calls == [] || (calls[0].now >= since && Ordered(calls[1..], calls[0].now))
  }

  function LastTime(calls: seq<Call>, since: Moment): Moment {
    if calls == [] then since else calls[|calls| - 1].now
  }

  /** Every bucket holds between 0 and qps tokens and was last touched no later than `now`. */
  ghost predicate InRange(buckets: Buckets, qps: real, now: Moment) {
    forall k :: k in buckets ==> 0.0 <= buckets[k].tokens <= qps && buckets[k].last <= now
  }

  lemma Gains(a: real, b: real, qps: real)
    ensures Gain(a + b, qps) == Gain(a, qps) + Gain(b, qps)
    ensures a >= 0.0 && qps > 0.0 ==> Gain(a, qps) >= 0.0
    ensures Gain(0.0, qps) == 0.0
  {
  }

  /** Tokens stay between 0 and qps over every run. */
  lemma StaysInRange(buckets: Buckets, key: string, qps: real, now: Moment, since: Moment)
    requires InRange(buckets, qps, since) && since <= now
    ensures InRange(After(buckets, key, qps, now), qps, now)
  {
    if Metered(key, qps) && TrimSpace(key) in buckets {
      Gains(now - buckets[TrimSpace(key)].last, 0.0, qps);
    }
    Gains(0.0, 0.0, qps);
    hide TrimSpace, Gain;
  }

  lemma {:induction false} RunInRange(buckets: Buckets, qps: real, calls: seq<Call>, since: Moment)
    requires InRange(buckets, qps, since) && Ordered(calls, since)
    ensures InRange(Run(buckets, qps, calls), qps, LastTime(calls, since))
    decreases |calls|
  {
    if calls != [] {
      hide InRange, After;
      StaysInRange(buckets, calls[0].key, qps, calls[0].now, since);
      RunInRange(After(buckets, calls[0].key, qps, calls[0].now), qps, calls[1..], calls[0].now);
    }
  }

  /** What the key could still spend at `now`, were nothing capped. */
  ghost function Credit(buckets: Buckets, key: string, qps: real, now: Moment): real
    requires key in buckets
  {
    buckets[key].tokens + Gain(now - buckets[key].last, qps)
  }

  /** Admitting a call costs a token of credit; nothing ever adds credit beyond the refill. */
  lemma CreditSpent(buckets: Buckets, c: Call, key: string, qps: real, now: Moment)
    requires qps > 0.0 && key in buckets && key != "" && c.now <= now
    ensures var after := After(buckets, c.key, qps, c.now);
            && key in after
            && Credit(after, key, qps, now) +
              (if TrimSpace(c.key) == key && Admits(buckets, c.key, qps, c.now) then 1.0 else 0.0)
               <= Credit(buckets, key, qps, now)
  {
    Gains(c.now - buckets[key].last, now - c.now, qps);
    assert c.now - buckets[key].last + (now - c.now) == now - buckets[key].last;
    hide TrimSpace, Gain;
  }

  lemma {:induction false} AdmittedWithinCredit(buckets: Buckets, qps: real, calls: seq<Call>, since: Moment,
          key: string, now: Moment)
    requires qps > 0.0 && key in buckets && key != "" && InRange(buckets, qps, since)
    requires Ordered(calls, since) && LastTime(calls, since) <= now
    ensures Admitted(buckets, qps, calls, key) as real <= Credit(buckets, key, qps, now)
    decreases |calls|
  {
    if calls == [] {
      Gains(now - buckets[key].last, 0.0, qps);
      hide Gain;
    } else {
      var c := calls[0];
      OrderedBelow(calls, since);
      CreditSpent(buckets, c, key, qps, now);
      StaysInRange(buckets, c.key, qps, c.now, since);
      hide InRange, After, Credit, Admits, Gain;
      AdmittedWithinCredit(After(buckets, c.key, qps, c.now), qps, calls[1..], c.now, key, now);
    }
  }

  lemma {:induction false} OrderedBelow(calls: seq<Call>, since: Moment)
    requires Ordered(calls, since) && calls != []
    ensures since <= calls[0].now <= LastTime(calls, since)
    ensures LastTime(calls[1..], calls[0].now) == LastTime(calls, since)
    decreases |calls|
  {
    if |calls| > 1 {
      OrderedBelow(calls[1..], calls[0].now);
    }
  }

  /**
   * In every window that starts with a call for the key, at most qps * elapsed + qps of its calls are admitted,
   * whatever state the run before it left.
   */
  lemma WindowIsBounded(buckets: Buckets, qps: real, since: Moment, window: seq<Call>, key: string)
    requires qps > 0.0 && InRange(buckets, qps, since) && Ordered(window, since)
    requires window != [] && TrimSpace(window[0].key) == key != ""
    ensures Admitted(buckets, qps, window, key) as real <= Gain(LastTime(window, since) - window[0].now, qps) + qps
  {
    var c, now := window[0], LastTime(window, since);
    OrderedBelow(window, since);
    StaysInRange(buckets, c.key, qps, c.now, since);
    FirstSpend(buckets, c, key, qps);
    hide After, Admits, InRange, Gain;
    AdmittedWithinCredit(After(buckets, c.key, qps, c.now), qps, window[1..], c.now, key, now);
  }

  lemma FirstSpend(buckets: Buckets, c: Call, key: string, qps: real)
    requires qps > 0.0 && TrimSpace(c.key) == key != ""
    ensures var after := After(buckets, c.key, qps, c.now);
            && key in after && after[key].last == c.now
            && after[key].tokens + (if Admits(buckets, c.key, qps, c.now) then 1.0 else 0.0) <= qps
  {
    Gains(0.0, 0.0, qps);
    hide TrimSpace, Gain;
  }

  // ---------- a patient caller ----------

  /** The calls for the key come at least 1/qps apart, the first one that long after `last`. */
  ghost predicate Spaced(calls: seq<Call>, key: string, qps: real, last: Option<Moment>)
    decreases |calls|
  {
    calls == []
    || (var mine := TrimSpace(calls[0].key) == key;
        && (mine && last.Some? ==> Gain(calls[0].now - last.value, qps) >= 1.0)
        && Spaced(calls[1..], key, qps, if mine then Some(calls[0].now) else last))
  }

  /** How many calls for the key there are. */
  function Calls(calls: seq<Call>, key: string): nat {
    if calls == [] then 0 else (if TrimSpace(calls[0].key) == key then 1 else 0) + Calls(calls[1..], key)
  }

  function LastCall(buckets: Buckets, key: string): Option<Moment> {
    if key in buckets then Some(buckets[key].last) else None
  }

  /** A caller spacing its calls 1/qps apart is always admitted once qps is at least 1, and never below. */
  lemma {:induction false} PatientCallers(buckets: Buckets, qps: real, calls: seq<Call>, since: Moment, key: string)
    requires qps > 0.0 && key != "" && InRange(buckets, qps, since) && Ordered(calls, since)
    requires Spaced(calls, key, qps, LastCall(buckets, key))
    ensures Admitted(buckets, qps, calls, key) == if qps >= 1.0 then Calls(calls, key) else 0
    decreases |calls|
  {
    if calls != [] {
      var c := calls[0];
      StaysInRange(buckets, c.key, qps, c.now, since);
      PatientCall(buckets, qps, c, key);
      hide InRange, After, Admits, TrimSpace, Gain;
      PatientCallers(After(buckets, c.key, qps, c.now), qps, calls[1..], c.now, key);
    }
  }

  lemma PatientCall(buckets: Buckets, qps: real, c: Call, key: string)
    requires qps > 0.0 && key != ""
    requires key in buckets ==> 0.0 <= buckets[key].tokens
    requires TrimSpace(c.key) == key && key in buckets ==> Gain(c.now - buckets[key].last, qps) >= 1.0
    ensures TrimSpace(c.key) == key ==> (Admits(buckets, c.key, qps, c.now) <==> qps >= 1.0)
    ensures LastCall(After(buckets, c.key, qps, c.now), key) ==
      if TrimSpace(c.key) == key then Some(c.now) else LastCall(buckets, key)
  {
    Gains(0.0, 0.0, qps);
    hide TrimSpace, Gain;
  }

  // ---------- the limiter ----------

  class InboundLimiter {
    const perKeyQPS: real
    const globalConcurrency: int
    var keyBuckets: Buckets
    var inFlight: int

    constructor (qps: real, concurrency: int)
      ensures keyBuckets == map[] && inFlight == 0 && perKeyQPS == qps && globalConcurrency == concurrency
    {
      perKeyQPS, globalConcurrency := qps, concurrency;
      keyBuckets, inFlight := map[], 0;
    }

    method AllowKey(rawKey: string, now: Moment) returns (allowed: bool)
      modifies this`keyBuckets
      ensures allowed == Admits(old(keyBuckets), rawKey, perKeyQPS, now)
      ensures keyBuckets == After(old(keyBuckets), rawKey, perKeyQPS, now)
    {
      if perKeyQPS <= 0.0 {
        return true;
      }
      var key := TrimSpace(rawKey);
      if key == "" {
        return true;
      }
      hide TrimSpace, Gain;
      if key !in keyBuckets {
        keyBuckets := keyBuckets[key := Bucket(perKeyQPS, now)];
      }
      var bucket := keyBuckets[key];
      var elapsed := now - bucket.last;
      bucket := bucket.(tokens := bucket.tokens + Gain(elapsed, perKeyQPS));
      if bucket.tokens > perKeyQPS {
        bucket := bucket.(tokens := perKeyQPS);
      }
      bucket := bucket.(last := now);
      allowed := !(bucket.tokens < 1.0);
      if allowed {
        bucket := bucket.(tokens := bucket.tokens - 1.0);
      }
      keyBuckets := keyBuckets[key := bucket];
      assert keyBuckets == old(keyBuckets)[key := bucket];
    }

    /** `ticket` says that a release is owed. */
    method AcquireGlobal() returns (ticket: bool, ok: bool)
      modifies this`inFlight
      ensures (ticket, ok, inFlight) == Acquired(globalConcurrency, old(inFlight))
    {
      if globalConcurrency <= 0 {
        return false, true;
      }
      if inFlight >= globalConcurrency {
        return false, false;
      }
      inFlight := inFlight + 1;
      return true, true;
    }

    method Release()
      modifies this`inFlight
      ensures inFlight == Released(old(inFlight))
    {
      if inFlight > 0 {
        inFlight := inFlight - 1;
      }
    }
  }

  // ---------- concurrency ----------

  function Acquired(limit: int, inFlight: int): (bool, bool, int) {
    if limit <= 0 then (false, true, inFlight)
    else if inFlight >= limit then (false, false, inFlight)
    else (true, true, inFlight + 1)
  }

  function Released(inFlight: int): int {
    if inFlight > 0 then inFlight - 1 else inFlight
  }

  /** A caller asks for a place, or the holder of ticket number `ticket` gives it back. */
  datatype Use = Acquire | GiveBack(ticket: nat)

  /** The tickets handed out and not given back, numbered in the order of asking. */
  function Held(limit: int, inFlight: int, held: set<nat>, uses: seq<Use>, next: nat): (r: (int, set<nat>))
    decreases |uses|
  {
    if uses == [] then (inFlight, held)
    else
      match uses[0]
      case Acquire =>
        var (ticket, ok, n) := Acquired(limit, inFlight);
        Held(limit, n, if ticket then held + {next} else held, uses[1..], next + 1)
      case GiveBack(t) =>
        Held(limit, if t in held then Released(inFlight) else inFlight, held - {t}, uses[1..], next)
  }

  /** While every holder gives back once, the count is the number of tickets out and never exceeds the limit. */
  lemma {:induction false} InFlightIsHeld(limit: int, inFlight: int, held: set<nat>, uses: seq<Use>, next: nat)
    requires inFlight == |held| && (limit > 0 ==> inFlight <= limit) && forall t :: t in held ==> t < next
    ensures var r := Held(limit, inFlight, held, uses, next); r.0 == |r.1| && (limit > 0 ==> r.0 <= limit)
    decreases |uses|
  {
    if uses != [] {
      match uses[0]
      case Acquire =>
        var (ticket, ok, n) := Acquired(limit, inFlight);
        InFlightIsHeld(limit, n, if ticket then held + {next} else held, uses[1..], next + 1);
      case GiveBack(t) =>
        InFlightIsHeld(limit, if t in held then Released(inFlight) else inFlight, held - {t}, uses[1..], next);
    }
  }
}
