/**
 * The login rate limiter of the web back end: a module-level map from a
 * login key to its failed-attempt count and the time of the last failure.
 * Ten failures lock the key out until five minutes have passed since the last
 * one. Times are milliseconds; `now` is Date.now(), passed in.
 */
module LoginLimiter {
  import opened Wrappers
  import opened JsNum

  const MaxLoginAttempts := 10
  const LockoutDuration := 5 * 60 * 1000

  datatype Attempts = Attempts(count: nat, lastAttempt: int)

  /** `{ allowed, retryAfter }`: retryAfter in seconds, present only on a denial. */
  datatype Verdict = Verdict(allowed: bool, retryAfter: Option<int>)

  /** The entry is older than the lockout window. */
  predicate Expired(e: Attempts, now: int)
  {
    now - e.lastAttempt > LockoutDuration
  }

  /** checkRateLimit's answer. */
  function Decide(attempts: map<string, Attempts>, key: string, now: int): (v: Verdict)
    ensures !v.allowed <==> key in attempts && !Expired(attempts[key], now)
                            && attempts[key].count >= MaxLoginAttempts
    ensures v.allowed <==> v.retryAfter.None?
    ensures !v.allowed ==> v.retryAfter.value * 1000 >= LockoutDuration - (now - attempts[key].lastAttempt)
                           && (v.retryAfter.value - 1) * 1000 < LockoutDuration - (now - attempts[key].lastAttempt)
  {
    if key !in attempts then Verdict(true, None)
    else
      var e := attempts[key];
      if Expired(e, now) then Verdict(true, None)
      else if e.count >= MaxLoginAttempts then
        Verdict(false, Some(CeilDiv(LockoutDuration - (now - e.lastAttempt), 1000)))
      else Verdict(true, None)
  }

  /** checkRateLimit's effect on the map: an expired entry is deleted. */
  function AfterCheck(attempts: map<string, Attempts>, key: string, now: int): (m: map<string, Attempts>)
    ensures key in attempts && Expired(attempts[key], now) ==> m == attempts - {key}
    ensures !(key in attempts && Expired(attempts[key], now)) ==> m == attempts
  {
    if key in attempts && Expired(attempts[key], now) then attempts - {key} else attempts
  }

  /** recordFailedAttempt's effect on the map. */
  function AfterFailure(attempts: map<string, Attempts>, key: string, now: int): (m: map<string, Attempts>)
    ensures key in m && m[key].lastAttempt == now
    ensures m[key].count == (if key in attempts then attempts[key].count + 1 else 1)
    ensures forall k :: k != key ==> (k in m <==> k in attempts) && (k in m ==> m[k] == attempts[k])
  {
    if key !in attempts then attempts[key := Attempts(1, now)]
    else attempts[key := Attempts(attempts[key].count + 1, now)]
  }

  /** A denied key is told to wait between 0 and 300 seconds, provided the
      clock has not gone back since its last failure. */
  lemma RetryAfterBounds(attempts: map<string, Attempts>, key: string, now: int)
    requires key in attempts && now >= attempts[key].lastAttempt
    requires !Decide(attempts, key, now).allowed
    ensures 0 <= Decide(attempts, key, now).retryAfter.value <= 300
  {
    var r := Decide(attempts, key, now).retryAfter.value;
    var rest := LockoutDuration - (now - attempts[key].lastAttempt);
    assert 0 <= rest <= 300000;
    assert r * 1000 >= rest && (r - 1) * 1000 < rest;
  }

  /** At the very edge of the window the wait is 0 seconds and the key is still denied. */
  lemma RetryAfterZeroAtEdge(attempts: map<string, Attempts>, key: string)
    requires key in attempts && attempts[key].count >= MaxLoginAttempts
    ensures Decide(attempts, key, attempts[key].lastAttempt + LockoutDuration) == Verdict(false, Some(0))
  {
  }

  /** An unknown key is always allowed. */
  lemma UnknownKeyAllowed(attempts: map<string, Attempts>, key: string, now: int)
    requires key !in attempts
    ensures Decide(attempts, key, now) == Verdict(true, None)
    ensures AfterCheck(attempts, key, now) == attempts
  {
  }

  /** n failures at one instant, starting from no entry. */
  function Failures(attempts: map<string, Attempts>, key: string, now: int, n: nat): map<string, Attempts>
  {
    if n == 0 then attempts else AfterFailure(Failures(attempts, key, now, n - 1), key, now)
  }

  lemma {:induction false} FailuresCount(attempts: map<string, Attempts>, key: string, now: int, n: nat)
    requires key !in attempts && n >= 1
    ensures key in Failures(attempts, key, now, n)
    ensures Failures(attempts, key, now, n)[key] == Attempts(n, now)
  {
    if n > 1 {
      FailuresCount(attempts, key, now, n - 1);
    }
  }

  /** Ten failures lock a fresh key out; nine do not. */
  lemma TenFailuresLockOut(attempts: map<string, Attempts>, key: string, now: int)
    requires key !in attempts
    ensures !Decide(Failures(attempts, key, now, 10), key, now).allowed
    ensures Decide(Failures(attempts, key, now, 9), key, now).allowed
  {
    FailuresCount(attempts, key, now, 10);
    FailuresCount(attempts, key, now, 9);
  }

  /** Once the window has passed, a locked-out key is allowed again and its entry is gone. */
  lemma LockoutExpires(attempts: map<string, Attempts>, key: string, now: int)
    requires key in attempts && now > attempts[key].lastAttempt + LockoutDuration
    ensures Decide(attempts, key, now).allowed
    ensures key !in AfterCheck(attempts, key, now)
    ensures Decide(AfterCheck(attempts, key, now), key, now).allowed
  {
  }

  /** A failure inside the window restarts it: a locked-out key that fails
      again must wait the full five minutes. */
  lemma FailureRestartsWindow(attempts: map<string, Attempts>, key: string, now: int)
    requires key in attempts && attempts[key].count >= MaxLoginAttempts
    ensures Decide(AfterFailure(attempts, key, now), key, now) == Verdict(false, Some(300))
  {
  }

  /** The limiter itself: the `loginAttempts` map and the three operations on it. */
  class RateLimiter {
    var loginAttempts: map<string, Attempts>

    constructor ()
      ensures loginAttempts == map[]
    {
      loginAttempts := map[];
    }

    method CheckRateLimit(key: string, now: int) returns (v: Verdict)
      modifies this
      ensures v == Decide(old(loginAttempts), key, now)
      ensures loginAttempts == AfterCheck(old(loginAttempts), key, now)
    {
      if key !in loginAttempts {
        return Verdict(true, None);
      }
      var attempts := loginAttempts[key];
      if now - attempts.lastAttempt > LockoutDuration {
        loginAttempts := loginAttempts - {key};
        return Verdict(true, None);
      }
      if attempts.count >= MaxLoginAttempts {
        var retryAfter := CeilDiv(LockoutDuration - (now - attempts.lastAttempt), 1000);
        return Verdict(false, Some(retryAfter));
      }
      return Verdict(true, None);
    }

    method RecordFailedAttempt(key: string, now: int)
      modifies this
      ensures loginAttempts == AfterFailure(old(loginAttempts), key, now)
    {
      if key !in loginAttempts {
        loginAttempts := loginAttempts[key := Attempts(1, now)];
      } else {
        var attempts := loginAttempts[key];
        loginAttempts := loginAttempts[key := attempts.(count := attempts.count + 1, lastAttempt := now)];
      }
    }

    /** Removes only the given key. */
    method ResetRateLimit(key: string)
      modifies this
      ensures loginAttempts == old(loginAttempts) - {key}
      ensures key !in loginAttempts
    {
      loginAttempts := loginAttempts - {key};
    }
  }
}
