/**
 * The lockout reply (Login-User/utils/helper/get-lockout-response.js): an
 * account stays locked for fifteen minutes after its last failed attempt, and
 * the reply names the remaining time in whole minutes, rounded up and never
 * below one. Times are integer milliseconds; the current time is a parameter.
 */
module Lockout {
  import opened Http

  const LockoutDuration: int := 15 * 60 * 1000
  const Minute: int := 60 * 1000

  /** `Math.ceil(d / m)` for a positive divisor. */
  function CeilDiv(d: int, m: int): (q: int)
    requires m > 0
    ensures m * (q - 1) < d <= m * q
  {
    -((-d) / m)
  }

  function UnlockTime(lastFailed: int): int { lastFailed + LockoutDuration }

  /** Line 4: whole minutes until the unlock time, rounded up, at least one. */
  function RemainingMinutes(lastFailed: int, now: int): (r: int)
    ensures r >= 1
    ensures r >= CeilDiv(UnlockTime(lastFailed) - now, Minute)
    ensures r == 1 || Minute * (r - 1) < UnlockTime(lastFailed) - now <= Minute * r
  {
    var q := CeilDiv(UnlockTime(lastFailed) - now, Minute);
    if q > 1 then q else 1
  }

  /** The reply of lines 6-15: 403 ACCOUNT_LOCKED with the remaining minutes, whatever the inputs. */
  function GetLockoutResponse(lastFailed: int, now: int): (r: Reply)
    ensures r.status == 403 && r.code == "ACCOUNT_LOCKED" && r.message == "Account temporarily locked."
    ensures r.info.Locked? && r.info.remainingTime == RemainingMinutes(lastFailed, now) >= 1
  {
    Reply(403, "Account temporarily locked.", "ACCOUNT_LOCKED", Locked(RemainingMinutes(lastFailed, now)))
  }

  /** One minute is reported exactly from one minute before the unlock time on, and ever after. */
  lemma OneMinuteExactly(lastFailed: int, now: int)
    ensures RemainingMinutes(lastFailed, now) == 1 <==> now >= UnlockTime(lastFailed) - Minute
  {
    var d := UnlockTime(lastFailed) - now;
    var q := CeilDiv(d, Minute);
    if d <= Minute {
      assert Minute * (q - 1) < Minute;
    } else {
      assert Minute < Minute * q;
    }
  }

  /**
   * After a failure in the past at most fifteen minutes are reported, and
   * fifteen exactly during the first minute after it.
   */
  lemma AtMostFifteen(lastFailed: int, now: int)
    requires lastFailed <= now
    ensures RemainingMinutes(lastFailed, now) <= 15
    ensures RemainingMinutes(lastFailed, now) == 15 <==> now - lastFailed < Minute
  {
    var d := UnlockTime(lastFailed) - now;
    var q := CeilDiv(d, Minute);
    assert Minute * (q - 1) < d <= LockoutDuration;
    if now - lastFailed < Minute {
      assert d > Minute * 14;
      assert q > 14;
    } else {
      assert d <= Minute * 14;
      assert q <= 14;
    }
  }

  /** Later requests never see more minutes remaining. */
  lemma Monotone(lastFailed: int, now1: int, now2: int)
    requires now1 <= now2
    ensures RemainingMinutes(lastFailed, now2) <= RemainingMinutes(lastFailed, now1)
  {
  }
}
