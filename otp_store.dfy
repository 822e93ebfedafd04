/**
 * The in-memory one-time-code store shared by the sign-in routes: a map from
 * email address to the code sent there and the instant it stops being valid.
 */
module Otp {
  /** `OTPData`; `expires` is a millisecond timestamp. */
  datatype OtpData = OtpData(code: string, expires: int)

  /** The entries a sweep at instant `now` keeps: those not yet past their expiry. */
  function Live(m: map<string, OtpData>, now: int): (r: map<string, OtpData>)
    ensures r.Keys <= m.Keys
    ensures forall k :: k in r ==> r[k] == m[k] && now <= r[k].expires
    ensures forall k :: k in m && now <= m[k].expires ==> k in r
    ensures forall k :: k in m && now > m[k].expires ==> k !in r
  {
    map k | k in m && now <= m[k].expires :: m[k]
  }

  /** Sweeping twice at the same instant removes nothing more than sweeping once. */
  lemma LiveIsIdempotent(m: map<string, OtpData>, now: int)
    ensures Live(Live(m, now), now) == Live(m, now)
  {
  }

  /** Two sweeps amount to one sweep at the later instant. */
  lemma LiveAtLaterInstant(m: map<string, OtpData>, t1: int, t2: int)
    requires t1 <= t2
    ensures Live(Live(m, t1), t2) == Live(m, t2)
    ensures Live(Live(m, t2), t1) == Live(m, t2)
  {
    assert Live(Live(m, t1), t2).Keys == Live(m, t2).Keys;
    assert Live(Live(m, t2), t1).Keys == Live(m, t2).Keys;
  }

  /** The shared `otpStore` map. */
  class OtpStore {
    var entries: map<string, OtpData>

    /** `new Map()` */
    constructor()
      ensures entries == map[]
    {
      entries := map[];
    }

    /**
     * `cleanExpiredOTPs()`: walk the entries and delete, in place, each one
     * whose expiry lies before `now` (the clock reading it takes once).
     */
    method CleanExpiredOtps(now: int)
      modifies this`entries
      ensures entries == Live(old(entries), now)
    {
      ghost var start := entries;
      var pending := entries.Keys;
      while pending != {}
        invariant pending <= start.Keys
        invariant entries.Keys <= start.Keys
        invariant forall k :: k in entries ==> entries[k] == start[k]
        invariant forall k :: k in start && (k in pending || now <= start[k].expires) ==> k in entries
        invariant forall k :: k in entries && k !in pending ==> now <= entries[k].expires
        decreases pending
      {
        var email :| email in pending;
        if now > entries[email].expires {
          entries := entries - {email};
        }
        pending := pending - {email};
      }
      assert entries.Keys == Live(start, now).Keys;
    }
  }
}
