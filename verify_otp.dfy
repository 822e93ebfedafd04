/**
 * The verify-otp route: checks a submitted code against the store and, on
 * success, consumes the code and hands out a session token.
 */
module VerifyOtp {
  import opened Wrappers
  import opened Otp

  /**
   * The fields read from the JSON body. A field that is missing from the body
   * is `None`; the body as a whole is `None` when reading or destructuring it
   * throws (not JSON, or JSON `null`).
   */
  datatype Credentials = Credentials(email: Option<string>, code: Option<string>)

  datatype Response =
    | LoggedIn(token: string)
    | Failed(status: int, error: string)

  /** What one request answers and what it leaves in the store. */
  datatype Outcome = Outcome(response: Response, entries: map<string, OtpData>)

  const Unauthorized := Failed(403, "Unauthorized email")
  const NotFound := Failed(400, "No OTP found. Please request a new code.")
  const Expired := Failed(400, "OTP expired. Please request a new code.")
  const WrongCode := Failed(400, "Invalid code. Please try again.")
  const InternalError := Failed(500, "Internal server error")

  /**
   * `POST`, as a function of the configured admin address (`None` when the
   * variable is unset), the request body, the store, the clock reading and
   * the token signer (`None` when signing throws).
   */
  function Post(adminEmail: Option<string>, body: Option<Credentials>, entries: map<string, OtpData>,
                now: int, sign: string -> Option<string>): (o: Outcome)
    ensures o.response.LoggedIn? ==>
              body.Some? && body.value.email == adminEmail && adminEmail.Some? &&
              adminEmail.value in entries && now <= entries[adminEmail.value].expires &&
              body.value.code == Some(entries[adminEmail.value].code) &&
              sign(adminEmail.value) == Some(o.response.token)
    ensures forall k :: k in o.entries ==> k in entries && o.entries[k] == entries[k]
    ensures forall k :: k in entries && (body.None? || body.value.email != Some(k)) ==> k in o.entries
  {
    if body.None? then Outcome(InternalError, entries)
    else
      var email := body.value.email;
      if email != adminEmail then Outcome(Unauthorized, entries)
      else if email.None? || email.value !in entries then Outcome(NotFound, entries)
      else
        var stored := entries[email.value];
        if now > stored.expires then Outcome(Expired, entries - {email.value})
        else if body.value.code != Some(stored.code) then Outcome(WrongCode, entries)
        else
          var rest := entries - {email.value};
          match sign(email.value)
          case None => Outcome(InternalError, rest)
          case Some(token) => Outcome(LoggedIn(token), rest)
  }

  /**
   * The route handler: the same cascade of early returns, deleting from the
   * shared store in place.
   */
  method HandlePost(store: OtpStore, adminEmail: Option<string>, body: Option<Credentials>,
                    now: int, sign: string -> Option<string>) returns (response: Response)
    modifies store`entries
    ensures Outcome(response, store.entries) == Post(adminEmail, body, old(store.entries), now, sign)
  {
    if body.None? {
      return InternalError;
    }
    var email := body.value.email;
    if email != adminEmail {
      return Unauthorized;
    }
    if email.None? || email.value !in store.entries {
      return NotFound;
    }
    var stored := store.entries[email.value];
    if now > stored.expires {
      store.entries := store.entries - {email.value};
      return Expired;
    }
    if body.value.code != Some(stored.code) {
      return WrongCode;
    }
    store.entries := store.entries - {email.value};
    var token := sign(email.value);
    if token.None? {
      return InternalError;
    }
    return LoggedIn(token.value);
  }

  /** Any address other than the admin's is refused with 403 and the store is untouched. */
  lemma UnauthorizedLeavesStore(adminEmail: Option<string>, c: Credentials, entries: map<string, OtpData>,
                                now: int, sign: string -> Option<string>)
    requires c.email != adminEmail
    ensures Post(adminEmail, Some(c), entries, now, sign) == Outcome(Unauthorized, entries)
  {
  }

  /** The admin address with no stored code gets 400 and the store is untouched. */
  lemma MissingCodeLeavesStore(admin: string, code: Option<string>, entries: map<string, OtpData>,
                               now: int, sign: string -> Option<string>)
    requires admin !in entries
    ensures Post(Some(admin), Some(Credentials(Some(admin), code)), entries, now, sign) == Outcome(NotFound, entries)
  {
  }

  /** An expired code is deleted and refused, even when it is the right code. */
  lemma ExpiredIsDeleted(admin: string, code: Option<string>, entries: map<string, OtpData>,
                         now: int, sign: string -> Option<string>)
    requires admin in entries && now > entries[admin].expires
    ensures Post(Some(admin), Some(Credentials(Some(admin), code)), entries, now, sign) ==
            Outcome(Expired, entries - {admin})
  {
  }

  /** A wrong code on a live entry is refused and the entry stays for another try. */
  lemma WrongCodeKeepsEntry(admin: string, code: Option<string>, entries: map<string, OtpData>,
                            now: int, sign: string -> Option<string>)
    requires admin in entries && now <= entries[admin].expires && code != Some(entries[admin].code)
    ensures Post(Some(admin), Some(Credentials(Some(admin), code)), entries, now, sign) ==
            Outcome(WrongCode, entries)
  {
  }

  /** The right code on a live entry signs in and consumes the entry. */
  lemma RightCodeSignsIn(admin: string, entries: map<string, OtpData>,
                         now: int, sign: string -> Option<string>)
    requires admin in entries && now <= entries[admin].expires && sign(admin).Some?
    ensures Post(Some(admin), Some(Credentials(Some(admin), Some(entries[admin].code))), entries, now, sign) ==
            Outcome(LoggedIn(sign(admin).value), entries - {admin})
  {
  }

  /**
   * Codes are single-use: whatever a second request for the same address
   * submits after a successful sign-in, it finds no code.
   */
  lemma CodesAreSingleUse(adminEmail: Option<string>, c: Credentials, c2: Credentials,
                          entries: map<string, OtpData>, now: int, now2: int, sign: string -> Option<string>)
    requires Post(adminEmail, Some(c), entries, now, sign).response.LoggedIn?
    requires c2.email == c.email
    ensures Post(adminEmail, Some(c2), Post(adminEmail, Some(c), entries, now, sign).entries, now2, sign).response
            == NotFound
  {
    var after := Post(adminEmail, Some(c), entries, now, sign).entries;
    assert c.email.Some? && c.email.value !in after;
  }
}
