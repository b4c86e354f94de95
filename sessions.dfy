/** The server-side session object of the wsapi layer: clearing it back to the
    unauthenticated state, recording a sign-in, and the lazy expiry check
    `isAuthed` that clears a stale session as it reads it. */
module Sessions {
  import opened Common

  const CsrfKey := "csrf"
  const UserKey := "authenticatedUser"
  const AtKey := "authenticatedAt"

  /** What `Date.parse` makes of a value: a millisecond count, or NaN. */
  datatype Parsed = NaN | Ms(ms: int)

  /** A value stored under a session key. Every string is a `Str`, carried
      with what `Date.parse` yields for it (NaN for most strings, a time for
      a date string); `DateObj` is a `Date` object, held by its time. */
  datatype Value = Str(s: string, parsed: Parsed) | DateObj(parsed: Parsed) | Bool(b: bool) | Null

  type Fields = map<string, Value>

  /** JavaScript truthiness of a stored value. */
  predicate Truthy(v: Value) {
    match v
    case Str(s, _) => s != ""
    case DateObj(_) => true
    case Bool(b) => b
    case Null => false
  }

  function Get(m: Fields, k: string): Option<Value> {
    if k in m then Some(m[k]) else None
  }

  /** `Date.parse(x)`, where a missing key is `undefined`. */
  function ParseDate(v: Option<Value>): Parsed {
    match v
    case Some(Str(_, p)) => p
    case Some(DateObj(p)) => p
    case _ => NaN
  }

  /** The test `!Date.parse(x) > 0`, which JavaScript reads as
      `(!Date.parse(x)) > 0`: true exactly when the parse is NaN or 0. */
  predicate BadTimestamp(p: Parsed) {
    p.NaN? || p.ms == 0
  }

  /** The session after `clearAuthenticatedUser`: only `csrf` is kept. */
  function Cleared(m: Fields): (r: Fields)
    ensures r.Keys == m.Keys * {CsrfKey}
    ensures CsrfKey in m ==> r[CsrfKey] == m[CsrfKey]
  {
    map k | k in m && k == CsrfKey :: m[k]
  }

  /** The session after `setAuthenticatedUser(session, email)` at time `now`.
      The email is stored as a string whose date reading is NaN (it is never
      read as a date). */
  function WithUser(m: Fields, email: string, now: int): (r: Fields)
    ensures r.Keys == m.Keys + {UserKey, AtKey}
    ensures r[UserKey] == Str(email, NaN) && r[AtKey] == DateObj(Ms(now))
    ensures forall k :: k in m && k != UserKey && k != AtKey ==> r[k] == m[k]
  {
    m[UserKey := Str(email, NaN)][AtKey := DateObj(Ms(now))]
  }

  /** What `isAuthed` returns together with the session it leaves behind. */
  datatype Verdict = Verdict(who: Option<Value>, fields: Fields)

  /** The reference definition of `isAuthed` at time `now` with the configured
      `authentication_duration_ms` given as `duration`. */
  function AuthCheck(m: Fields, now: int, duration: int): Verdict {
    if UserKey in m && Truthy(m[UserKey]) then
      var p := ParseDate(Get(m, AtKey));
      if BadTimestamp(p) || now - p.ms > duration then Verdict(None, Cleared(m))
      else Verdict(Some(m[UserKey]), m)
    else
      Verdict(None, m)
  }

  /** A sign-in is still current: a truthy user and a timestamp that parses to
      something other than NaN or 0 and lies within `duration` of `now`. */
  predicate Current(m: Fields, now: int, duration: int) {
    && UserKey in m && Truthy(m[UserKey])
    && !BadTimestamp(ParseDate(Get(m, AtKey)))
    && now - ParseDate(Get(m, AtKey)).ms <= duration
  }

  class Session {
    var fields: Fields

    constructor (init: Fields)
      ensures fields == init
    {
      fields := init;
    }

    /** Deletes every key but `csrf`, one key at a time. */
    method ClearAuthenticatedUser()
      modifies this
      ensures fields == Cleared(old(fields))
    {
      var keys := fields.Keys;
      while keys != {}
        invariant keys <= old(fields).Keys
        invariant forall k :: k in fields <==> k in old(fields) && (k == CsrfKey || k in keys)
        invariant forall k :: k in fields ==> fields[k] == old(fields)[k]
        decreases keys
      {
        var k :| k in keys;
        if k != CsrfKey {
          fields := fields - {k};
        }
        keys := keys - {k};
      }
    }

    /** The lazy expiry check: returns the user of a current sign-in, and
        clears the session when the user is set but its timestamp is bad or
        expired. */
    method IsAuthed(now: int, duration: int) returns (who: Option<Value>)
      modifies this
      ensures who == AuthCheck(old(fields), now, duration).who
      ensures fields == AuthCheck(old(fields), now, duration).fields
    {
      who := None;
      var thrown: Option<string> := None;
      if UserKey in fields && Truthy(fields[UserKey]) {
        var p := ParseDate(Get(fields, AtKey));
        if BadTimestamp(p) {
          thrown := Some("bad timestamp");
        } else if now - p.ms > duration {
          thrown := Some("expired");
        } else {
          who := Some(fields[UserKey]);
        }
      }
      if thrown.Some? {
        ClearAuthenticatedUser();
      }
    }

    method SetAuthenticatedUser(email: string, now: int)
      modifies this
      ensures fields == WithUser(old(fields), email, now)
    {
      fields := fields[UserKey := Str(email, NaN)];
      fields := fields[AtKey := DateObj(Ms(now))];
    }
  }

  /** Clearing keeps exactly the `csrf` key, with its value, and clearing a
      cleared session changes nothing. */
  lemma ClearKeepsOnlyCsrf(m: Fields)
    ensures Cleared(m).Keys <= {CsrfKey}
    ensures CsrfKey in m <==> CsrfKey in Cleared(m)
    ensures CsrfKey in m ==> Cleared(m)[CsrfKey] == m[CsrfKey]
    ensures Cleared(Cleared(m)) == Cleared(m)
  {
  }

  /** `isAuthed` returns the user exactly when the sign-in is current, and the
      user it returns is the stored one. */
  lemma AuthCheckIff(m: Fields, now: int, duration: int)
    ensures AuthCheck(m, now, duration).who.Some? <==> Current(m, now, duration)
    ensures Current(m, now, duration) ==> AuthCheck(m, now, duration).who == Some(m[UserKey])
    ensures AuthCheck(m, now, duration).who.Some? ==> Truthy(AuthCheck(m, now, duration).who.value)
  {
  }

  /** What `isAuthed` does to the session: nothing when no user is set or the
      sign-in is current; otherwise it clears everything but `csrf`. */
  lemma AuthCheckSessionEffect(m: Fields, now: int, duration: int)
    ensures !(UserKey in m && Truthy(m[UserKey])) ==> AuthCheck(m, now, duration).fields == m
    ensures Current(m, now, duration) ==> AuthCheck(m, now, duration).fields == m
    ensures UserKey in m && Truthy(m[UserKey]) && !Current(m, now, duration) ==>
              (&& AuthCheck(m, now, duration).fields == Cleared(m)
               && UserKey !in AuthCheck(m, now, duration).fields
               && AtKey !in AuthCheck(m, now, duration).fields)
    ensures CsrfKey in m ==>
              (&& CsrfKey in AuthCheck(m, now, duration).fields
               && AuthCheck(m, now, duration).fields[CsrfKey] == m[CsrfKey])
  {
  }

  /** Signing in at `t` and checking at any `now` within the window returns
      the same user, and leaves the session as the sign-in left it; checking
      after the window has passed clears it. */
  lemma SignInRoundTrip(m: Fields, email: string, t: int, now: int, duration: int)
    requires email != "" && t != 0
    ensures now - t <= duration ==>
              AuthCheck(WithUser(m, email, t), now, duration) == Verdict(Some(Str(email, NaN)), WithUser(m, email, t))
    ensures now - t > duration ==>
              AuthCheck(WithUser(m, email, t), now, duration) == Verdict(None, Cleared(WithUser(m, email, t)))
  {
  }

  /** Because of the operator precedence in the timestamp test, a timestamp
      before 1970 is not rejected as bad; only the window can reject it. */
  lemma NegativeTimestampNotBad(m: Fields, email: string, t: int, now: int, duration: int)
    requires email != "" && t < 0 && now - t <= duration
    ensures AuthCheck(WithUser(m, email, t), now, duration).who == Some(Str(email, NaN))
  {
  }

  /** A week-long window: a sign-in made now is current; one made eight days
      ago is expired and leaves only the `csrf` token behind. */
  lemma WeekWindowScenario(token: Value, now: int)
    requires now > 8 * 86400000
    ensures var m := map[CsrfKey := token, UserKey := Str("a@example.com", NaN), AtKey := DateObj(Ms(now))];
            AuthCheck(m, now, 7 * 86400000).who == Some(Str("a@example.com", NaN))
    ensures var m := map[CsrfKey := token, UserKey := Str("a@example.com", NaN),
                         AtKey := DateObj(Ms(now - 8 * 86400000))];
            AuthCheck(m, now, 7 * 86400000) == Verdict(None, map[CsrfKey := token])
  {
    var m := map[CsrfKey := token, UserKey := Str("a@example.com", NaN), AtKey := DateObj(Ms(now - 8 * 86400000))];
    assert Cleared(m) == map[CsrfKey := token];
  }

  /** A sign-in time stored as a date string is read like a `Date` object. */
  lemma DateStringStampAccepted(m: Fields, email: string, text: string, t: int, now: int, duration: int)
    requires email != "" && t != 0 && now - t <= duration
    requires UserKey in m && m[UserKey] == Str(email, NaN) && AtKey in m && m[AtKey] == Str(text, Ms(t))
    ensures AuthCheck(m, now, duration) == Verdict(Some(Str(email, NaN)), m)
  {
  }

}
