/** The in-process token store (zoom/tokenmutex/default.go): one cached token, its
    expiry and a mutex, all in memory. */
module DefaultMutex {
  import opened Errors
  import opened Instants

  /** What Get answers for a cache holding `token` until `expiresAt`, asked at `now`:
      an empty token is absent whatever its expiry, a token is expired only strictly
      after its expiry, and otherwise it is returned. */
  function Lookup(token: string, expiresAt: Instant, now: Instant): (r: TokenReply)
    ensures r.err.None? ==> r.token == token
    ensures r.err.Some? ==> r.token == ""
  {
    if |token| == 0 then TokenReply("", Some(TokenNotExist))
    else if After(now, expiresAt) then TokenReply("", Some(TokenExpired))
    else TokenReply(token, None)
  }

  /** The three states of the cache as Get sees them, exhaustively and exclusively. */
  lemma LookupStates(token: string, expiresAt: Instant, now: Instant)
    ensures Lookup(token, expiresAt, now).err == Some(TokenNotExist) <==> token == ""
    ensures Lookup(token, expiresAt, now).err == Some(TokenExpired) <==> token != "" && now > expiresAt
    ensures Lookup(token, expiresAt, now).err == None <==> token != "" && now <= expiresAt
    ensures Lookup(token, expiresAt, now).err.None? ==> Lookup(token, expiresAt, now).token == token
    ensures Lookup(token, expiresAt, now).err.Some? ==> Lookup(token, expiresAt, now).token == ""
  {
  }

  class Default {
    var token: string
    var expiresAt: Instant
    /** Whether the sync.Mutex is locked. */
    var held: bool

    /** NewDefault: the zero value, an empty cache and an unlocked mutex. */
    constructor ()
      ensures token == "" && expiresAt == ZeroTime && !held
    {
      token := "";
      expiresAt := ZeroTime;
      held := false;
    }

    /** Lock takes the mutex and ignores the duration. Locking a locked mutex blocks
        until another goroutine unlocks it, which a sequential model cannot show. */
    method Lock(dur: int) returns (err: Option<Error>)
      requires !held
      modifies this`held
      ensures held && err == None
    {
      held := true;
      err := None;
    }

    /** Unlock releases the mutex; unlocking an unlocked sync.Mutex is a fatal error. */
    method Unlock() returns (err: Option<Error>)
      requires held
      modifies this`held
      ensures !held && err == None
    {
      held := false;
      err := None;
    }

    /** Get reads the cache against `now` and changes nothing. */
    method Get(now: Instant) returns (t: string, err: Option<Error>)
      ensures token == "" ==> t == "" && err == Some(TokenNotExist)
      ensures token != "" && After(now, expiresAt) ==> t == "" && err == Some(TokenExpired)
      ensures token != "" && !After(now, expiresAt) ==> t == token && err == None
      ensures TokenReply(t, err) == Lookup(token, expiresAt, now)
    {
      if |token| == 0 {
        return "", Some(TokenNotExist);
      }
      if After(now, expiresAt) {
        return "", Some(TokenExpired);
      }
      return token, None;
    }

    /** Set overwrites both fields and always succeeds. */
    method Set(t: string, e: Instant) returns (err: Option<Error>)
      modifies this`token, this`expiresAt
      ensures token == t && expiresAt == e && err == None
    {
      token := t;
      expiresAt := e;
      err := None;
    }

    /** Clear resets both fields to their zero values and always succeeds. */
    method Clear() returns (err: Option<Error>)
      modifies this`token, this`expiresAt
      ensures token == "" && expiresAt == ZeroTime && err == None
    {
      token := "";
      expiresAt := ZeroTime;
      err := None;
    }
  }

  /** A Set of a non-empty token followed by a Get no later than its expiry returns
      that token; a Clear followed by a Get reports the token absent; Clear twice
      leaves what Clear once leaves. */
  method SetGetClearGet(d: Default, t: string, e: Instant, now: Instant)
    returns (first: string, firstErr: Option<Error>, second: string, secondErr: Option<Error>)
    requires t != "" && !After(now, e)
    modifies d`token, d`expiresAt
    ensures first == t && firstErr == None
    ensures second == "" && secondErr == Some(TokenNotExist)
    ensures d.token == "" && d.expiresAt == ZeroTime
  {
    var err := d.Set(t, e);
    first, firstErr := d.Get(now);
    err := d.Clear();
    err := d.Clear();
    second, secondErr := d.Get(now);
  }
}
