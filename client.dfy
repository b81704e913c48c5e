/** The Zoom API client's use of the token cache (zoom/client.go): before every API
    call it locks the cache, reads the token, fetches a new one from the OAuth endpoint
    on a miss, stores it and unlocks; a 401 from the API clears the cache.

    The protocol of one call is specified by pure functions over what each party
    answers (TokenPhase, SendPhase, Run), which return the sequence of calls made and
    the reply; Client.Request does it step by step and is proved to make exactly those
    calls. What the HTTP transport, JSON and query encoders answer is an input. */
module Zoom {
  import opened Errors
  import opened Instants
  import DefaultMutex
  import RedisMutex

  const BaseURL: string := "https://api.zoom.us/v2"
  /** tokenMutexLockDuration, passed to Lock. */
  const TokenMutexLockDuration: int := 10 * Second
  /** Seconds taken off the issuer's expires_in before the token is cached. */
  const SafetyMarginSeconds: int := 60

  const StatusOK: int := 200
  const StatusIMUsed: int := 226
  const StatusUnauthorized: int := 401

  // The annotations request passes to errs.Wrap.
  const LockingMsg: string := "locking token mutex"
  const UnlockingMsg: string := "unlocking token mutex"
  const GettingMsg: string := "getting token mutex"
  const RequestingMsg: string := "requesting access token from Zoom"
  const SettingMsg: string := "setting token mutex"
  const QueryMsg: string := "encoding URL query"
  const MarshalMsg: string := "marshaling request body"
  const NewRequestMsg: string := "making new HTTP request"
  const DoMsg: string := "doing HTTP request"
  const ClearingMsg: string := "clearing token mutex when receving a 401 from Zoom"
  const DecodeMsg: string := "decoding response body"
  const ApiMsg: string := "Zoom API error"
  // The annotations accessToken passes to errs.Wrap.
  const DecodeAuthMsg: string := "decoding HTTP response body"

  // ---------------------------------------------------------------------------
  // accessToken: the OAuth exchange and the expiry it caches

  /** The JSON body of a successful token response. */
  datatype AuthResponse = AuthResponse(accessToken: string, tokenType: string, expiresIn: int, scope: string)

  /** How the POST to the token endpoint went. */
  datatype Exchange =
    | NotBuilt(err: Error)                                   // http.NewRequestWithContext failed
    | NotDelivered(err: Error)                               // httpClient.Do failed
    | Answered(status: int, decoded: Result<AuthResponse>)   // a response, and how decoding its body went

  /** A token and the instant from which it is treated as expired. */
  datatype Lease = Lease(token: string, expiresAt: Instant)

  /** The cached expiry: now plus the issuer's lifetime less the safety margin. */
  function ExpiryFrom(now: Instant, expiresIn: int): (e: Instant)
    ensures e == AddSeconds(now, expiresIn - SafetyMarginSeconds)
    ensures e < AddSeconds(now, expiresIn)
  {
    AddSeconds(now, expiresIn - SafetyMarginSeconds)
  }

  /** accessToken: a non-200 status is an error before any decoding; otherwise the
      decoded token is returned with its safety-margined expiry. */
  function AccessToken(now: Instant, x: Exchange): (r: Result<Lease>)
    ensures x.Answered? && x.status != StatusOK ==> r == Err(NonOKStatus(x.status))
    ensures r.Ok? <==> x.Answered? && x.status == StatusOK && x.decoded.Ok?
    ensures r.Ok? ==> r.value == Lease(x.decoded.value.accessToken, ExpiryFrom(now, x.decoded.value.expiresIn))
  {
    match x
    case NotBuilt(e) => Err(Wrapped(NewRequestMsg, Some(e)))
    case NotDelivered(e) => Err(Wrapped(DoMsg, Some(e)))
    case Answered(status, decoded) =>
      if status != StatusOK then Err(NonOKStatus(status))
      else match decoded
        case Err(e) => Err(Wrapped(DecodeAuthMsg, Some(e)))
        case Ok(a) => Ok(Lease(a.accessToken, ExpiryFrom(now, a.expiresIn)))
  }

  /** The whole seconds from the fetch to the cached expiry are exactly the issuer's
      lifetime less the margin: the TTL the Redis store writes for a freshly fetched
      token when it reads the clock in the same second as the fetch. */
  lemma FreshLeaseSeconds(now: Instant, expiresIn: int)
    ensures Unix(ExpiryFrom(now, expiresIn)) - Unix(now) == expiresIn - SafetyMarginSeconds
  {
    UnixAddSeconds(now, expiresIn - SafetyMarginSeconds);
  }

  /** The Redis store reads the clock again when it writes: the TTL it writes for a
      freshly fetched token is expires_in - 60, less the whole seconds the clock crossed
      between the fetch and the write. */
  lemma FreshLeaseTtl(now: Instant, later: Instant, expiresIn: int)
    ensures RedisMutex.Ttl(ExpiryFrom(now, expiresIn), later)
            == expiresIn - SafetyMarginSeconds - (Unix(later) - Unix(now))
  {
    FreshLeaseSeconds(now, expiresIn);
  }

  // ---------------------------------------------------------------------------
  // The request URL

  /** What querystring.Values produced: how many keys, and url.Values.Encode of them. */
  datatype Query = Query(keys: nat, encoded: string)

  /** baseURL + path, with "?" and the encoded query only when there is a key. */
  function RequestURL(path: string, q: Query): (u: string)
    ensures BaseURL + path <= u
    ensures q.keys > 0 <==> |u| > |BaseURL + path|
  {
    if q.keys > 0 then BaseURL + path + "?" + q.encoded else BaseURL + path
  }

  /** The position of the first c in s. */
  function IndexOf(s: string, c: char): (r: Option<nat>)
    ensures r.None? <==> c !in s
    ensures r.Some? ==> r.value < |s| && s[r.value] == c && c !in s[..r.value]
  {
    if |s| == 0 then None
    else if s[0] == c then Some(0)
    else match IndexOf(s[1..], c)
      case None => None
      case Some(i) => assert s[..i + 1] == [s[0]] + s[1..][..i]; Some(i + 1)
  }

  /** Splits a URL at its first "?" into what precedes it and the query after it. */
  function SplitQuery(u: string): (string, Option<string>)
  {
    match IndexOf(u, '?')
    case None => (u, None)
    case Some(i) => (u[..i], Some(u[i + 1..]))
  }

  /** For a path without "?", the URL splits back into baseURL + path and the encoded
      query, which is present exactly when the query has a key. */
  lemma {:induction false} RequestURLSplits(path: string, q: Query)
    requires '?' !in path
    ensures SplitQuery(RequestURL(path, q)) == (BaseURL + path, if q.keys > 0 then Some(q.encoded) else None)
  {
    var prefix := BaseURL + path;
    assert '?' !in BaseURL by {
      forall i | 0 <= i < |BaseURL| ensures BaseURL[i] != '?' {
      }
    }
    assert '?' !in prefix by {
      forall i | 0 <= i < |prefix| ensures prefix[i] != '?' {
        if i < |BaseURL| { assert prefix[i] == BaseURL[i]; } else { assert prefix[i] == path[i - |BaseURL|]; }
      }
    }
    if q.keys > 0 {
      var u := prefix + "?" + q.encoded;
      assert u[..|prefix|] == prefix;
      assert u[|prefix|] == '?';
      FirstIndex(u, '?', |prefix|);
      assert u[|prefix| + 1..] == q.encoded;
    }
  }

  /** The first c found is at i when s[i] is c and nothing before i is. */
  lemma FirstIndex(s: string, c: char, i: nat)
    requires i < |s| && s[i] == c && c !in s[..i]
    ensures IndexOf(s, c) == Some(i)
  {
  }

  // ---------------------------------------------------------------------------
  // The protocol of one request, as the calls it makes

  /** A call request makes on the token mutex, the token endpoint or the API. */
  datatype Event =
    | LockCall(acquired: bool)
    | GetCall
    | FetchCall
    | SetCall(token: string, expiresAt: Instant)
    | UnlockCall
    | SendCall(verb: string, url: string, authorization: string)
    | ClearCall

  /** Whether the lock is held after `events`, starting from `held`. */
  function HeldAfter(held: bool, events: seq<Event>): bool
    decreases |events|
  {
    if events == [] then held else HeldAfter(HeldStep(held, events[0]), events[1..])
  }

  function HeldStep(held: bool, e: Event): bool
  {
    match e
    case LockCall(acquired) => held || acquired
    case UnlockCall => false
    case _ => held
  }

  predicate NoLockOps(events: seq<Event>)
  {
    forall i | 0 <= i < |events| :: !events[i].LockCall? && !events[i].UnlockCall?
  }

  /** One successful Lock, then calls that neither lock nor unlock, then one Unlock. */
  predicate Bracketed(events: seq<Event>)
  {
    |events| >= 2 && events[0] == LockCall(true) && events[|events| - 1] == UnlockCall
    && NoLockOps(events[1..|events| - 1])
  }

  lemma {:induction false} HeldAfterAppend(held: bool, a: seq<Event>, b: seq<Event>)
    ensures HeldAfter(held, a + b) == HeldAfter(HeldAfter(held, a), b)
    decreases |a|
  {
    if a != [] {
      assert (a + b)[0] == a[0] && (a + b)[1..] == a[1..] + b;
      HeldAfterAppend(HeldStep(held, a[0]), a[1..], b);
    } else {
      assert a + b == b;
    }
  }

  lemma {:induction false} HeldAfterNoLockOps(held: bool, events: seq<Event>)
    requires NoLockOps(events)
    ensures HeldAfter(held, events) == held
    decreases |events|
  {
    if events != [] {
      assert NoLockOps(events[1..]) by {
        forall i | 0 <= i < |events[1..]| ensures !events[1..][i].LockCall? && !events[1..][i].UnlockCall? {
          assert events[1..][i] == events[i + 1];
        }
      }
      HeldAfterNoLockOps(held, events[1..]);
    }
  }

  /** A bracketed sequence of calls, begun with the lock free, holds the lock strictly
      inside and leaves it free at the end. */
  lemma {:induction false} BracketedHolds(events: seq<Event>)
    requires Bracketed(events)
    ensures !HeldAfter(false, events)
    ensures forall i | 0 < i < |events| :: HeldAfter(false, events[..i])
  {
    var n := |events|;
    var middle := events[1..n - 1];
    assert events == [events[0]] + middle + [UnlockCall];
    HeldAfterAppend(false, [events[0]] + middle, [UnlockCall]);
    HeldAfterAppend(false, [events[0]], middle);
    HeldAfterNoLockOps(true, middle);
    forall i | 0 < i < n ensures HeldAfter(false, events[..i]) {
      var part := events[1..i];
      assert NoLockOps(part) by {
        forall j | 0 <= j < |part| ensures !part[j].LockCall? && !part[j].UnlockCall? {
          assert part[j] == middle[j];
        }
      }
      assert events[..i] == [events[0]] + part;
      HeldAfterAppend(false, [events[0]], part);
      HeldAfterNoLockOps(true, part);
    }
  }

  /** A Get error that makes request fetch a new token. */
  predicate IsCacheMiss(e: Error)
  {
    Is(e, TokenNotExist) || Is(e, TokenExpired)
  }

  /** A Get error is a miss however many %w layers wrap it, and only when the innermost
      error is one of the two sentinels: the ErrTokenNotExist the Redis store returns for
      a missing key is a miss, a connection fault it wraps as "getting key" is not. */
  lemma CacheMissThroughWrapping(contexts: seq<string>, e: Error)
    requires !e.Errorf?
    ensures IsCacheMiss(Chain(contexts, e)) <==> e == TokenNotExist || e == TokenExpired
  {
    IsThroughChain(contexts, e, TokenNotExist);
    IsThroughChain(contexts, e, TokenExpired);
  }

  /** What the TokenMutex answers to each of its calls during one request. */
  datatype Answers = Answers(lock: Option<Error>, get: TokenReply, store: Option<Error>, unlock: Option<Error>, clear: Option<Error>)

  /** The answers of the in-memory store holding `token` until `expiresAt`. */
  function InMemoryAnswers(token: string, expiresAt: Instant, now: Instant): Answers
  {
    Answers(None, DefaultMutex.Lookup(token, expiresAt, now), None, None, None)
  }

  /** How sending the API request went. */
  datatype Delivery = NotSent(err: Error) | Delivered(status: int)

  /** The JSON body of a failed API call. */
  datatype ErrorBody = ErrorBody(code: int, message: string)

  /** What everything but the token mutex answers during one request. */
  datatype Network = Network(
    exchange: Exchange,          // the POST to the token endpoint, if made
    query: Result<Query>,        // querystring.Values(query)
    marshal: Option<Error>,      // json.Marshal of a non-nil body failed
    newRequest: Option<Error>,   // http.NewRequest failed
    delivery: Delivery,          // httpClient.Do
    decoded: Result<ErrorBody>,  // decoding the response body, when it is decoded
    hasOut: bool)                // whether the caller passed a value to decode into

  datatype Response = Response(status: int)

  /** request's (*http.Response, error). */
  datatype Reply = Reply(response: Option<Response>, err: Option<Error>)

  /** The end of the token prefix: a token to send with, or the error to return. */
  datatype TokenStep = Proceed(token: string) | Abort(err: Error)

  datatype Phase = Phase(events: seq<Event>, step: TokenStep)

  datatype Outcome = Outcome(events: seq<Event>, reply: Reply)

  function Bearer(token: string): string
  {
    "Bearer " + token
  }

  /** A failure path after the lock is taken: err is reassigned to Unlock's result, so
      the error returned wraps that result and not the failure that led here. */
  function AfterUnlock(unlock: Option<Error>, annotation: string): (r: Error)
    ensures r.Wrapped? && r.inner == unlock
    ensures unlock.None? ==> r.annotation == annotation
    ensures unlock.Some? ==> r.annotation == UnlockingMsg
  {
    if unlock.Some? then Wrapped(UnlockingMsg, unlock) else Wrapped(annotation, unlock)
  }

  /** The token prefix of request: lock, get, fetch and set on a miss, unlock. */
  function TokenPhase(now: Instant, a: Answers, x: Exchange): Phase
  {
    if a.lock.Some? then Phase([LockCall(false)], Abort(Wrapped(LockingMsg, a.lock)))
    else if a.get.err.None? then
      Phase([LockCall(true), GetCall, UnlockCall],
            if a.unlock.Some? then Abort(Wrapped(UnlockingMsg, a.unlock)) else Proceed(a.get.token))
    else if !IsCacheMiss(a.get.err.value) then
      Phase([LockCall(true), GetCall, UnlockCall], Abort(AfterUnlock(a.unlock, GettingMsg)))
    else match AccessToken(now, x)
      case Err(_) =>
        Phase([LockCall(true), GetCall, FetchCall, UnlockCall], Abort(AfterUnlock(a.unlock, RequestingMsg)))
      case Ok(lease) =>
        var events := [LockCall(true), GetCall, FetchCall, SetCall(lease.token, lease.expiresAt), UnlockCall];
        if a.store.Some? then Phase(events, Abort(AfterUnlock(a.unlock, SettingMsg)))
        else Phase(events, if a.unlock.Some? then Abort(Wrapped(UnlockingMsg, a.unlock)) else Proceed(lease.token))
  }

  /** The rest of request, after the lock is released: build and send the API request,
      clear the cache on a 401, and decode the response. */
  function SendPhase(verb: string, path: string, token: string, clear: Option<Error>, n: Network): Outcome
  {
    match n.query
    case Err(e) => Outcome([], Reply(None, Some(Wrapped(QueryMsg, Some(e)))))
    case Ok(q) =>
      if n.marshal.Some? then Outcome([], Reply(None, Some(Wrapped(MarshalMsg, n.marshal))))
      else if n.newRequest.Some? then Outcome([], Reply(None, Some(Wrapped(NewRequestMsg, n.newRequest))))
      else
        var send := SendCall(verb, RequestURL(path, q), Bearer(token));
        match n.delivery
        case NotSent(e) => Outcome([send], Reply(None, Some(Wrapped(DoMsg, Some(e)))))
        case Delivered(status) =>
          var res := Some(Response(status));
          if status > StatusIMUsed then
            if status == StatusUnauthorized && clear.Some? then
              Outcome([send, ClearCall], Reply(None, Some(Wrapped(ClearingMsg, clear))))
            else
              var events := if status == StatusUnauthorized then [send, ClearCall] else [send];
              match n.decoded
              case Err(e) => Outcome(events, Reply(res, Some(Wrapped(DecodeMsg, Some(e)))))
              case Ok(b) => Outcome(events, Reply(res, Some(Wrapped(ApiMsg, Some(ApiError(b.code, b.message))))))
          else if n.hasOut && n.decoded.Err? then
            Outcome([send], Reply(res, Some(Wrapped(DecodeMsg, Some(n.decoded.error)))))
          else Outcome([send], Reply(res, None))
  }

  /** One call of request(verb, path, ...) begun at `now`. */
  function Run(verb: string, path: string, now: Instant, a: Answers, n: Network): Outcome
  {
    var p := TokenPhase(now, a, n.exchange);
    match p.step
    case Abort(e) => Outcome(p.events, Reply(None, Some(e)))
    case Proceed(t) =>
      var s := SendPhase(verb, path, t, a.clear, n);
      Outcome(p.events + s.events, s.reply)
  }

  // ---------------------------------------------------------------------------
  // What one request promises

  /** The API request is attempted: the token prefix succeeded and the request built. */
  predicate Reaches(now: Instant, a: Answers, n: Network)
  {
    TokenPhase(now, a, n.exchange).step.Proceed? && n.query.Ok? && n.marshal.None? && n.newRequest.None?
  }

  lemma TokenPhaseShape(now: Instant, a: Answers, x: Exchange)
    ensures var es := TokenPhase(now, a, x).events;
      (a.lock.Some? ==> es == [LockCall(false)])
      && (a.lock.None? ==> Bracketed(es))
      && forall i | 0 <= i < |es| :: !es[i].SendCall? && !es[i].ClearCall?
  {
    var es := TokenPhase(now, a, x).events;
    if a.lock.None? {
      var middle := es[1..|es| - 1];
      assert NoLockOps(middle) by {
        forall j | 0 <= j < |middle| ensures !middle[j].LockCall? && !middle[j].UnlockCall? {
          assert middle[j] == es[j + 1];
        }
      }
    }
  }

  lemma SendPhaseShape(verb: string, path: string, token: string, clear: Option<Error>, n: Network)
    ensures var es := SendPhase(verb, path, token, clear, n).events;
      NoLockOps(es) && |es| <= 2
      && (forall i | 0 <= i < |es| :: es[i].SendCall? <==> i == 0)
      && (forall i | 0 <= i < |es| :: es[i].ClearCall? <==> i == 1)
  {
  }

  /** If Lock fails, request returns that error wrapped and calls nothing else: no Get,
      no Unlock, no token fetch, no API request. */
  lemma LockFailureShortCircuits(verb: string, path: string, now: Instant, a: Answers, n: Network)
    requires a.lock.Some?
    ensures Run(verb, path, now, a, n) == Outcome([LockCall(false)], Reply(None, Some(Wrapped(LockingMsg, a.lock))))
  {
  }

  lemma NoLockOpsNoUnlock(events: seq<Event>)
    requires NoLockOps(events)
    ensures multiset(events)[UnlockCall] == 0
  {
    assert UnlockCall !in events by {
      forall j | 0 <= j < |events| ensures events[j] != UnlockCall {
      }
    }
  }

  /** The lock discipline of a token prefix `head` (a failed Lock alone, or bracketed)
      followed by calls that neither lock nor use the cache under the lock. */
  lemma {:induction false} DisciplineOfComposition(head: seq<Event>, rest: seq<Event>, acquired: bool)
    requires acquired ==> Bracketed(head)
    requires !acquired ==> head == [LockCall(false)]
    requires forall i | 0 <= i < |head| :: !head[i].SendCall?
    requires NoLockOps(rest)
    requires forall i | 0 <= i < |rest| :: !rest[i].GetCall? && !rest[i].FetchCall? && !rest[i].SetCall?
    ensures var es := head + rest;
      !HeldAfter(false, es)
      && multiset(es)[UnlockCall] == (if acquired then 1 else 0)
      && (forall i | 0 <= i < |es| && es[i].SendCall? :: !HeldAfter(false, es[..i]))
      && (forall i | 0 <= i < |es| && (es[i].GetCall? || es[i].FetchCall? || es[i].SetCall?) :: HeldAfter(false, es[..i]))
  {
    var es := head + rest;
    if acquired {
      BracketedHolds(head);
      var middle := head[1..|head| - 1];
      assert head == [head[0]] + middle + [UnlockCall];
      NoLockOpsNoUnlock(middle);
      assert multiset(head) == multiset([head[0]]) + multiset(middle) + multiset([UnlockCall]);
    } else {
      assert HeldAfter(false, head) == HeldAfter(false, []);
    }
    HeldAfterAppend(false, head, rest);
    HeldAfterNoLockOps(false, rest);
    NoLockOpsNoUnlock(rest);
    assert multiset(es) == multiset(head) + multiset(rest);
    forall i | 0 <= i < |es| && es[i].SendCall? ensures !HeldAfter(false, es[..i]) {
      var part := rest[..i - |head|];
      assert es[..i] == head + part;
      assert NoLockOps(part) by {
        forall j | 0 <= j < |part| ensures !part[j].LockCall? && !part[j].UnlockCall? {
          assert part[j] == rest[j];
        }
      }
      HeldAfterAppend(false, head, part);
      HeldAfterNoLockOps(false, part);
    }
    forall i | 0 <= i < |es| && (es[i].GetCall? || es[i].FetchCall? || es[i].SetCall?)
      ensures HeldAfter(false, es[..i])
    {
      assert es[..i] == head[..i];
      assert es[i] == head[i];
    }
  }

  /** On every path the lock is free when request returns; Unlock is called exactly once
      when Lock succeeded and never otherwise; Get, the token fetch and Set happen only
      while the lock is held; and the API request is never sent while it is held. */
  lemma {:induction false} LockReleasedOnEveryPath(verb: string, path: string, now: Instant, a: Answers, n: Network)
    ensures var es := Run(verb, path, now, a, n).events;
      !HeldAfter(false, es)
      && multiset(es)[UnlockCall] == (if a.lock.None? then 1 else 0)
      && (forall i | 0 <= i < |es| && es[i].SendCall? :: !HeldAfter(false, es[..i]))
      && (forall i | 0 <= i < |es| && (es[i].GetCall? || es[i].FetchCall? || es[i].SetCall?) :: HeldAfter(false, es[..i]))
  {
    var p := TokenPhase(now, a, n.exchange);
    TokenPhaseShape(now, a, n.exchange);
    if p.step.Proceed? {
      var s := SendPhase(verb, path, p.step.token, a.clear, n);
      SendPhaseShape(verb, path, p.step.token, a.clear, n);
      DisciplineOfComposition(p.events, s.events, a.lock.None?);
    } else {
      assert p.events + [] == p.events;
      DisciplineOfComposition(p.events, [], a.lock.None?);
    }
  }

  /** The token endpoint is called exactly when Lock succeeded and Get failed with
      ErrTokenNotExist or ErrTokenExpired; any other Get error, or a Get that returns a
      token, makes no fetch. */
  lemma {:induction false} FetchOnlyOnMiss(verb: string, path: string, now: Instant, a: Answers, n: Network)
    ensures FetchCall in Run(verb, path, now, a, n).events
            <==> a.lock.None? && a.get.err.Some? && IsCacheMiss(a.get.err.value)
  {
    var p := TokenPhase(now, a, n.exchange);
    if p.step.Proceed? {
      var s := SendPhase(verb, path, p.step.token, a.clear, n);
      SendPhaseShape(verb, path, p.step.token, a.clear, n);
      assert FetchCall !in s.events by {
        forall j | 0 <= j < |s.events| ensures s.events[j] != FetchCall {
        }
      }
    }
  }

  /** A token found in the cache is used as it is: no fetch, no Set, and the API request
      carries it as the Bearer credential. */
  lemma {:induction false} CacheHitSendsCachedToken(verb: string, path: string, now: Instant, a: Answers, n: Network)
    requires a.lock.None? && a.get.err.None?
    ensures var es := Run(verb, path, now, a, n).events;
      FetchCall !in es
      && (forall i | 0 <= i < |es| :: !es[i].SetCall?)
      && (forall i | 0 <= i < |es| && es[i].SendCall? :: es[i].authorization == Bearer(a.get.token))
  {
    FetchOnlyOnMiss(verb, path, now, a, n);
    var p := TokenPhase(now, a, n.exchange);
    if p.step.Proceed? {
      SendPhaseShape(verb, path, p.step.token, a.clear, n);
    }
  }

  /** After a successful fetch, Set is called with exactly the fetched token and expiry,
      and right before Unlock; the API request carries that token. */
  lemma {:induction false} RefreshStoresFetchedToken(verb: string, path: string, now: Instant, a: Answers, n: Network, lease: Lease)
    requires a.lock.None? && a.get.err.Some? && IsCacheMiss(a.get.err.value)
    requires AccessToken(now, n.exchange) == Ok(lease)
    ensures var es := Run(verb, path, now, a, n).events;
      |es| >= 5 && es[2] == FetchCall && es[3] == SetCall(lease.token, lease.expiresAt) && es[4] == UnlockCall
      && (forall i | 0 <= i < |es| && es[i].SendCall? :: es[i].authorization == Bearer(lease.token))
  {
    var p := TokenPhase(now, a, n.exchange);
    if p.step.Proceed? {
      SendPhaseShape(verb, path, p.step.token, a.clear, n);
    }
  }

  /** On the failure paths after Lock (Get fails otherwise than by a miss, the fetch
      fails, or Set fails) err is overwritten by Unlock's result: the returned error
      wraps that result, never the failure itself, and there is no response. */
  lemma {:induction false} FailuresReportUnlockOutcome(verb: string, path: string, now: Instant, a: Answers, n: Network)
    requires a.lock.None? && a.get.err.Some?
    requires !IsCacheMiss(a.get.err.value)
             || AccessToken(now, n.exchange).Err?
             || a.store.Some?
    ensures var reply := Run(verb, path, now, a, n).reply;
      var annotation :=
        if !IsCacheMiss(a.get.err.value) then GettingMsg
        else if AccessToken(now, n.exchange).Err? then RequestingMsg
        else SettingMsg;
      reply.response.None?
      && (a.unlock.None? ==> reply.err == Some(Wrapped(annotation, None)))
      && (a.unlock.Some? ==> reply.err == Some(Wrapped(UnlockingMsg, a.unlock)))
  {
  }

  /** The API request is made exactly when the token prefix ended with a token and the
      query, the body and the request itself could be built. */
  lemma {:induction false} SentExactlyWhenReached(verb: string, path: string, now: Instant, a: Answers, n: Network)
    ensures var es := Run(verb, path, now, a, n).events;
      (exists i | 0 <= i < |es| :: es[i].SendCall?) <==> Reaches(now, a, n)
  {
    var p := TokenPhase(now, a, n.exchange);
    var es := Run(verb, path, now, a, n).events;
    TokenPhaseShape(now, a, n.exchange);
    if p.step.Proceed? {
      var s := SendPhase(verb, path, p.step.token, a.clear, n);
      SendPhaseShape(verb, path, p.step.token, a.clear, n);
      if Reaches(now, a, n) {
        assert es[|p.events|] == s.events[0];
      } else {
        assert s.events == [];
        assert es == p.events;
      }
    } else {
      assert es == p.events;
    }
  }

  /** Only a 401 from the API clears the cache, after the request was sent; a clear that
      fails is returned in place of the response, and otherwise the error body is decoded
      after the clear. */
  lemma {:induction false} ClearOnlyOnUnauthorized(verb: string, path: string, now: Instant, a: Answers, n: Network)
    ensures var o := Run(verb, path, now, a, n);
      (ClearCall in o.events <==> Reaches(now, a, n) && n.delivery == Delivered(StatusUnauthorized))
      && (ClearCall in o.events ==> |o.events| >= 2 && o.events[|o.events| - 1] == ClearCall && o.events[|o.events| - 2].SendCall?)
      && (ClearCall in o.events && a.clear.Some? ==> o.reply == Reply(None, Some(Wrapped(ClearingMsg, a.clear))))
      && (ClearCall in o.events && a.clear.None? ==> o.reply.response == Some(Response(StatusUnauthorized)))
      && (ClearCall in o.events && a.clear.None? ==>
            o.reply.err == Some(match n.decoded
                                case Err(e) => Wrapped(DecodeMsg, Some(e))
                                case Ok(b) => Wrapped(ApiMsg, Some(ApiError(b.code, b.message)))))
  {
    var p := TokenPhase(now, a, n.exchange);
    TokenPhaseShape(now, a, n.exchange);
    var o := Run(verb, path, now, a, n);
    assert ClearCall !in p.events by {
      forall j | 0 <= j < |p.events| ensures p.events[j] != ClearCall {
      }
    }
    if p.step.Proceed? {
      var s := SendPhase(verb, path, p.step.token, a.clear, n);
      SendPhaseShape(verb, path, p.step.token, a.clear, n);
      assert ClearCall in o.events <==> ClearCall in s.events;
    } else {
      assert o.events == p.events;
    }
  }

  /** Once sent, a status above 226 (IM Used) is always an error; a status up to 226 is
      success unless decoding into the caller's value fails; the response is returned in
      both cases unless clearing the cache after a 401 failed. */
  lemma {:induction false} StatusDecidesError(verb: string, path: string, now: Instant, a: Answers, n: Network, status: int)
    requires Reaches(now, a, n) && n.delivery == Delivered(status)
    ensures var reply := Run(verb, path, now, a, n).reply;
      (status > StatusIMUsed ==> reply.err.Some?)
      && (status <= StatusIMUsed ==> (reply.err.None? <==> !(n.hasOut && n.decoded.Err?)))
      && (reply.response == Some(Response(status)) <==> !(status == StatusUnauthorized && a.clear.Some?))
  {
  }

  // ---------------------------------------------------------------------------
  // With the in-memory store NewClient installs by default

  /** What the calls do to the in-memory cache: Set overwrites it, Clear empties it. */
  function CacheStep(c: Lease, e: Event): Lease
  {
    match e
    case SetCall(t, x) => Lease(t, x)
    case ClearCall => Lease("", ZeroTime)
    case _ => c
  }

  function Replay(c: Lease, events: seq<Event>): Lease
    decreases |events|
  {
    if events == [] then c else Replay(CacheStep(c, events[0]), events[1..])
  }

  /** With the in-memory store, request fetches exactly when the cached token is empty
      or now is strictly after its expiry. */
  lemma {:induction false} InMemoryFetchesOnlyOnMiss(verb: string, path: string, now: Instant, cache: Lease, n: Network)
    ensures FetchCall in Run(verb, path, now, InMemoryAnswers(cache.token, cache.expiresAt, now), n).events
            <==> cache.token == "" || After(now, cache.expiresAt)
  {
    var a := InMemoryAnswers(cache.token, cache.expiresAt, now);
    DefaultMutex.LookupStates(cache.token, cache.expiresAt, now);
    FetchOnlyOnMiss(verb, path, now, a, n);
  }

  /** With the in-memory store, a request that fetched leaves the fetched token cached
      (unless the API then answered 401), and a 401 leaves the cache empty. */
  lemma {:induction false} InMemoryCacheAfterRequest(verb: string, path: string, now: Instant, cache: Lease, n: Network)
    ensures var o := Run(verb, path, now, InMemoryAnswers(cache.token, cache.expiresAt, now), n);
      var after := Replay(cache, o.events);
      var unauthorized := Reaches(now, InMemoryAnswers(cache.token, cache.expiresAt, now), n)
                          && n.delivery == Delivered(StatusUnauthorized);
      var fetched := FetchCall in o.events && AccessToken(now, n.exchange).Ok?;
      after == (if unauthorized then Lease("", ZeroTime) else if fetched then AccessToken(now, n.exchange).value else cache)
  {
    var a := InMemoryAnswers(cache.token, cache.expiresAt, now);
    var p := TokenPhase(now, a, n.exchange);
    var o := Run(verb, path, now, a, n);
    FetchOnlyOnMiss(verb, path, now, a, n);
    ClearOnlyOnUnauthorized(verb, path, now, a, n);
    var head := if FetchCall in o.events && AccessToken(now, n.exchange).Ok? then AccessToken(now, n.exchange).value else cache;
    InMemoryTokenPhaseReplay(now, cache, n.exchange);
    assert Replay(cache, p.events) == head;
    if p.step.Proceed? {
      var s := SendPhase(verb, path, p.step.token, a.clear, n);
      ReplayAppend(cache, p.events, s.events);
      SendPhaseReplay(verb, path, p.step.token, n, head);
    }
  }

  /** The token prefix against the in-memory store leaves the fetched token cached when
      the fetch succeeded, and the cache as it was otherwise. */
  lemma InMemoryTokenPhaseReplay(now: Instant, cache: Lease, x: Exchange)
    ensures var a := InMemoryAnswers(cache.token, cache.expiresAt, now);
      var p := TokenPhase(now, a, x);
      Replay(cache, p.events)
        == if a.get.err.Some? && AccessToken(now, x).Ok? then AccessToken(now, x).value else cache
  {
    var a := InMemoryAnswers(cache.token, cache.expiresAt, now);
    var e := TokenPhase(now, a, x).events;
    if a.get.err.Some? && AccessToken(now, x).Ok? {
      var lease := AccessToken(now, x).value;
      assert e == [LockCall(true), GetCall, FetchCall, SetCall(lease.token, lease.expiresAt), UnlockCall];
      assert Replay(cache, e) == Replay(cache, e[1..]) == Replay(cache, e[2..]) == Replay(cache, e[3..]);
      assert Replay(cache, e[3..]) == Replay(lease, e[4..]) == Replay(lease, []);
    } else {
      assert forall i | 0 <= i < |e| :: !e[i].SetCall? && !e[i].ClearCall?;
      ReplayKeeps(cache, e);
    }
  }

  /** After the lock is released, only a 401 changes the in-memory cache, by emptying it. */
  lemma SendPhaseReplay(verb: string, path: string, token: string, n: Network, c: Lease)
    ensures var s := SendPhase(verb, path, token, None, n);
      Replay(c, s.events) == if ClearCall in s.events then Lease("", ZeroTime) else c
  {
    var s := SendPhase(verb, path, token, None, n);
    SendPhaseShape(verb, path, token, None, n);
    if |s.events| == 2 {
      assert s.events == [s.events[0], ClearCall];
      assert Replay(c, s.events) == Replay(c, [ClearCall]);
      assert Replay(c, [ClearCall]) == Replay(Lease("", ZeroTime), []);
    } else if |s.events| == 1 {
      assert s.events == [s.events[0]];
      assert Replay(c, s.events) == Replay(c, []);
    }
  }

  lemma {:induction false} ReplayKeeps(c: Lease, events: seq<Event>)
    requires forall i | 0 <= i < |events| :: !events[i].SetCall? && !events[i].ClearCall?
    ensures Replay(c, events) == c
    decreases |events|
  {
    if events != [] {
      ReplayKeeps(c, events[1..]);
    }
  }

  lemma {:induction false} ReplayAppend(c: Lease, a: seq<Event>, b: seq<Event>)
    ensures Replay(c, a + b) == Replay(Replay(c, a), b)
    decreases |a|
  {
    if a != [] {
      assert (a + b)[0] == a[0] && (a + b)[1..] == a[1..] + b;
      ReplayAppend(CacheStep(c, a[0]), a[1..], b);
    } else {
      assert a + b == b;
    }
  }

  /** After a 401 clears the in-memory cache, the next request fetches a new token,
      however long the rejected token had left. */
  lemma {:induction false} UnauthorizedForcesRefresh(verb: string, path: string, now: Instant, cache: Lease, n: Network,
                                                     later: Instant, n2: Network)
    requires Reaches(now, InMemoryAnswers(cache.token, cache.expiresAt, now), n)
    requires n.delivery == Delivered(StatusUnauthorized)
    ensures var after := Replay(cache, Run(verb, path, now, InMemoryAnswers(cache.token, cache.expiresAt, now), n).events);
      FetchCall in Run(verb, path, later, InMemoryAnswers(after.token, after.expiresAt, later), n2).events
  {
    InMemoryCacheAfterRequest(verb, path, now, cache, n);
    InMemoryFetchesOnlyOnMiss(verb, path, later, Lease("", ZeroTime), n2);
  }

  /** The issuer declares expires_in = 3600 at t0: the first request fetches and caches
      the token until t0 + 3540s; a request at t0 + 3000s reuses it without a fetch and
      sends it; a request at t0 + 3600s fetches again. */
  lemma {:induction false} HourLongTokenScenario(verb: string, path: string, t0: Instant, token: string, tokenType: string,
                                                 scope: string, n1: Network, n2: Network, n3: Network)
    requires token != ""
    requires n1.exchange == Answered(StatusOK, Ok(AuthResponse(token, tokenType, 3600, scope)))
    requires n1.delivery != Delivered(StatusUnauthorized)
    ensures var first := Run(verb, path, t0, InMemoryAnswers("", ZeroTime, t0), n1);
      var cached := Replay(Lease("", ZeroTime), first.events);
      var second := Run(verb, path, t0 + 3000 * Second, InMemoryAnswers(cached.token, cached.expiresAt, t0 + 3000 * Second), n2);
      var kept := Replay(cached, second.events);
      var third := Run(verb, path, t0 + 3600 * Second, InMemoryAnswers(kept.token, kept.expiresAt, t0 + 3600 * Second), n3);
      FetchCall in first.events
      && cached == Lease(token, t0 + 3540 * Second)
      && FetchCall !in second.events
      && (forall i | 0 <= i < |second.events| && second.events[i].SendCall? :: second.events[i].authorization == Bearer(token))
      && FetchCall in third.events
      && FetchesAtMostOnce(third.events)
  {
    var empty := Lease("", ZeroTime);
    InMemoryFetchesOnlyOnMiss(verb, path, t0, empty, n1);
    InMemoryCacheAfterRequest(verb, path, t0, empty, n1);
    var cached := Lease(token, t0 + 3540 * Second);
    InMemoryFetchesOnlyOnMiss(verb, path, t0 + 3000 * Second, cached, n2);
    var a2 := InMemoryAnswers(token, t0 + 3540 * Second, t0 + 3000 * Second);
    assert a2.get == TokenReply(token, None);
    CacheHitSendsCachedToken(verb, path, t0 + 3000 * Second, a2, n2);
    InMemoryCacheAfterRequest(verb, path, t0 + 3000 * Second, cached, n2);
    var kept := Replay(cached, Run(verb, path, t0 + 3000 * Second, a2, n2).events);
    assert kept == cached || kept == empty;
    InMemoryFetchesOnlyOnMiss(verb, path, t0 + 3600 * Second, kept, n3);
    AtMostOneFetch(verb, path, t0 + 3600 * Second, InMemoryAnswers(kept.token, kept.expiresAt, t0 + 3600 * Second), n3);
  }

  /** A request that fetched a non-empty token, and was not answered 401, serves every
      later request up to the new expiry from the in-memory cache: none of them fetches. */
  lemma {:induction false} RefreshServesLaterRequests(verb: string, path: string, now: Instant, cache: Lease, n: Network,
                                                      later: Instant, n2: Network)
    requires FetchCall in Run(verb, path, now, InMemoryAnswers(cache.token, cache.expiresAt, now), n).events
    requires AccessToken(now, n.exchange).Ok? && AccessToken(now, n.exchange).value.token != ""
    requires n.delivery != Delivered(StatusUnauthorized)
    requires !After(later, AccessToken(now, n.exchange).value.expiresAt)
    ensures var after := Replay(cache, Run(verb, path, now, InMemoryAnswers(cache.token, cache.expiresAt, now), n).events);
      after == AccessToken(now, n.exchange).value
      && FetchCall !in Run(verb, path, later, InMemoryAnswers(after.token, after.expiresAt, later), n2).events
  {
    InMemoryCacheAfterRequest(verb, path, now, cache, n);
    InMemoryFetchesOnlyOnMiss(verb, path, later, AccessToken(now, n.exchange).value, n2);
  }

  /** No two calls in `events` are the fetch of a token. */
  predicate FetchesAtMostOnce(events: seq<Event>)
  {
    forall i, j | 0 <= i < j < |events| :: !(events[i].FetchCall? && events[j].FetchCall?)
  }

  /** One request calls the token endpoint at most once. */
  lemma {:induction false} AtMostOneFetch(verb: string, path: string, now: Instant, a: Answers, n: Network)
    ensures FetchesAtMostOnce(Run(verb, path, now, a, n).events)
  {
    var p := TokenPhase(now, a, n.exchange);
    TokenPhaseFetchesOnce(now, a, n.exchange);
    if p.step.Proceed? {
      var s := SendPhase(verb, path, p.step.token, a.clear, n);
      SendPhaseShape(verb, path, p.step.token, a.clear, n);
      var es := p.events + s.events;
      forall i, j | 0 <= i < j < |es| ensures !(es[i].FetchCall? && es[j].FetchCall?) {
        if j >= |p.events| {
          assert es[j] == s.events[j - |p.events|];
        }
      }
    }
  }

  lemma TokenPhaseFetchesOnce(now: Instant, a: Answers, x: Exchange)
    ensures FetchesAtMostOnce(TokenPhase(now, a, x).events)
  {
  }



  // ---------------------------------------------------------------------------
  // The client object and its request method

  /** A TokenMutex implementation other than the in-memory one. What it answers is not
      visible here, so each call's answer is an input; it keeps only whether the caller
      holds its lock. */
  class SuppliedMutex {
    var held: bool

    constructor ()
      ensures !held
    {
      held := false;
    }

    method Lock(answer: Option<Error>) returns (err: Option<Error>)
      requires !held
      modifies this
      ensures err == answer && held == answer.None?
    {
      held := answer.None?;
      err := answer;
    }

    /** After Unlock the caller no longer holds the lock, whatever it answered. */
    method Unlock(answer: Option<Error>) returns (err: Option<Error>)
      requires held
      modifies this
      ensures err == answer && !held
    {
      held := false;
      err := answer;
    }
  }

  /** The TokenMutex a Client holds: the in-memory Default, or another implementation. */
  datatype Backend = InMemory(store: DefaultMutex.Default) | Supplied(mutex: SuppliedMutex)

  class Client {
    const accountID: string
    const clientID: string
    const clientSecret: string
    const tokenMutex: Backend
    /** Every call made so far on the token mutex, the token endpoint and the API. */
    ghost var trace: seq<Event>

    /** NewClient: with no TokenMutex, a fresh in-memory store is installed. */
    constructor (accountID: string, clientID: string, clientSecret: string, tokenMutex: Option<Backend>)
      ensures this.accountID == accountID && this.clientID == clientID && this.clientSecret == clientSecret
      ensures tokenMutex.Some? ==> this.tokenMutex == tokenMutex.value
      ensures tokenMutex.None? ==> this.tokenMutex.InMemory? && fresh(this.tokenMutex.store)
      ensures tokenMutex.None? ==> Cache() == Lease("", ZeroTime) && !Held()
      ensures trace == []
    {
      this.accountID := accountID;
      this.clientID := clientID;
      this.clientSecret := clientSecret;
      if tokenMutex.None? {
        var d := new DefaultMutex.Default();
        this.tokenMutex := InMemory(d);
      } else {
        this.tokenMutex := tokenMutex.value;
      }
      trace := [];
    }

    ghost function Mutex(): object
    {
      match tokenMutex
      case InMemory(d) => d
      case Supplied(p) => p
    }

    /** Whether this client holds the token mutex's lock. */
    ghost predicate Held()
      reads Mutex()
    {
      match tokenMutex
      case InMemory(d) => d.held
      case Supplied(p) => p.held
    }

    /** What the in-memory store caches; nothing for another implementation. */
    ghost function Cache(): Lease
      reads Mutex()
    {
      match tokenMutex
      case InMemory(d) => Lease(d.token, d.expiresAt)
      case Supplied(_) => Lease("", ZeroTime)
    }

    /** The answers the token mutex gives during a request begun at `now`: computed from
        the in-memory store, or those of the supplied implementation. */
    ghost function AnswersAt(a: Answers, now: Instant): Answers
      reads Mutex()
    {
      match tokenMutex
      case InMemory(d) => InMemoryAnswers(d.token, d.expiresAt, now)
      case Supplied(_) => a
    }

    method LockMutex(a: Answers) returns (err: Option<Error>)
      requires !Held()
      modifies this, Mutex()
      ensures err == (if tokenMutex.InMemory? then None else a.lock)
      ensures Held() == err.None? && Cache() == old(Cache())
      ensures trace == old(trace) + [LockCall(err.None?)]
    {
      match tokenMutex
      {
        case InMemory(d) => err := d.Lock(TokenMutexLockDuration);
        case Supplied(p) => err := p.Lock(a.lock);
      }
      trace := trace + [LockCall(err.None?)];
    }

    method UnlockMutex(a: Answers) returns (err: Option<Error>)
      requires Held()
      modifies this, Mutex()
      ensures err == (if tokenMutex.InMemory? then None else a.unlock)
      ensures !Held() && Cache() == old(Cache())
      ensures trace == old(trace) + [UnlockCall]
    {
      match tokenMutex
      {
        case InMemory(d) => err := d.Unlock();
        case Supplied(p) => err := p.Unlock(a.unlock);
      }
      trace := trace + [UnlockCall];
    }

    method GetToken(now: Instant, a: Answers) returns (t: string, err: Option<Error>)
      modifies this
      ensures TokenReply(t, err) == AnswersAt(a, now).get
      ensures trace == old(trace) + [GetCall]
    {
      match tokenMutex
      {
        case InMemory(d) => t, err := d.Get(now);
        case Supplied(_) => t, err := a.get.token, a.get.err;
      }
      trace := trace + [GetCall];
    }

    method SetToken(lease: Lease, a: Answers) returns (err: Option<Error>)
      modifies this, Mutex()
      ensures err == (if tokenMutex.InMemory? then None else a.store)
      ensures Held() == old(Held())
      ensures Cache() == (if tokenMutex.InMemory? then lease else old(Cache()))
      ensures trace == old(trace) + [SetCall(lease.token, lease.expiresAt)]
    {
      match tokenMutex
      {
        case InMemory(d) => err := d.Set(lease.token, lease.expiresAt);
        case Supplied(_) => err := a.store;
      }
      trace := trace + [SetCall(lease.token, lease.expiresAt)];
    }

    /** Clear takes no lock: it happens after the lock was released. */
    method ClearCache(a: Answers) returns (err: Option<Error>)
      modifies this, Mutex()
      ensures err == (if tokenMutex.InMemory? then None else a.clear)
      ensures Held() == old(Held())
      ensures Cache() == (if tokenMutex.InMemory? then Lease("", ZeroTime) else old(Cache()))
      ensures trace == old(trace) + [ClearCall]
    {
      match tokenMutex
      {
        case InMemory(d) => err := d.Clear();
        case Supplied(_) => err := a.clear;
      }
      trace := trace + [ClearCall];
    }

    /** accessToken, called only while the lock is held. */
    method FetchAccessToken(now: Instant, x: Exchange) returns (r: Result<Lease>)
      requires Held()
      modifies this
      ensures r == AccessToken(now, x)
      ensures trace == old(trace) + [FetchCall]
    {
      r := AccessToken(now, x);
      trace := trace + [FetchCall];
    }

    /** httpClient.Do for the API request, which needs the lock released. */
    method Deliver(verb: string, url: string, authorization: string, d: Delivery) returns (r: Delivery)
      requires !Held()
      modifies this
      ensures r == d
      ensures trace == old(trace) + [SendCall(verb, url, authorization)]
    {
      r := d;
      trace := trace + [SendCall(verb, url, authorization)];
    }

    /** The token prefix of request (lock, get, fetch and set on a miss, unlock). */
    method AcquireToken(now: Instant, a: Answers, x: Exchange) returns (step: TokenStep)
      requires !Held()
      modifies this, Mutex()
      ensures !Held()
      ensures step == TokenPhase(now, old(AnswersAt(a, now)), x).step
      ensures trace == old(trace) + TokenPhase(now, old(AnswersAt(a, now)), x).events
      ensures tokenMutex.InMemory? ==> Cache() == Replay(old(Cache()), TokenPhase(now, old(AnswersAt(a, now)), x).events)
    {
      ghost var answers := AnswersAt(a, now);
      if tokenMutex.InMemory? {
        InMemoryTokenPhaseReplay(now, Cache(), x);
      }
      var err := LockMutex(a);
      if err.Some? {
        return Abort(Wrapped(LockingMsg, err));
      }
      assert AnswersAt(a, now) == answers;
      var token;
      token, err := GetToken(now, a);
      if err.Some? {
        if !IsCacheMiss(err.value) {
          err := UnlockMutex(a);
          if err.Some? {
            return Abort(Wrapped(UnlockingMsg, err));
          }
          return Abort(Wrapped(GettingMsg, err));
        }
        var lease := FetchAccessToken(now, x);
        if lease.Err? {
          err := UnlockMutex(a);
          if err.Some? {
            return Abort(Wrapped(UnlockingMsg, err));
          }
          return Abort(Wrapped(RequestingMsg, err));
        }
        token := lease.value.token;
        err := SetToken(lease.value, a);
        if err.Some? {
          err := UnlockMutex(a);
          if err.Some? {
            return Abort(Wrapped(UnlockingMsg, err));
          }
          return Abort(Wrapped(SettingMsg, err));
        }
      }
      err := UnlockMutex(a);
      if err.Some? {
        return Abort(Wrapped(UnlockingMsg, err));
      }
      return Proceed(token);
    }

    /** The rest of request: build the URL, send with the token, handle the status. */
    method Send(verb: string, path: string, token: string, a: Answers, n: Network) returns (reply: Reply)
      requires !Held()
      modifies this, Mutex()
      ensures !Held()
      ensures var o := SendPhase(verb, path, token, if tokenMutex.InMemory? then None else a.clear, n);
        trace == old(trace) + o.events && reply == o.reply
        && (tokenMutex.InMemory? ==> Cache() == Replay(old(Cache()), o.events))
    {
      if tokenMutex.InMemory? {
        SendPhaseReplay(verb, path, token, n, Cache());
      }
      if n.query.Err? {
        return Reply(None, Some(Wrapped(QueryMsg, Some(n.query.error))));
      }
      var u := RequestURL(path, n.query.value);
      if n.marshal.Some? {
        return Reply(None, Some(Wrapped(MarshalMsg, n.marshal)));
      }
      if n.newRequest.Some? {
        return Reply(None, Some(Wrapped(NewRequestMsg, n.newRequest)));
      }
      var res := Deliver(verb, u, Bearer(token), n.delivery);
      if res.NotSent? {
        return Reply(None, Some(Wrapped(DoMsg, Some(res.err))));
      }
      var status := res.status;
      if status > StatusIMUsed {
        if status == StatusUnauthorized {
          var err := ClearCache(a);
          if err.Some? {
            return Reply(None, Some(Wrapped(ClearingMsg, err)));
          }
        }
        if n.decoded.Err? {
          return Reply(Some(Response(status)), Some(Wrapped(DecodeMsg, Some(n.decoded.error))));
        }
        var body := n.decoded.value;
        return Reply(Some(Response(status)), Some(Wrapped(ApiMsg, Some(ApiError(body.code, body.message)))));
      }
      if n.hasOut && n.decoded.Err? {
        return Reply(Some(Response(status)), Some(Wrapped(DecodeMsg, Some(n.decoded.error))));
      }
      return Reply(Some(Response(status)), None);
    }

    /** request(ctx, verb, path, ...) begun at `now`: the calls it makes are exactly those
        of Run, so the lemmas about Run hold of it, and it returns Run's reply. */
    method Request(verb: string, path: string, now: Instant, a: Answers, n: Network) returns (reply: Reply)
      requires !Held()
      modifies this, Mutex()
      ensures !Held()
      ensures trace == old(trace) + Run(verb, path, now, old(AnswersAt(a, now)), n).events
      ensures reply == Run(verb, path, now, old(AnswersAt(a, now)), n).reply
      ensures tokenMutex.InMemory? ==> Cache() == Replay(old(Cache()), Run(verb, path, now, old(AnswersAt(a, now)), n).events)
    {
      ghost var answers := AnswersAt(a, now);
      ghost var cache := Cache();
      var step := AcquireToken(now, a, n.exchange);
      ghost var p := TokenPhase(now, answers, n.exchange);
      match step
      case Abort(e) =>
        reply := Reply(None, Some(e));
      case Proceed(t) =>
        reply := Send(verb, path, t, a, n);
        ReplayAppend(cache, p.events, SendPhase(verb, path, t, answers.clear, n).events);
    }
  }
}
