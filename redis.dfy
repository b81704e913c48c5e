/** The distributed token store (zoom/tokenmutex/redis.go): the token lives under one
    key of a Redis server, and a redislock lock serialises refreshes across processes.
    The server is a map from key to stored value and TTL; what the Redis client and
    redislock answer on the wire (a lost connection, a lock held elsewhere) is passed
    in as each call's outcome. */
module RedisMutex {
  import opened Errors
  import opened Instants

  /** redisDefaultKey */
  const DefaultKey: string := "zoom_access_token"
  /** redisLockKey */
  const LockKey: string := "zoom_access_token_lock"

  /** The key NewRedis stores the token under. */
  function DataKey(key: string): (k: string)
    ensures key == "" ==> k == DefaultKey
    ensures key != "" ==> k == key
    ensures k != ""
  {
    if |key| == 0 then DefaultKey else key
  }

  /** The data key collides with the lock key exactly when the caller passes the lock
      key's name; the default never does. */
  lemma DataKeyVersusLockKey(key: string)
    ensures DataKey(key) == LockKey <==> key == LockKey
    ensures DataKey("") != LockKey
    ensures DataKey(DataKey(key)) == DataKey(key)
  {
    assert |DefaultKey| != |LockKey|;
  }

  /** The TTL Set writes, in whole seconds: expiresAt.Unix() - now.Unix(). */
  function Ttl(expiresAt: Instant, now: Instant): (ttl: int)
    ensures (ttl - 1) * Second < expiresAt - now < (ttl + 1) * Second
  {
    Unix(expiresAt) - Unix(now)
  }

  /** A stored string and the TTL, in seconds, it was written with. */
  datatype Entry = Entry(value: string, ttlSeconds: int)

  /** A lock obtained from redislock. */
  datatype LockHandle = LockHandle(id: string)

  /** The Redis server both processes talk to. */
  class Server {
    var data: map<string, Entry>

    constructor (data: map<string, Entry>)
      ensures this.data == data
    {
      this.data := data;
    }
  }

  /** What GET answers for `key` when the server holds `data`: a missing key is
      ErrTokenNotExist, a present one its stored value. */
  function Lookup(data: map<string, Entry>, key: string): (r: TokenReply)
    ensures r.err.None? <==> key in data
    ensures key in data ==> r.token == data[key].value
    ensures key !in data ==> r == TokenReply("", Some(TokenNotExist))
  {
    if key in data then TokenReply(data[key].value, None) else TokenReply("", Some(TokenNotExist))
  }

  class Redis {
    const client: Server
    const key: string
    /** The last lock handle obtained; Unlock does not reset it. */
    var lock: Option<LockHandle>

    /** NewRedis: a nil client panics, so it is the caller's obligation; an empty key
        falls back to the default key. */
    constructor (client: Server?, key: string)
      requires client != null
      ensures this.client == client && this.key == DataKey(key) && lock == None
    {
      this.client := client;
      this.key := if |key| == 0 then DefaultKey else key;
      lock := None;
    }

    /** Lock obtains the lock key through redislock, whose answer is `obtained`; on
        success the handle is kept, on failure the handle is left as it was. */
    method Lock(obtained: Result<LockHandle>) returns (err: Option<Error>)
      modifies this`lock
      ensures obtained.Ok? ==> lock == Some(obtained.value) && err == None
      ensures obtained.Err? ==> lock == old(lock) && err == Some(Errorf("obtaining lock", obtained.error))
    {
      if obtained.Err? {
        return Some(Errorf("obtaining lock", obtained.error));
      }
      lock := Some(obtained.value);
      err := None;
    }

    /** Unlock releases the kept handle, whose answer is `released`; with no handle it
        is a no-op that succeeds. */
    method Unlock(released: Option<Error>) returns (err: Option<Error>)
      ensures lock.None? ==> err == None
      ensures lock.Some? && released.None? ==> err == None
      ensures lock.Some? && released.Some? ==> err == Some(Errorf("releasing lock", released.value))
    {
      if lock.None? {
        return None;
      }
      if released.Some? {
        return Some(Errorf("releasing lock", released.value));
      }
      err := None;
    }

    /** Get reads the token key; `fault` is an error of the connection, which is
        wrapped and never taken for a missing key. */
    method Get(fault: Option<Error>) returns (t: string, err: Option<Error>)
      ensures fault.Some? ==> t == "" && err == Some(Errorf("getting key", fault.value))
      ensures fault.None? && key !in client.data ==> t == "" && err == Some(TokenNotExist)
      ensures fault.None? && key in client.data ==> t == client.data[key].value && err == None
    {
      if fault.Some? {
        return "", Some(Errorf("getting key", fault.value));
      }
      var reply := Lookup(client.data, key);
      t, err := reply.token, reply.err;
    }

    /** Set writes the token under the data key with a TTL of the whole seconds from
        now to expiresAt, and touches no other key. */
    method Set(t: string, expiresAt: Instant, now: Instant, fault: Option<Error>) returns (err: Option<Error>)
      modifies client
      ensures fault.Some? ==> client.data == old(client.data) && err == Some(Errorf("setting key", fault.value))
      ensures fault.None? ==> client.data == old(client.data)[key := Entry(t, Ttl(expiresAt, now))] && err == None
    {
      if fault.Some? {
        return Some(Errorf("setting key", fault.value));
      }
      client.data := client.data[key := Entry(t, Ttl(expiresAt, now))];
      err := None;
    }

    /** Clear deletes the data key, whether or not it exists, and touches no other key. */
    method Clear(fault: Option<Error>) returns (err: Option<Error>)
      modifies client
      ensures fault.Some? ==> client.data == old(client.data) && err == Some(Errorf("deleting key", fault.value))
      ensures fault.None? ==> client.data == old(client.data) - {key} && err == None
    {
      if fault.Some? {
        return Some(Errorf("deleting key", fault.value));
      }
      client.data := client.data - {key};
      err := None;
    }
  }

  /** Writing a key and reading it back returns what was written, whatever the TTL;
      deleting it makes it absent; and neither touches any other key. */
  lemma {:induction false} WriteThenRead(data: map<string, Entry>, key: string, other: string, t: string, ttl: int)
    requires other != key
    ensures Lookup(data[key := Entry(t, ttl)], key) == TokenReply(t, None)
    ensures Lookup(data - {key}, key) == TokenReply("", Some(TokenNotExist))
    ensures Lookup(data[key := Entry(t, ttl)], other) == Lookup(data, other)
    ensures Lookup(data - {key}, other) == Lookup(data, other)
  {
  }

  /** The sequence the store's tests drive: Set then Get returns the token, and after
      Clear the key is gone while the lock key keeps whatever it held. */
  method SetGetClear(r: Redis, t: string, expiresAt: Instant, now: Instant)
    returns (got: string, gotErr: Option<Error>, after: string, afterErr: Option<Error>)
    modifies r.client
    ensures got == t && gotErr == None
    ensures after == "" && afterErr == Some(TokenNotExist)
    ensures r.key !in r.client.data
    ensures r.key != LockKey ==> (LockKey in r.client.data <==> LockKey in old(r.client.data))
    ensures r.key != LockKey && LockKey in r.client.data ==> r.client.data[LockKey] == old(r.client.data)[LockKey]
  {
    var err := r.Set(t, expiresAt, now, None);
    got, gotErr := r.Get(None);
    err := r.Clear(None);
    after, afterErr := r.Get(None);
  }
}
