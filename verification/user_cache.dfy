/**
 * The attempt-counter accessors of the user service: the cache key of an
 * email, and how a cache reply becomes an attempt count. The methods that
 * issue the cache commands live on `Service.UserService`.
 */
module UserCache {
  import opened Wrappers
  import opened Strconv
  import opened Redis
  import opened Failure

  /** The namespace `GetLoginAttemptKey` writes. */
  const SourceKeyPrefix: string := "user:login:attempt:"
  /** The namespace the service's tests expect on every cache command. */
  const TestKeyPrefix: string := "login_attempt:"

  /** `GetLoginAttemptKey`: the counter of `email` lives under a fixed prefix followed by the email. */
  function LoginAttemptKey(prefix: string, email: string): (key: string)
    ensures |key| == |prefix| + |email|
    ensures key[..|prefix|] == prefix && key[|prefix|..] == email
  {
    prefix + email
  }

  /** Distinct emails never share a counter. */
  lemma KeysAreDistinct(prefix: string, email1: string, email2: string)
    requires email1 != email2
    ensures LoginAttemptKey(prefix, email1) != LoginAttemptKey(prefix, email2)
  {
    assert LoginAttemptKey(prefix, email1)[|prefix|..] == email1;
  }

  /** The source's key and the key its tests expect never coincide, whatever the email. */
  lemma SourceKeyIsNotTestKey(email: string)
    ensures LoginAttemptKey(SourceKeyPrefix, email) != LoginAttemptKey(TestKeyPrefix, email)
  {
    assert LoginAttemptKey(SourceKeyPrefix, email)[0] == 'u';
    assert LoginAttemptKey(TestKeyPrefix, email)[0] == 'l';
  }

  /**
   * What `GetLoginAttempt` returns for the cache's reply `(value, err)`: a cache
   * error, `redis.Nil` included, comes back unchanged with count 0; an empty
   * string is count 0 with no error; anything else is `strconv.Atoi`'s answer.
   */
  function CountFromReply(value: string, err: Option<RedisError>): (r: (Int64, Option<Error>))
    ensures err.Some? ==> r == (0, Some(CacheError(err.value)))
    ensures err.None? && value == "" ==> r == (0, None)
    ensures err.None? && value != "" ==>
              (r.1.None? <==> IsDecimal(value) && MinInt64 <= DecimalValue(value) <= MaxInt64)
    ensures err.None? && value != "" && r.1.None? ==> r.0 == DecimalValue(value)
    ensures err.None? && value != "" && r.1.Some? ==> r.1.value.Parse? && r.1.value.num.num == value
  {
    if err.Some? then (0, Some(CacheError(err.value)))
    else if value == "" then (0, None)
    else
      var (n, perr) := Atoi(value);
      (n, if perr.Some? then Some(Parse(perr.value)) else None)
  }

  /** The count `GetLoginAttempt(email)` reads from `store` over `link`. */
  function ReadCount(store: map<string, Entry>, prefix: string, email: string, link: Link): (r: (Int64, Option<Error>))
    ensures link.Down? ==> r == (0, Some(CacheError(Io(link.reason))))
    ensures link.Up? && LoginAttemptKey(prefix, email) !in store ==> r == (0, Some(CacheError(Nil)))
    ensures var key := LoginAttemptKey(prefix, email);
            r.1.None? <==>
              (link.Up? && key in store &&
               (store[key].value == "" ||
                (IsDecimal(store[key].value) && MinInt64 <= DecimalValue(store[key].value) <= MaxInt64)))
    ensures var key := LoginAttemptKey(prefix, email);
            r.1.None? && key in store ==>
              r.0 == (if store[key].value == "" then 0 else DecimalValue(store[key].value))
  {
    var (value, err) := Reply(store, LoginAttemptKey(prefix, email), link);
    CountFromReply(value, err)
  }

  /**
   * Round trip: once `SetLoginAttempt(email, n, ttl)` has reached the server,
   * `GetLoginAttempt(email)` reads `n` back with no error, whatever else the
   * cache holds and whatever TTL was used (expiry in between is not modelled).
   */
  lemma SetThenGet(store: map<string, Entry>, prefix: string, email: string, n: Int64, ttl: Duration)
    ensures ReadCount(Commit(store, Write(LoginAttemptKey(prefix, email), Itoa(n), ttl), Up), prefix, email, Up)
            == (n, None)
  {
    AtoiItoa(n);
  }

  /** A write under one email leaves every other email's count as it was. */
  lemma SetLeavesOtherEmails(store: map<string, Entry>, prefix: string, email: string, other: string,
                             w: Write, link: Link, readLink: Link)
    requires w.key == LoginAttemptKey(prefix, email) && other != email
    ensures ReadCount(Commit(store, w, link), prefix, other, readLink) == ReadCount(store, prefix, other, readLink)
  {
    KeysAreDistinct(prefix, email, other);
  }

  /** After the counter's TTL lapses, the next read reports `redis.Nil` with count 0. */
  lemma ExpiredCounterReadsAsNil(store: map<string, Entry>, prefix: string, email: string)
    ensures ReadCount(store - {LoginAttemptKey(prefix, email)}, prefix, email, Up) == (0, Some(CacheError(Nil)))
  {
  }
}
