/**
 * The login-attempt throttling of `LoginUser`, as a function from the cache's
 * state and the collaborators' answers to the result and the cache commands
 * issued, with the properties the service's tests and design rely on.
 */
module Login {
  import opened Wrappers
  import opened Strconv
  import opened Redis
  import opened Failure
  import opened UserCache

  /** The `Internal` settings the flow reads, and the key namespace. */
  datatype Config = Config(maxLoginAttempt: Int64, loginAttemptTTL: Duration, keyPrefix: string)

  /** The repository's answer to `ResolveUserByEmail`: the stored password digest, or why there is none. */
  datatype Lookup = Found(digest: string) | NotFound | Fault(reason: string)

  /** The network's answer to each of the three cache round trips a login may make. */
  datatype Links = Links(read: Link, writeBack: Link, bump: Link)

  const AllUp: Links := Links(Up, Up, Up)

  /**
   * What one login does: its result and error, the `Set` commands issued (in
   * order), the cache afterwards, and whether the repository was asked.
   */
  datatype Outcome = Outcome(ok: bool, err: Option<Error>, issued: seq<Write>,
                             store: map<string, Entry>, queried: bool)

  /** The count read at the start of a login is usable: present, empty, or missing (`redis.Nil`). */
  predicate ReadUsable(r: (Int64, Option<Error>))
  {
    r.1.None? || r.1 == Some(CacheError(Nil))
  }

  /** The credentials are rejected: unknown email, or a digest the password does not match. */
  predicate CredentialsRejected(password: string, answer: Lookup, verify: (string, string) -> bool)
  {
    answer.NotFound? || (answer.Found? && !verify(password, answer.digest))
  }

  /**
   * `LoginUser(email, password)`: read the counter (a missing key counts as 0);
   * at or over the limit, reject as Forbidden; otherwise write the count back
   * with a fresh TTL, look the user up, and on an unknown email or a wrong
   * password write count + 1 and reject as Unauthorized.
   */
  function Attempt(cfg: Config, store: map<string, Entry>, email: string, password: string,
                   links: Links, answer: Lookup, verify: (string, string) -> bool): (o: Outcome)
    ensures o.ok ==> o.err.None? && o.queried && |o.issued| == 1
    ensures !o.ok ==> o.err.Some?
    ensures o.queried ==> o.issued != []
    ensures |o.issued| <= 2
  {
    var r := ReadCount(store, cfg.keyPrefix, email, links.read);
    if !ReadUsable(r) then Outcome(false, r.1, [], store, false)
    else if r.0 >= cfg.maxLoginAttempt then Outcome(false, Some(Forbidden), [], store, false)
    else Proceed(cfg, store, email, r.0, password, links, answer, verify)
  }

  /** Below the limit: write the count back, look the user up, check the password. */
  function Proceed(cfg: Config, store: map<string, Entry>, email: string, count: Int64, password: string,
                   links: Links, answer: Lookup, verify: (string, string) -> bool): (o: Outcome)
    requires count < cfg.maxLoginAttempt
    ensures o.issued != [] && o.issued[0] == Write(LoginAttemptKey(cfg.keyPrefix, email), Itoa(count), cfg.loginAttemptTTL)
    ensures o.queried <==> links.writeBack.Up?
    ensures o.ok ==> o.err.None? && |o.issued| == 1
    ensures !o.ok ==> o.err.Some?
    ensures |o.issued| <= 2
  {
    var key := LoginAttemptKey(cfg.keyPrefix, email);
    var rearm := Write(key, Itoa(count), cfg.loginAttemptTTL);
    var store1 := Commit(store, rearm, links.writeBack);
    if links.writeBack.Down? then
      Outcome(false, Some(CacheError(Io(links.writeBack.reason))), [rearm], store1, false)
    else match answer
      case Fault(reason) => Outcome(false, Some(Repo(reason)), [rearm], store1, true)
      case NotFound => Reject(cfg, key, count, store1, links.bump, rearm)
      case Found(digest) =>
        if verify(password, digest) then Outcome(true, None, [rearm], store1, true)
        else Reject(cfg, key, count, store1, links.bump, rearm)
  }

  /** A rejected credential: the counter goes to `count + 1`, then Unauthorized (or the write's error). */
  function Reject(cfg: Config, key: string, count: Int64, store: map<string, Entry>, link: Link,
                  rearm: Write): (o: Outcome)
    requires count < cfg.maxLoginAttempt
    ensures !o.ok && o.queried
    ensures o.err == Some(Unauthorized) <==> link.Up?
    ensures link.Down? ==> o.err == Some(CacheError(Io(link.reason)))
    ensures o.issued == [rearm, Write(key, Itoa(count + 1), cfg.loginAttemptTTL)]
    ensures link.Up? ==> o.store == store[key := Entry(Itoa(count + 1), cfg.loginAttemptTTL)]
    ensures link.Down? ==> o.store == store
  {
    var bump := Write(key, Itoa(count + 1), cfg.loginAttemptTTL);
    var err := if link.Up? then Unauthorized else CacheError(Io(link.reason));
    Outcome(false, Some(err), [rearm, bump], Commit(store, bump, link), true)
  }

  // ---------------------------------------------------------------------------
  // Properties of one login
  // ---------------------------------------------------------------------------

  /** Any read error other than `redis.Nil` (I/O or a non-numeric counter) is returned as is, with no further step. */
  lemma ReadErrorPropagates(cfg: Config, store: map<string, Entry>, email: string, password: string,
                            links: Links, answer: Lookup, verify: (string, string) -> bool)
    requires !ReadUsable(ReadCount(store, cfg.keyPrefix, email, links.read))
    ensures var o := Attempt(cfg, store, email, password, links, answer, verify);
            !o.ok && o.err == ReadCount(store, cfg.keyPrefix, email, links.read).1 && o.err.Some?
            && o.err != Some(CacheError(Nil)) && o.issued == [] && o.store == store && !o.queried
  {
  }

  /**
   * Lockout: with a count at or over the limit the login is Forbidden (403),
   * issues no `Set` and never reaches the repository or the verifier.
   */
  lemma LockedOutIsForbidden(cfg: Config, store: map<string, Entry>, email: string, password: string,
                             links: Links, answer: Lookup, verify: (string, string) -> bool)
    requires ReadUsable(ReadCount(store, cfg.keyPrefix, email, links.read))
    requires ReadCount(store, cfg.keyPrefix, email, links.read).0 >= cfg.maxLoginAttempt
    ensures var o := Attempt(cfg, store, email, password, links, answer, verify);
            !o.ok && o.err == Some(Forbidden) && Code(o.err.value) == 403
            && o.issued == [] && o.store == store && !o.queried
  {
  }

  /** The threshold is inclusive: a stored count equal to the limit already locks. */
  lemma ThresholdIsInclusive(cfg: Config, store: map<string, Entry>, email: string, password: string,
                             answer: Lookup, verify: (string, string) -> bool)
    requires LoginAttemptKey(cfg.keyPrefix, email) in store
    requires store[LoginAttemptKey(cfg.keyPrefix, email)].value == Itoa(cfg.maxLoginAttempt)
    ensures Attempt(cfg, store, email, password, AllUp, answer, verify).err == Some(Forbidden)
  {
    AtoiItoa(cfg.maxLoginAttempt);
  }

  /** A missing counter is read as 0 prior attempts, never as an error. */
  lemma MissingCounterIsZero(cfg: Config, store: map<string, Entry>, email: string)
    requires LoginAttemptKey(cfg.keyPrefix, email) !in store
    ensures ReadUsable(ReadCount(store, cfg.keyPrefix, email, Up))
    ensures ReadCount(store, cfg.keyPrefix, email, Up).0 == 0
  {
  }

  /**
   * The first rejected login from a missing counter writes "0" and then "1"
   * under the email's key, and fails as Unauthorized.
   */
  lemma FirstRejection(cfg: Config, store: map<string, Entry>, email: string, password: string,
                       answer: Lookup, verify: (string, string) -> bool)
    requires LoginAttemptKey(cfg.keyPrefix, email) !in store
    requires 0 < cfg.maxLoginAttempt
    requires CredentialsRejected(password, answer, verify)
    ensures var key := LoginAttemptKey(cfg.keyPrefix, email);
            Attempt(cfg, store, email, password, AllUp, answer, verify)
            == Outcome(false, Some(Unauthorized),
                       [Write(key, "0", cfg.loginAttemptTTL), Write(key, "1", cfg.loginAttemptTTL)],
                       store[key := Entry("1", cfg.loginAttemptTTL)], true)
  {
    MissingCounterIsZero(cfg, store, email);
    RejectionIncrementsCounter(cfg, store, email, password, answer, verify);
    assert Itoa(0) == "0" && Itoa(1) == "1";
  }

  /**
   * Below the limit, the first command is always the current count written back
   * under the email's key with the configured TTL, before the repository is asked.
   */
  lemma BelowLimitRearmsFirst(cfg: Config, store: map<string, Entry>, email: string, password: string,
                              links: Links, answer: Lookup, verify: (string, string) -> bool)
    requires ReadUsable(ReadCount(store, cfg.keyPrefix, email, links.read))
    requires ReadCount(store, cfg.keyPrefix, email, links.read).0 < cfg.maxLoginAttempt
    ensures var o := Attempt(cfg, store, email, password, links, answer, verify);
            var count := ReadCount(store, cfg.keyPrefix, email, links.read).0;
            |o.issued| >= 1
            && o.issued[0] == Write(LoginAttemptKey(cfg.keyPrefix, email), Itoa(count), cfg.loginAttemptTTL)
            && (o.queried <==> links.writeBack.Up?)
  {
  }

  /**
   * A rejected credential increases the counter by exactly one over the count
   * read at the start, with a fresh TTL, and is reported as Unauthorized (401).
   */
  lemma RejectionIncrementsCounter(cfg: Config, store: map<string, Entry>, email: string, password: string,
                                   answer: Lookup, verify: (string, string) -> bool)
    requires ReadUsable(ReadCount(store, cfg.keyPrefix, email, Up))
    requires ReadCount(store, cfg.keyPrefix, email, Up).0 < cfg.maxLoginAttempt
    requires CredentialsRejected(password, answer, verify)
    ensures var o := Attempt(cfg, store, email, password, AllUp, answer, verify);
            var count := ReadCount(store, cfg.keyPrefix, email, Up).0;
            var key := LoginAttemptKey(cfg.keyPrefix, email);
            !o.ok && o.err == Some(Unauthorized) && Code(o.err.value) == 401 && o.queried
            && o.issued == [Write(key, Itoa(count), cfg.loginAttemptTTL), Write(key, Itoa(count + 1), cfg.loginAttemptTTL)]
            && o.store == store[key := Entry(Itoa(count + 1), cfg.loginAttemptTTL)]
            && ReadCount(o.store, cfg.keyPrefix, email, Up) == (count + 1, None)
  {
    var count := ReadCount(store, cfg.keyPrefix, email, Up).0;
    AtoiItoa(count + 1);
  }

  /** Enumeration resistance: an unknown email and a wrong password are indistinguishable, in result and in effect. */
  lemma UnknownEmailLikeWrongPassword(cfg: Config, store: map<string, Entry>, email: string, password: string,
                                      links: Links, digest: string, verify: (string, string) -> bool)
    requires !verify(password, digest)
    ensures Attempt(cfg, store, email, password, links, NotFound, verify)
            == Attempt(cfg, store, email, password, links, Found(digest), verify)
  {
  }

  /**
   * Success: a matching password below the limit succeeds with no error; the
   * only command is the write-back, so the count is neither raised nor reset.
   */
  lemma MatchSucceedsWithoutReset(cfg: Config, store: map<string, Entry>, email: string, password: string,
                                  digest: string, verify: (string, string) -> bool)
    requires ReadUsable(ReadCount(store, cfg.keyPrefix, email, Up))
    requires ReadCount(store, cfg.keyPrefix, email, Up).0 < cfg.maxLoginAttempt
    requires verify(password, digest)
    ensures var o := Attempt(cfg, store, email, password, AllUp, Found(digest), verify);
            var count := ReadCount(store, cfg.keyPrefix, email, Up).0;
            o.ok && o.err == None && o.queried
            && o.issued == [Write(LoginAttemptKey(cfg.keyPrefix, email), Itoa(count), cfg.loginAttemptTTL)]
            && ReadCount(o.store, cfg.keyPrefix, email, Up) == (count, None)
  {
    var count := ReadCount(store, cfg.keyPrefix, email, Up).0;
    AtoiItoa(count);
  }

  /** A repository fault is returned as is, after the write-back and without an increment. */
  lemma RepositoryFaultNoIncrement(cfg: Config, store: map<string, Entry>, email: string, password: string,
                                   reason: string, verify: (string, string) -> bool)
    requires ReadUsable(ReadCount(store, cfg.keyPrefix, email, Up))
    requires ReadCount(store, cfg.keyPrefix, email, Up).0 < cfg.maxLoginAttempt
    ensures var o := Attempt(cfg, store, email, password, AllUp, Fault(reason), verify);
            !o.ok && o.err == Some(Repo(reason)) && |o.issued| == 1 && o.queried
  {
  }

  /** The login succeeds exactly when every step does, and an error is returned exactly when it does not. */
  lemma SucceedsExactly(cfg: Config, store: map<string, Entry>, email: string, password: string,
                        links: Links, answer: Lookup, verify: (string, string) -> bool)
    ensures var o := Attempt(cfg, store, email, password, links, answer, verify);
            var r := ReadCount(store, cfg.keyPrefix, email, links.read);
            (o.ok <==> ReadUsable(r) && r.0 < cfg.maxLoginAttempt && links.writeBack.Up?
                       && answer.Found? && verify(password, answer.digest))
            && (o.ok <==> o.err.None?)
  {
  }

  /**
   * Every command goes to this email's key with the configured TTL, at most two
   * are issued, and no other key of the cache changes.
   */
  lemma OnlyOwnCounterWritten(cfg: Config, store: map<string, Entry>, email: string, password: string,
                              links: Links, answer: Lookup, verify: (string, string) -> bool)
    ensures var o := Attempt(cfg, store, email, password, links, answer, verify);
            var key := LoginAttemptKey(cfg.keyPrefix, email);
            |o.issued| <= 2
            && (forall i :: 0 <= i < |o.issued| ==>
                  o.issued[i].key == key && o.issued[i].ttl == cfg.loginAttemptTTL)
            && o.store - {key} == store - {key}
  {
    var key := LoginAttemptKey(cfg.keyPrefix, email);
    var r := ReadCount(store, cfg.keyPrefix, email, links.read);
    var o := Attempt(cfg, store, email, password, links, answer, verify);
    if ReadUsable(r) && r.0 < cfg.maxLoginAttempt {
      var rearm := Write(key, Itoa(r.0), cfg.loginAttemptTTL);
      var store1 := Commit(store, rearm, links.writeBack);
      OneWriteKeepsOthers(store, rearm, links.writeBack);
      if links.writeBack.Up? && CredentialsRejected(password, answer, verify) {
        var bump := Write(key, Itoa(r.0 + 1), cfg.loginAttemptTTL);
        assert o.store == Commit(store1, bump, links.bump);
        OneWriteKeepsOthers(store1, bump, links.bump);
      } else {
        assert o.store == store1 || o.store == store;
      }
    }
  }

  /** A `Set` on one key leaves the rest of the map as it was. */
  lemma OneWriteKeepsOthers(store: map<string, Entry>, w: Write, link: Link)
    ensures Commit(store, w, link) - {w.key} == store - {w.key}
  {
  }

  // ---------------------------------------------------------------------------
  // The counter over several logins
  // ---------------------------------------------------------------------------

  /** The counter of `email` holds a count between 0 and the limit (an empty value counts as 0). */
  predicate CounterInRange(cfg: Config, store: map<string, Entry>, email: string)
  {
    var key := LoginAttemptKey(cfg.keyPrefix, email);
    key in store ==>
      var v := store[key].value;
      v == "" || (IsDecimal(v) && 0 <= DecimalValue(v) <= cfg.maxLoginAttempt)
  }

  /**
   * The counter never goes negative and never passes the limit: a counter in
   * range stays in range whatever the login's inputs and the network do.
   */
  lemma CounterStaysInRange(cfg: Config, store: map<string, Entry>, email: string, password: string,
                            links: Links, answer: Lookup, verify: (string, string) -> bool)
    requires CounterInRange(cfg, store, email)
    ensures CounterInRange(cfg, Attempt(cfg, store, email, password, links, answer, verify).store, email)
  {
    var key := LoginAttemptKey(cfg.keyPrefix, email);
    var r := ReadCount(store, cfg.keyPrefix, email, links.read);
    var o := Attempt(cfg, store, email, password, links, answer, verify);
    if ReadUsable(r) && r.0 < cfg.maxLoginAttempt {
      CountInRange(cfg, store, email, links.read);
      var rearm := Write(key, Itoa(r.0), cfg.loginAttemptTTL);
      var store1 := Commit(store, rearm, links.writeBack);
      WriteKeepsRange(cfg, store, email, r.0, links.writeBack);
      if links.writeBack.Up? && CredentialsRejected(password, answer, verify) {
        WriteKeepsRange(cfg, store1, email, r.0 + 1, links.bump);
        assert o.store == Commit(store1, Write(key, Itoa(r.0 + 1), cfg.loginAttemptTTL), links.bump);
      } else {
        assert o.store == store1 || o.store == store;
      }
    } else {
      assert o.store == store;
    }
  }

  /** A counter in range never reads as a negative count. */
  lemma CountInRange(cfg: Config, store: map<string, Entry>, email: string, link: Link)
    requires CounterInRange(cfg, store, email)
    requires ReadUsable(ReadCount(store, cfg.keyPrefix, email, link))
    ensures 0 <= ReadCount(store, cfg.keyPrefix, email, link).0
  {
    var key := LoginAttemptKey(cfg.keyPrefix, email);
    if link.Up? && key in store && store[key].value != "" {
      assert ReadCount(store, cfg.keyPrefix, email, link).0 == DecimalValue(store[key].value);
    }
  }

  /** Writing a count between 0 and the limit keeps the counter in range. */
  lemma WriteKeepsRange(cfg: Config, store: map<string, Entry>, email: string, n: int, link: Link)
    requires CounterInRange(cfg, store, email) && 0 <= n <= cfg.maxLoginAttempt
    ensures CounterInRange(cfg, Commit(store, Write(LoginAttemptKey(cfg.keyPrefix, email), Itoa(n), cfg.loginAttemptTTL), link), email)
  {
  }

  /** The cache after `n` logins in a row whose credentials are all rejected, every round trip delivered. */
  function AfterRejections(cfg: Config, store: map<string, Entry>, email: string, password: string,
                           answer: Lookup, verify: (string, string) -> bool, n: nat): map<string, Entry>
  {
    if n == 0 then store
    else Attempt(cfg, AfterRejections(cfg, store, email, password, answer, verify, n - 1),
                 email, password, AllUp, answer, verify).store
  }

  /** The counter of `email` stands at `k`: it holds the decimal text of `k`, or is missing when `k` is 0. */
  predicate CountIs(cfg: Config, store: map<string, Entry>, email: string, k: int)
  {
    var key := LoginAttemptKey(cfg.keyPrefix, email);
    (k == 0 && key !in store) || (key in store && store[key].value == Itoa(k))
  }

  /** One rejected login moves a counter at `k` to `k + 1`, or leaves it at the limit. */
  lemma RejectionStep(cfg: Config, store: map<string, Entry>, email: string, password: string,
                      answer: Lookup, verify: (string, string) -> bool, k: int)
    requires CountIs(cfg, store, email, k) && 0 <= k <= cfg.maxLoginAttempt
    requires CredentialsRejected(password, answer, verify)
    ensures var next := if k < cfg.maxLoginAttempt then k + 1 else k;
            CountIs(cfg, Attempt(cfg, store, email, password, AllUp, answer, verify).store, email, next)
  {
    AtoiItoa(k);
    assert ReadUsable(ReadCount(store, cfg.keyPrefix, email, Up));
    assert ReadCount(store, cfg.keyPrefix, email, Up).0 == k;
    if k < cfg.maxLoginAttempt {
      RejectionIncrementsCounter(cfg, store, email, password, answer, verify);
    } else {
      LockedOutIsForbidden(cfg, store, email, password, AllUp, answer, verify);
    }
  }

  /**
   * From a counter at 0 (missing or "0"), the k-th rejected login in a row leaves the count at
   * k, up to the limit; once the limit is reached the counter no longer moves.
   */
  lemma {:induction false} RejectionsCount(cfg: Config, store: map<string, Entry>, email: string, password: string,
                                           answer: Lookup, verify: (string, string) -> bool, n: nat)
    requires CountIs(cfg, store, email, 0)
    requires CredentialsRejected(password, answer, verify)
    requires 0 <= cfg.maxLoginAttempt
    ensures CountIs(cfg, AfterRejections(cfg, store, email, password, answer, verify, n), email,
                    if n <= cfg.maxLoginAttempt then n else cfg.maxLoginAttempt)
  {
    if n > 0 {
      RejectionsCount(cfg, store, email, password, answer, verify, n - 1);
      NextRejection(cfg, store, email, password, answer, verify, n);
    }
  }

  /** The step of `RejectionsCount`: the n-th rejection in a row, given where the (n-1)-th left the counter. */
  lemma NextRejection(cfg: Config, store: map<string, Entry>, email: string, password: string,
                      answer: Lookup, verify: (string, string) -> bool, n: nat)
    requires n > 0 && 0 <= cfg.maxLoginAttempt
    requires CredentialsRejected(password, answer, verify)
    requires CountIs(cfg, AfterRejections(cfg, store, email, password, answer, verify, n - 1), email,
                     if n - 1 <= cfg.maxLoginAttempt then n - 1 else cfg.maxLoginAttempt)
    ensures CountIs(cfg, AfterRejections(cfg, store, email, password, answer, verify, n), email,
                    if n <= cfg.maxLoginAttempt then n else cfg.maxLoginAttempt)
  {
    var prev := AfterRejections(cfg, store, email, password, answer, verify, n - 1);
    var k := if n - 1 <= cfg.maxLoginAttempt then n - 1 else cfg.maxLoginAttempt;
    var after := Attempt(cfg, prev, email, password, AllUp, answer, verify).store;
    RejectionStep(cfg, prev, email, password, answer, verify, k);
    assert CountIs(cfg, after, email, if n <= cfg.maxLoginAttempt then n else cfg.maxLoginAttempt);
    assert AfterRejections(cfg, store, email, password, answer, verify, n) == after;
  }

  /**
   * Lockout after the limit: from a counter at 0 (missing or "0"), `maxLoginAttempt` rejected
   * logins make the next one Forbidden, even with the right password.
   */
  lemma LockoutAfterLimit(cfg: Config, store: map<string, Entry>, email: string, password: string,
                          answer: Lookup, verify: (string, string) -> bool, goodPassword: string, goodAnswer: Lookup)
    requires CountIs(cfg, store, email, 0)
    requires CredentialsRejected(password, answer, verify)
    requires 0 <= cfg.maxLoginAttempt
    ensures var s := AfterRejections(cfg, store, email, password, answer, verify, cfg.maxLoginAttempt);
            Attempt(cfg, s, email, goodPassword, AllUp, goodAnswer, verify).err == Some(Forbidden)
  {
    RejectionsCount(cfg, store, email, password, answer, verify, cfg.maxLoginAttempt);
  }
}
