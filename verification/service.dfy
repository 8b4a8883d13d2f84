/**
 * `UserServiceImpl` as far as logging in goes: the cache accessors and the
 * `LoginUser` flow, over a cache, a user repository and a password verifier
 * handed in at construction.
 */
module Service {
  import opened Wrappers
  import opened Strconv
  import opened Redis
  import opened Failure
  import opened UserCache
  import opened Login

  /** The user repository seen from the login flow: it answers `ResolveUserByEmail`. */
  class UserRepository {
    /** The repository's answer for each email (the relational store is not modelled). */
    const answer: string -> Lookup
    /** Every email looked up, in order. */
    ghost var queries: seq<string>

    constructor (answer: string -> Lookup)
      ensures this.answer == answer && queries == []
    {
      this.answer := answer;
      queries := [];
    }

    method ResolveUserByEmail(email: string) returns (r: Lookup)
      modifies this
      ensures r == answer(email)
      ensures queries == old(queries) + [email]
    {
      queries := queries + [email];
      r := answer(email);
    }
  }

  class UserService {
    const cfg: Config
    const cache: Cache
    const repo: UserRepository
    /** The password check (`CompareBcrypt`): does the plaintext match the digest? */
    const verify: (string, string) -> bool

    constructor (cfg: Config, cache: Cache, repo: UserRepository, verify: (string, string) -> bool)
      ensures this.cfg == cfg && this.cache == cache && this.repo == repo && this.verify == verify
    {
      this.cfg := cfg;
      this.cache := cache;
      this.repo := repo;
      this.verify := verify;
    }

    /** `GetLoginAttempt`: the failed-attempt count of `email`, read without changing the cache. */
    method GetLoginAttempt(email: string, link: Link) returns (count: Int64, err: Option<Error>)
      ensures (count, err) == ReadCount(cache.store, cfg.keyPrefix, email, link)
      ensures err.Some? ==> count == 0 || err.value.Parse?
      ensures link.Up? && err.None? && LoginAttemptKey(cfg.keyPrefix, email) in cache.store
              && cache.store[LoginAttemptKey(cfg.keyPrefix, email)].value != "" ==>
                count == DecimalValue(cache.store[LoginAttemptKey(cfg.keyPrefix, email)].value)
    {
      var value, cerr := cache.Get(LoginAttemptKey(cfg.keyPrefix, email), link);
      var r := CountFromReply(value, cerr);
      count, err := r.0, r.1;
    }

    /** `SetLoginAttempt`: upsert the count of `email` with a TTL; the cache's error is returned unchanged. */
    method SetLoginAttempt(email: string, attempt: Int64, ttl: Duration, link: Link) returns (err: Option<Error>)
      modifies cache
      ensures err == (if link.Up? then None else Some(CacheError(Io(link.reason))))
      ensures cache.store == Commit(old(cache.store), Write(LoginAttemptKey(cfg.keyPrefix, email), Itoa(attempt), ttl), link)
      ensures cache.writes == old(cache.writes) + [Write(LoginAttemptKey(cfg.keyPrefix, email), Itoa(attempt), ttl)]
    {
      var cerr := cache.Set(LoginAttemptKey(cfg.keyPrefix, email), Itoa(attempt), ttl, link);
      err := if cerr.Some? then Some(CacheError(cerr.value)) else None;
    }

    /**
     * `LoginUser`: throttled password login. Its result, the cache afterwards,
     * the `Set` commands issued and whether the repository was asked are those
     * of `Login.Attempt`, whose properties are proved in module `Login`.
     */
    method LoginUser(email: string, password: string, links: Links) returns (ok: bool, err: Option<Error>)
      modifies cache, repo
      ensures var o := Attempt(cfg, old(cache.store), email, password, links, repo.answer(email), verify);
              ok == o.ok && err == o.err && cache.store == o.store
              && cache.writes == old(cache.writes) + o.issued
              && repo.queries == old(repo.queries) + (if o.queried then [email] else [])
    {
      var count, readErr := GetLoginAttempt(email, links.read);
      if readErr.Some? && readErr != Some(CacheError(Nil)) {
        return false, readErr;
      }
      if count >= cfg.maxLoginAttempt {
        return false, Some(Forbidden);
      }
      ghost var rest := Proceed(cfg, cache.store, email, count, password, links, repo.answer(email), verify);
      assert rest == Attempt(cfg, cache.store, email, password, links, repo.answer(email), verify);
      ok, err := ProceedLogin(email, password, count, links);
    }

    /** Below the limit: write the count back, look the user up and check the password. */
    method ProceedLogin(email: string, password: string, count: Int64, links: Links) returns (ok: bool, err: Option<Error>)
      requires count < cfg.maxLoginAttempt
      modifies cache, repo
      ensures var o := Proceed(cfg, old(cache.store), email, count, password, links, repo.answer(email), verify);
              ok == o.ok && err == o.err && cache.store == o.store
              && cache.writes == old(cache.writes) + o.issued
              && repo.queries == old(repo.queries) + (if o.queried then [email] else [])
    {
      var setErr := SetLoginAttempt(email, count, cfg.loginAttemptTTL, links.writeBack);
      if setErr.Some? {
        return false, setErr;
      }
      var user := repo.ResolveUserByEmail(email);
      match user {
        case Fault(reason) =>
          return false, Some(Repo(reason));
        case NotFound =>
          ok, err := RejectAttempt(email, count, links.bump);
        case Found(digest) =>
          if verify(password, digest) {
            return true, None;
          }
          ok, err := RejectAttempt(email, count, links.bump);
      }
    }

    /** Count one more failed attempt and refuse the login. */
    method RejectAttempt(email: string, count: Int64, link: Link) returns (ok: bool, err: Option<Error>)
      requires count < cfg.maxLoginAttempt
      modifies cache
      ensures !ok
      ensures err == Some(if link.Up? then Unauthorized else CacheError(Io(link.reason)))
      ensures cache.store == Commit(old(cache.store), Write(LoginAttemptKey(cfg.keyPrefix, email), Itoa(count + 1), cfg.loginAttemptTTL), link)
      ensures cache.writes == old(cache.writes) + [Write(LoginAttemptKey(cfg.keyPrefix, email), Itoa(count + 1), cfg.loginAttemptTTL)]
    {
      var setErr := SetLoginAttempt(email, count + 1, cfg.loginAttemptTTL, link);
      if setErr.Some? {
        return false, setErr;
      }
      return false, Some(Unauthorized);
    }
  }
}
