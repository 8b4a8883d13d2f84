/**
 * The four `TestLoginUser` cases of the service's test file, with its settings
 * (limit 3, TTL two minutes) and the key namespace those tests mock.
 */
module LoginTests {
  import opened Wrappers
  import opened Strconv
  import opened Redis
  import opened Failure
  import opened UserCache
  import opened Login
  import opened Service

  const TwoMinutes: Duration := Duration(2 * 60 * 1_000_000_000)
  const TestConfig: Config := Config(3, TwoMinutes, TestKeyPrefix)
  const Email: string := "test@example.com"
  const Unknown: string := "nonexistent@example.com"
  /** "login_attempt:test@example.com" */
  const Key: string := TestKeyPrefix + Email
  /** "login_attempt:nonexistent@example.com" */
  const UnknownKey: string := TestKeyPrefix + Unknown

  /** "SuccessfulLogin": no counter, right password: true, no error, and the only `Set` writes "0". */
  lemma SuccessfulLogin(store: map<string, Entry>, verify: (string, string) -> bool)
    requires Key !in store
    requires verify("password123", "hashed_password")
    ensures Attempt(TestConfig, store, Email, "password123", AllUp, Found("hashed_password"), verify)
            == Outcome(true, None, [Write(Key, "0", TwoMinutes)], store[Key := Entry("0", TwoMinutes)], true)
  {
    assert Itoa(0) == "0";
  }

  /** "UserNotFound": no counter, unknown email: false with an error, `Set` "0" then `Set` "1". */
  lemma UserNotFound(store: map<string, Entry>, verify: (string, string) -> bool)
    requires UnknownKey !in store
    ensures var o := Attempt(TestConfig, store, Unknown, "password123", AllUp, NotFound, verify);
            !o.ok && o.err.Some? && o.queried
            && o.issued == [Write(UnknownKey, "0", TwoMinutes), Write(UnknownKey, "1", TwoMinutes)]
            && o.store == store[UnknownKey := Entry("1", TwoMinutes)]
  {
    FirstRejection(TestConfig, store, Unknown, "password123", NotFound, verify);
  }

  /** "MaxLoginAttemptsExceeded": a stored "3" gives false with 403, no `Set` and no repository call. */
  lemma MaxLoginAttemptsExceeded(store: map<string, Entry>, answer: Lookup, verify: (string, string) -> bool)
    requires Key in store && store[Key].value == "3"
    ensures var o := Attempt(TestConfig, store, Email, "password123", AllUp, answer, verify);
            !o.ok && o.err.Some? && Code(o.err.value) == 403
            && o.issued == [] && o.store == store && !o.queried
  {
    assert Itoa(3) == "3";
    ThresholdIsInclusive(TestConfig, store, Email, "password123", answer, verify);
  }

  /** "InvalidPassword": no counter, wrong password: false with 401, `Set` "0" then `Set` "1". */
  lemma InvalidPassword(store: map<string, Entry>, verify: (string, string) -> bool)
    requires Key !in store
    requires !verify("wrong_password", "hashed_password")
    ensures var o := Attempt(TestConfig, store, Email, "wrong_password", AllUp, Found("hashed_password"), verify);
            !o.ok && o.err.Some? && Code(o.err.value) == 401 && o.queried
            && o.issued == [Write(Key, "0", TwoMinutes), Write(Key, "1", TwoMinutes)]
            && o.store == store[Key := Entry("1", TwoMinutes)]
  {
    FirstRejection(TestConfig, store, Email, "wrong_password", Found("hashed_password"), verify);
  }

  /** The mocked password comparison: only "password123" matches "hashed_password". */
  predicate MockVerify(plain: string, digest: string)
  {
    plain == "password123" && digest == "hashed_password"
  }

  /** The mocked repository: it knows the user of `Email` and no other. */
  function MockRepository(email: string): Lookup
  {
    if email == Email then Found("hashed_password") else NotFound
  }

  /** A service wired as in the tests: their settings, the mocked repository and the mocked password check. */
  ghost predicate IsTestService(service: UserService)
  {
    service.cfg == TestConfig && service.verify == MockVerify && service.repo.answer == MockRepository
  }

  /** The "SuccessfulLogin" case against the service object. */
  method RunSuccessfulLogin(service: UserService) returns (ok: bool, err: Option<Error>)
    requires IsTestService(service) && Key !in service.cache.store
    modifies service.cache, service.repo
    ensures ok && err == None
    ensures service.cache.store == old(service.cache.store)[Key := Entry("0", TwoMinutes)]
    ensures service.cache.writes == old(service.cache.writes) + [Write(Key, "0", TwoMinutes)]
    ensures service.repo.queries == old(service.repo.queries) + [Email]
  {
    SuccessfulLogin(service.cache.store, MockVerify);
    ok, err := service.LoginUser(Email, "password123", AllUp);
  }

  /** The "InvalidPassword" case against the service object. */
  method RunInvalidPassword(service: UserService) returns (ok: bool, err: Option<Error>)
    requires IsTestService(service) && Key !in service.cache.store
    modifies service.cache, service.repo
    ensures !ok && err == Some(Unauthorized)
    ensures service.cache.store == old(service.cache.store)[Key := Entry("1", TwoMinutes)]
    ensures service.cache.writes == old(service.cache.writes) + [Write(Key, "0", TwoMinutes), Write(Key, "1", TwoMinutes)]
    ensures service.repo.queries == old(service.repo.queries) + [Email]
  {
    InvalidPassword(service.cache.store, MockVerify);
    ok, err := service.LoginUser(Email, "wrong_password", AllUp);
  }

  /** The "UserNotFound" case against the service object. */
  method RunUserNotFound(service: UserService) returns (ok: bool, err: Option<Error>)
    requires IsTestService(service) && UnknownKey !in service.cache.store
    modifies service.cache, service.repo
    ensures !ok && err.Some?
    ensures service.cache.store == old(service.cache.store)[UnknownKey := Entry("1", TwoMinutes)]
    ensures service.cache.writes == old(service.cache.writes) + [Write(UnknownKey, "0", TwoMinutes), Write(UnknownKey, "1", TwoMinutes)]
    ensures service.repo.queries == old(service.repo.queries) + [Unknown]
  {
    assert MockRepository(Unknown) == NotFound;
    UserNotFound(service.cache.store, MockVerify);
    ok, err := service.LoginUser(Unknown, "password123", AllUp);
  }

  /** The "MaxLoginAttemptsExceeded" case against the service object. */
  method RunMaxLoginAttemptsExceeded(service: UserService) returns (ok: bool, err: Option<Error>)
    requires IsTestService(service) && Key in service.cache.store && service.cache.store[Key].value == "3"
    modifies service.cache, service.repo
    ensures !ok && err == Some(Forbidden)
    ensures service.cache.store == old(service.cache.store)
    ensures service.cache.writes == old(service.cache.writes)
    ensures service.repo.queries == old(service.repo.queries)
  {
    MaxLoginAttemptsExceeded(service.cache.store, MockRepository(Email), MockVerify);
    ok, err := service.LoginUser(Email, "password123", AllUp);
  }

  /**
   * The four cases run in turn against one service object, in the order of the
   * test file, as a caller of the service's contract sees them. Unlike the Go
   * subtests, which share only their mocks, the cache's state carries over from
   * one case to the next: the counter of `Email` is preloaded with "3" before
   * the locked-out case (the mocked `Get` reply), and expired before the wrong
   * password so that it starts again from no counter.
   */
  method TestLoginUser() returns (results: seq<(bool, Option<Error>)>)
    ensures |results| == 4
    ensures results[0] == (true, None)
    ensures !results[1].0 && results[1].1.Some?
    ensures results[2] == (false, Some(Forbidden)) && Code(results[2].1.value) == 403
    ensures results[3] == (false, Some(Unauthorized)) && Code(results[3].1.value) == 401
  {
    var cache := new Cache();
    var repo := new UserRepository(MockRepository);
    var service := new UserService(TestConfig, cache, repo, MockVerify);

    var ok1, err1 := RunSuccessfulLogin(service);
    assert cache.writes == [Write(Key, "0", TwoMinutes)];

    var ok2, err2 := RunUserNotFound(service);
    assert repo.queries == [Email, Unknown];

    cache.Preload(Key, Entry("3", TwoMinutes));
    var writesBefore := cache.writes;
    var ok3, err3 := RunMaxLoginAttemptsExceeded(service);
    assert cache.writes == writesBefore && |repo.queries| == 2;

    cache.Expire(Key);
    var ok4, err4 := RunInvalidPassword(service);
    assert cache.store[Key].value == "1";
    assert repo.queries == [Email, Unknown, Email];

    results := [(ok1, err1), (ok2, err2), (ok3, err3), (ok4, err4)];
  }
}
