/**
 * Client set-up of the Redis layer (internal/database/redis/redis.go): the
 * per-environment configuration, the defaults filled into a client's
 * options, and the lookup of an environment's client with its fallback to
 * the test client. Dialling, pinging and the logging hook are left out.
 */
module Redis {
  import opened Wrappers
  import opened GoInt
  import opened Environment

  /** One second as a time.Duration, in nanoseconds. */
  const Second: int := 1_000_000_000

  /** defaultString: the value unless it is empty. */
  function DefaultString(val: string, def: string): (r: string)
    ensures r == def <==> val == "" || val == def
    ensures val != "" ==> r == val
  {
    if val == "" then def else val
  }

  /** defaultInt: the value unless it is zero or negative. */
  function DefaultInt(val: int, def: int): (r: int)
    ensures val <= 0 ==> r == def
    ensures val > 0 ==> r == val
  {
    if val <= 0 then def else val
  }

  /** defaultDuration: the value as whole seconds unless it is zero or negative; the product wraps like Go's int64. */
  function DefaultDuration(val: int, def: int): (r: int)
    ensures val <= 0 ==> r == def
    ensures 0 < val <= 9_223_372_036 ==> r == val * Second && r > 0
  {
    if val <= 0 then def else WrapInt64(val * Second)
  }

  /** With a default that already holds, the fallbacks change nothing the second time. */
  lemma DefaultsIdempotent(val: string, def: string, n: int, nDef: int)
    requires nDef > 0
    ensures DefaultString(DefaultString(val, def), def) == DefaultString(val, def)
    ensures DefaultInt(DefaultInt(n, nDef), nDef) == DefaultInt(n, nDef)
  {
  }

  /** Past about 292 years, a number of seconds no longer fits a Duration and wraps negative. */
  lemma HugeDurationWraps()
    ensures DefaultDuration(9_223_372_037, 5 * Second) < 0
  {
  }

  /** config.RedisDefaultConfig; the dial timeout is in seconds. */
  datatype EnvConfig = EnvConfig(addr: string, userName: string, password: string, dialTimeout: int, poolSize: int)

  /** config.RedisConfig */
  datatype RedisConfig = RedisConfig(prod: EnvConfig, test: EnvConfig)

  /** defaultConfig: the test configuration for "test" only, production for every other environment. */
  function DefaultConfig(cfg: RedisConfig, env: string): (r: EnvConfig)
    ensures env == Test ==> r == cfg.test
    ensures env != Test ==> r == cfg.prod
  {
    if env == Test then cfg.test else cfg.prod
  }

  /** The redis.Options initRedis builds; the dial timeout is in nanoseconds. */
  datatype Options = Options(addr: string, userName: string, password: string, dialTimeout: int, poolSize: int)

  /** The options initRedis dials with for an environment. */
  function ClientOptions(cfg: RedisConfig, env: string): Options
  {
    var c := DefaultConfig(cfg, env);
    Options(DefaultString(c.addr, "127.0.0.1:6379"), c.userName, c.password,
            DefaultDuration(c.dialTimeout, 5 * Second), DefaultInt(c.poolSize, 10))
  }

  /**
   * initRedis fills an empty address with 127.0.0.1:6379, a non-positive
   * dial timeout with 5s and a non-positive pool size with 10, and takes
   * the credentials as configured.
   */
  lemma ClientOptionsSpec(cfg: RedisConfig, env: string)
    ensures var c := DefaultConfig(cfg, env);
      var o := ClientOptions(cfg, env);
      && o.addr == (if c.addr == "" then "127.0.0.1:6379" else c.addr)
      && o.userName == c.userName && o.password == c.password
      && (c.dialTimeout <= 0 ==> o.dialTimeout == 5 * Second)
      && (c.poolSize <= 0 ==> o.poolSize == 10)
      && o.addr != "" && o.poolSize > 0
      && (c.dialTimeout <= 9_223_372_036 ==> o.dialTimeout > 0)
  {
  }

  /** The client registry: environment name to client. */
  type Clients<C> = map<string, C>

  /** Setup: the production client under "prod", then the test client under "test". */
  function SetUp<C>(prodClient: C, testClient: C): (r: Clients<C>)
    ensures r.Keys == {Prod, Test} && r[Prod] == prodClient && r[Test] == testClient
  {
    map[Prod := prodClient][Test := testClient]
  }

  /** RedisClient: the client of a known environment, else the test client (nil if that is missing too). */
  function RedisClient<C>(clients: Clients<C>, env: string): (r: Option<C>)
    ensures env in clients ==> r == Some(clients[env])
    ensures Test in clients ==> r.Some?
    ensures r.None? <==> env !in clients && Test !in clients
  {
    LookupOr(clients, env, Test)
  }

  /**
   * After Setup every environment gets a client: its own for "prod" and
   * "test", the test client for any other. The configuration, by contrast,
   * falls back to production.
   */
  lemma RedisClientAfterSetUp<C>(prodClient: C, testClient: C, cfg: RedisConfig, env: string)
    ensures RedisClient(SetUp(prodClient, testClient), env) == Some(if env == Prod then prodClient else testClient)
    ensures env != Prod && env != Test ==> DefaultConfig(cfg, env) == cfg.prod
  {
  }
}
