/**
 * Connection bookkeeping of the MySQL layer
 * (internal/database/mysql/mysql.go): the per-environment DSN and log file,
 * the address cut out of a DSN for the start-up message, and the lookup of
 * an environment's engine in the registry Setup fills.
 */
module Mysql {
  import opened Wrappers
  import opened Text
  import opened Environment

  datatype EnvConfig = EnvConfig(dsn: string, logFile: string)

  /** config.MysqlConfig */
  datatype MysqlConfig = MysqlConfig(prod: EnvConfig, test: EnvConfig)

  /** defaultLogFile: the production log file for "prod", the test one for every other environment. */
  function DefaultLogFile(cfg: MysqlConfig, env: string): (r: string)
    ensures env == Prod ==> r == cfg.prod.logFile
    ensures env != Prod ==> r == cfg.test.logFile
  {
    if env == Prod then cfg.prod.logFile else cfg.test.logFile
  }

  /** defaultDsn: the production DSN for "prod", the test one for every other environment. */
  function DefaultDsn(cfg: MysqlConfig, env: string): (r: string)
    ensures env == Prod ==> r == cfg.prod.dsn
    ensures env != Prod ==> r == cfg.test.dsn
  {
    if env == Prod then cfg.prod.dsn else cfg.test.dsn
  }

  /** An environment's DSN and log file come from the same entry of the configuration. */
  lemma DefaultsAgree(cfg: MysqlConfig, env: string)
    ensures EnvConfig(DefaultDsn(cfg, env), DefaultLogFile(cfg, env)) == (if env == Prod then cfg.prod else cfg.test)
  {
  }

  /**
   * The slice bounds cutDsn uses: one past the first '(' (0 when there is
   * none) and the first ')'. Go panics unless a ')' exists at or after the
   * start, so callers must supply such a DSN.
   */
  predicate CuttableDsn(dsn: string)
  {
    Contains(dsn, ")") && Index(dsn, "(") + 1 <= Index(dsn, ")")
  }

  /** cutDsn: the text between the first '(' and the first ')', such as "127.0.0.1:3306" in "u:p@tcp(127.0.0.1:3306)/db". */
  function CutDsn(dsn: string): (r: string)
    requires CuttableDsn(dsn)
    ensures forall i :: 0 <= i < |r| ==> r[i] != ')'
  {
    var start := Index(dsn, "(") + 1;
    var end := Index(dsn, ")");
    NoEarlierChar(dsn, ')', end);
    assert forall i :: 0 <= i < end - start ==> dsn[start..end][i] == dsn[start + i];
    dsn[start..end]
  }

  /** No position before the first occurrence of a one-character string holds that character. */
  lemma NoEarlierChar(s: string, c: char, k: int)
    requires k == Index(s, [c]) && k >= 0
    ensures forall i :: 0 <= i < k ==> s[i] != c
  {
    forall i | 0 <= i < k
      ensures s[i] != c
    {
      assert !OccursAt(s, [c], i);
      assert s[i..i + 1] == [s[i]];
    }
  }

  /** The first index of a one-character string is the first position holding that character. */
  lemma IndexOfChar(s: string, c: char, k: nat)
    requires k < |s| && s[k] == c && forall i :: 0 <= i < k ==> s[i] != c
    ensures Index(s, [c]) == k
  {
    assert s[k..k + 1] == [c];
    assert OccursAt(s, [c], k);
    forall j | 0 <= j < k
      ensures !OccursAt(s, [c], j)
    {
      assert s[j..j + 1] == [s[j]];
    }
  }

  /** A character absent from a string has no index in it. */
  lemma NoIndexOfChar(s: string, c: char)
    requires forall i :: 0 <= i < |s| ==> s[i] != c
    ensures Index(s, [c]) == -1
  {
    forall j | 0 <= j <= |s|
      ensures !OccursAt(s, [c], j)
    {
      if j < |s| {
        assert s[j..j + 1] == [s[j]];
      }
    }
  }

  predicate Free(s: string, c: char)
  {
    forall i :: 0 <= i < |s| ==> s[i] != c
  }

  /** A DSN of the form user@tcp(host)rest yields exactly host. */
  lemma CutDsnBetweenParens(pre: string, host: string, post: string)
    requires Free(pre, '(') && Free(pre, ')') && Free(host, '(') && Free(host, ')')
    ensures var dsn := pre + "(" + host + ")" + post;
      CuttableDsn(dsn) && CutDsn(dsn) == host
  {
    var dsn := pre + "(" + host + ")" + post;
    var p := |pre|;
    var q := |pre| + 1 + |host|;
    assert dsn[p] == '(' && dsn[q] == ')';
    assert forall i :: 0 <= i < p ==> dsn[i] == pre[i];
    assert forall i :: p < i < q ==> dsn[i] == host[i - p - 1];
    IndexOfChar(dsn, '(', p);
    IndexOfChar(dsn, ')', q);
    assert dsn[p + 1..q] == host;
  }

  /** Without a '(' the start is 0, so the DSN is cut before its first ')'. */
  lemma CutDsnWithoutOpenParen(head: string, tail: string)
    requires Free(head, '(') && Free(head, ')') && Free(tail, '(')
    ensures var dsn := head + ")" + tail;
      CuttableDsn(dsn) && CutDsn(dsn) == head
  {
    var dsn := head + ")" + tail;
    var q := |head|;
    assert forall i :: 0 <= i < q ==> dsn[i] == head[i];
    assert forall i :: q < i < |dsn| ==> dsn[i] == tail[i - q - 1];
    NoIndexOfChar(dsn, '(');
    IndexOfChar(dsn, ')', q);
    assert dsn[0..q] == head;
  }

  /** The engine registry: environment name to engine. */
  type Engines<E> = map<string, E>

  /** initMysql's effect on the registry: the environment's engine is stored under its name. */
  function Register<E>(engines: Engines<E>, env: string, engine: E): (r: Engines<E>)
    ensures r.Keys == engines.Keys + {env} && r[env] == engine
    ensures forall k :: k in engines && k != env ==> r[k] == engines[k]
  {
    engines[env := engine]
  }

  /** Setup: the production engine under "prod", then the test engine under "test". */
  function SetUp<E>(prodEngine: E, testEngine: E): (r: Engines<E>)
    ensures r.Keys == {Prod, Test} && r[Prod] == prodEngine && r[Test] == testEngine
  {
    Register(Register(map[], Prod, prodEngine), Test, testEngine)
  }

  /** GetOrm as written: the engine of a known environment, else the one registered under the test DSN string. */
  function GetOrm<E>(engines: Engines<E>, cfg: MysqlConfig, env: string): (r: Option<E>)
    ensures env in engines ==> r == Some(engines[env])
    ensures env !in engines ==> r == (if cfg.test.dsn in engines then Some(engines[cfg.test.dsn]) else None)
  {
    LookupOr(engines, env, cfg.test.dsn)
  }

  /**
   * Setup registers engines under environment names, so the fallback key,
   * a DSN, is never found: an unknown environment gets a nil engine.
   */
  lemma GetOrmUnknownEnvIsNil<E>(prodEngine: E, testEngine: E, cfg: MysqlConfig, env: string)
    requires env != Prod && env != Test
    requires cfg.test.dsn != Prod && cfg.test.dsn != Test
    ensures GetOrm(SetUp(prodEngine, testEngine), cfg, env) == None
  {
  }

  /**
   * The lookup the fallback evidently means falls back to the "test" key,
   * as RedisClient does; with it every environment gets an engine after
   * Setup: its own when known, the test one otherwise.
   */
  lemma GetOrmAfterSetUp<E>(prodEngine: E, testEngine: E, env: string)
    ensures LookupOr(SetUp(prodEngine, testEngine), env, Test) ==
      Some(if env == Prod then prodEngine else testEngine)
  {
  }
}
