/**
 * The Betfair client factories: a process-wide registry of HTTP clients
 * keyed by the credentials joined with `|` (each missing credential taken
 * from its environment variable), the one-slot caches in front of the
 * client and the instrument-provider constructors, and the configuration
 * defaults of the data and execution client factories.
 *
 * The clients, providers, event loop and logger are foreign objects: a
 * client or provider is a fresh identity together with what it was built
 * from, and the loop and the logger are opaque handles.
 */
module BetfairFactories {
  import opened Wrappers
  import opened Text
  import opened OrderedDict

  const USERNAME_VAR: string := "BETFAIR_USERNAME"
  const PASSWORD_VAR: string := "BETFAIR_PASSWORD"
  const APP_KEY_VAR: string := "BETFAIR_APP_KEY"
  const CERT_DIR_VAR: string := "BETFAIR_CERT_DIR"

  /** The venue name that issues Betfair account ids. */
  const BETFAIR_VENUE: string := "BETFAIR"
  /** The account number used when the configured variable is not set. */
  const DEFAULT_ACCOUNT_NUMBER: string := "001"

  /** The process environment. */
  type Env = map<string, string>

  /** A market filter dictionary, in insertion order. */
  type MarketFilter = seq<(string, string)>

  /** An object passed through without being looked into (an event loop, a logger). */
  datatype Handle = Handle(id: nat)

  datatype Credentials = Credentials(username: string, password: string, appKey: string, certDir: string)

  /** A `BetfairClient`: its identity and what it was built from. */
  datatype BetfairClient = BetfairClient(id: nat, credentials: Credentials, loop: Handle, logger: Handle)

  /** The arguments of `get_cached_betfair_client`, as its one-slot cache compares them. */
  datatype ClientArgs = ClientArgs(
    username: Option<string>, password: Option<string>, appKey: Option<string>, certDir: Option<string>,
    loop: Handle, logger: Handle)

  /** `os.environ[name]` raised `KeyError`: the variable is not set. */
  datatype FactoryError = MissingEnvVar(name: string)

  // ---------------------------------------------------------------------
  // Credentials and the registry key

  /** `given or os.environ[name]` can be evaluated without raising. */
  predicate Resolvable(given: Option<string>, name: string, env: Env) {
    IsTruthy(given) || name in env
  }

  /** `given or os.environ[name]`. */
  function Resolve(given: Option<string>, name: string, env: Env): Result<string, FactoryError>
  {
    if IsTruthy(given) then Success(given.value)
    else if name in env then Success(env[name])
    else Failure(MissingEnvVar(name))
  }

  /**
   * The four credentials after the fallback: each one that is `None` or empty
   * is read from its environment variable, in the order username, password,
   * application key, certificate directory; the first unset variable raises.
   */
  function ResolveCredentials(args: ClientArgs, env: Env): (r: Result<Credentials, FactoryError>)
    ensures r.Success? <==>
      && Resolvable(args.username, USERNAME_VAR, env) && Resolvable(args.password, PASSWORD_VAR, env)
      && Resolvable(args.appKey, APP_KEY_VAR, env) && Resolvable(args.certDir, CERT_DIR_VAR, env)
    ensures r.Success? ==>
      && r.value.username == (if IsTruthy(args.username) then args.username.value else env[USERNAME_VAR])
      && r.value.password == (if IsTruthy(args.password) then args.password.value else env[PASSWORD_VAR])
      && r.value.appKey == (if IsTruthy(args.appKey) then args.appKey.value else env[APP_KEY_VAR])
      && r.value.certDir == (if IsTruthy(args.certDir) then args.certDir.value else env[CERT_DIR_VAR])
    ensures !Resolvable(args.username, USERNAME_VAR, env) ==> r == Failure(MissingEnvVar(USERNAME_VAR))
    ensures Resolvable(args.username, USERNAME_VAR, env) && !Resolvable(args.password, PASSWORD_VAR, env) ==>
      r == Failure(MissingEnvVar(PASSWORD_VAR))
    ensures (Resolvable(args.username, USERNAME_VAR, env) && Resolvable(args.password, PASSWORD_VAR, env)
             && !Resolvable(args.appKey, APP_KEY_VAR, env)) ==> r == Failure(MissingEnvVar(APP_KEY_VAR))
    ensures (Resolvable(args.username, USERNAME_VAR, env) && Resolvable(args.password, PASSWORD_VAR, env)
             && Resolvable(args.appKey, APP_KEY_VAR, env) && !Resolvable(args.certDir, CERT_DIR_VAR, env)) ==>
      r == Failure(MissingEnvVar(CERT_DIR_VAR))
  {
    match Resolve(args.username, USERNAME_VAR, env)
    case Failure(e) => Failure(e)
    case Success(u) =>
      match Resolve(args.password, PASSWORD_VAR, env)
      case Failure(e) => Failure(e)
      case Success(p) =>
        match Resolve(args.appKey, APP_KEY_VAR, env)
        case Failure(e) => Failure(e)
        case Success(a) =>
          match Resolve(args.certDir, CERT_DIR_VAR, env)
          case Failure(e) => Failure(e)
          case Success(c) => Success(Credentials(u, p, a, c))
  }

  /** `"|".join((username, password, app_key, cert_dir))`. */
  function RegistryKey(c: Credentials): string
  {
    Join([c.username, c.password, c.appKey, c.certDir], "|")
  }

  /** The key lists the four credentials in order with a `|` between neighbours. */
  lemma RegistryKeyLayout(c: Credentials)
    ensures RegistryKey(c) == c.username + "|" + c.password + "|" + c.appKey + "|" + c.certDir
  {
    var parts := [c.username, c.password, c.appKey, c.certDir];
    assert parts[1..] == [c.password, c.appKey, c.certDir];
    assert parts[1..][1..] == [c.appKey, c.certDir];
    assert Join(parts[1..][1..], "|") == c.appKey + "|" + c.certDir;
    assert Join(parts[1..], "|") == c.password + "|" + (c.appKey + "|" + c.certDir);
    assert Join(parts, "|") == c.username + "|" + (c.password + "|" + (c.appKey + "|" + c.certDir));
  }

  /** No credential holds the separator `|`. */
  predicate BarFree(c: Credentials) {
    '|' !in c.username && '|' !in c.password && '|' !in c.appKey && '|' !in c.certDir
  }

  /** Without `|` inside a credential, the key determines the credentials. */
  lemma RegistryKeyInjective(c1: Credentials, c2: Credentials)
    requires BarFree(c1) && BarFree(c2) && RegistryKey(c1) == RegistryKey(c2)
    ensures c1 == c2
  {
    assert "|" == ['|'];
    var p1 := [c1.username, c1.password, c1.appKey, c1.certDir];
    var p2 := [c2.username, c2.password, c2.appKey, c2.certDir];
    SplitJoin(p1, '|');
    SplitJoin(p2, '|');
    assert p1 == p2;
  }

  /** A `|` inside a credential lets two different credential sets share a key. */
  lemma RegistryKeyCollision()
    ensures Credentials("a|b", "c", "d", "e") != Credentials("a", "b|c", "d", "e")
    ensures RegistryKey(Credentials("a|b", "c", "d", "e")) == RegistryKey(Credentials("a", "b|c", "d", "e"))
  {
  }

  // ---------------------------------------------------------------------
  // The registry `CLIENTS` and the one-slot cache of the client factory

  /**
   * Get-or-create in `CLIENTS`: a present key returns its client and changes
   * nothing; an absent key gets exactly one new client built from the
   * credentials; entries for other keys are never touched.
   */
  function GetOrCreate(clients: map<string, BetfairClient>, nextId: nat, c: Credentials, loop: Handle, logger: Handle)
    : (r: (BetfairClient, map<string, BetfairClient>, nat))
    ensures RegistryKey(c) in r.1 && r.0 == r.1[RegistryKey(c)]
    ensures forall k :: k != RegistryKey(c) ==> (k in r.1 <==> k in clients)
    ensures forall k :: k in clients ==> k in r.1 && r.1[k] == clients[k]
    ensures RegistryKey(c) in clients ==> r.1 == clients && r.2 == nextId
    ensures RegistryKey(c) !in clients ==> r.0 == BetfairClient(nextId, c, loop, logger) && r.2 == nextId + 1
  {
    var key := RegistryKey(c);
    if key in clients then (clients[key], clients, nextId)
    else
      var client := BetfairClient(nextId, c, loop, logger);
      (client, clients[key := client], nextId + 1)
  }

  /** The state behind `get_cached_betfair_client`: `CLIENTS`, the next identity, the cache slot. */
  datatype ClientState = ClientState(
    clients: map<string, BetfairClient>, nextId: nat, slot: Option<(ClientArgs, BetfairClient)>)

  /**
   * Every client is stored under the key of its own credentials and has an
   * identity below `nextId`, no two share an identity, and the cached client
   * is the one stored under its key.
   */
  ghost predicate RegistryValid(st: ClientState) {
    && (forall k :: k in st.clients ==> RegistryKey(st.clients[k].credentials) == k && st.clients[k].id < st.nextId)
    && (forall k1, k2 :: k1 in st.clients && k2 in st.clients && k1 != k2 ==> st.clients[k1].id != st.clients[k2].id)
    && (st.slot.Some? ==>
          RegistryKey(st.slot.value.1.credentials) in st.clients
          && st.clients[RegistryKey(st.slot.value.1.credentials)] == st.slot.value.1)
  }

  /**
   * The cached arguments still resolve, in `env`, to credentials with the
   * cached client's registry key.
   */
  ghost predicate MemoCurrent(st: ClientState, env: Env) {
    st.slot.Some? ==>
      && ResolveCredentials(st.slot.value.0, env).Success?
      && RegistryKey(ResolveCredentials(st.slot.value.0, env).value) == RegistryKey(st.slot.value.1.credentials)
  }

  /**
   * One call of `get_cached_betfair_client`: the same arguments as the cached
   * call return the cached client without reading the environment; otherwise
   * the credentials are resolved, the registry is consulted (and extended
   * when the key is new), and the call is cached. A raised error leaves
   * everything as it was.
   */
  function ClientCall(st: ClientState, env: Env, args: ClientArgs): (Result<BetfairClient, FactoryError>, ClientState)
  {
    if st.slot.Some? && st.slot.value.0 == args then (Success(st.slot.value.1), st)
    else
      match ResolveCredentials(args, env)
      case Failure(e) => (Failure(e), st)
      case Success(c) =>
        var (client, clients, nextId) := GetOrCreate(st.clients, st.nextId, c, args.loop, args.logger);
        (Success(client), ClientState(clients, nextId, Some((args, client))))
  }

  /** A call that misses the cache and resolves all four credentials goes to the registry. */
  lemma ClientCallMiss(st: ClientState, env: Env, args: ClientArgs, c: Credentials)
    requires !(st.slot.Some? && st.slot.value.0 == args)
    requires Resolve(args.username, USERNAME_VAR, env) == Success(c.username)
    requires Resolve(args.password, PASSWORD_VAR, env) == Success(c.password)
    requires Resolve(args.appKey, APP_KEY_VAR, env) == Success(c.appKey)
    requires Resolve(args.certDir, CERT_DIR_VAR, env) == Success(c.certDir)
    ensures var (client, clients, nextId) := GetOrCreate(st.clients, st.nextId, c, args.loop, args.logger);
      ClientCall(st, env, args) == (Success(client), ClientState(clients, nextId, Some((args, client))))
  {
  }

  /** A call keeps the registry invariant, and keeps the cache current in the same environment. */
  lemma ClientCallPreservesValid(st: ClientState, env: Env, args: ClientArgs)
    requires RegistryValid(st)
    ensures RegistryValid(ClientCall(st, env, args).1)
    ensures MemoCurrent(st, env) ==> MemoCurrent(ClientCall(st, env, args).1, env)
  {
  }

  /**
   * After a successful call, the returned client is the one stored under
   * the key of its credentials; no entry is removed or changed; and at most
   * one new client exists, stored under a key that was absent.
   */
  lemma ClientCallResult(st: ClientState, env: Env, args: ClientArgs)
    requires RegistryValid(st)
    ensures var (r, st') := ClientCall(st, env, args);
      && (r.Success? ==> RegistryKey(r.value.credentials) in st'.clients && st'.clients[RegistryKey(r.value.credentials)] == r.value)
      && (forall k :: k in st.clients ==> k in st'.clients && st'.clients[k] == st.clients[k])
      && (st'.nextId == st.nextId ==> st'.clients == st.clients)
      && (st'.nextId != st.nextId ==>
            && st'.nextId == st.nextId + 1 && r.Success? && r.value.id == st.nextId
            && RegistryKey(r.value.credentials) !in st.clients
            && st'.clients == st.clients[RegistryKey(r.value.credentials) := r.value])
  {
  }

  /**
   * A client already registered under the key of the resolved credentials
   * is returned, and the registry is unchanged (as long as the cached call
   * resolves to the same credentials in this environment).
   */
  lemma ExistingClientReturned(st: ClientState, env: Env, args: ClientArgs)
    requires RegistryValid(st) && MemoCurrent(st, env)
    requires ResolveCredentials(args, env).Success?
    requires RegistryKey(ResolveCredentials(args, env).value) in st.clients
    ensures ClientCall(st, env, args).0 == Success(st.clients[RegistryKey(ResolveCredentials(args, env).value)])
    ensures ClientCall(st, env, args).1.clients == st.clients
    ensures ClientCall(st, env, args).1.nextId == st.nextId
  {
  }

  /**
   * Two calls whose arguments resolve to the same credentials return the
   * same client, and the second one changes no registry entry: the factory
   * is idempotent in the credentials.
   */
  lemma SameCredentialsSameClient(st: ClientState, env: Env, a1: ClientArgs, a2: ClientArgs)
    requires RegistryValid(st) && MemoCurrent(st, env)
    requires ClientCall(st, env, a1).0.Success?
    requires ResolveCredentials(a2, env) == ResolveCredentials(a1, env)
    ensures var (r1, st1) := ClientCall(st, env, a1);
      && ClientCall(st1, env, a2).0 == r1
      && ClientCall(st1, env, a2).1.clients == st1.clients
      && ClientCall(st1, env, a2).1.nextId == st1.nextId
  {
  }

  /**
   * The cache compares arguments, not credentials: a repeated call returns
   * the cached client whatever the environment holds now.
   */
  lemma RepeatedCallIgnoresEnv(st: ClientState, env: Env, env': Env)
    requires st.slot.Some?
    ensures ClientCall(st, env', st.slot.value.0) == (Success(st.slot.value.1), st)
    ensures ClientCall(st, env', st.slot.value.0) == ClientCall(st, env, st.slot.value.0)
  {
  }

  // ---------------------------------------------------------------------
  // The one-slot cache of the instrument-provider factory

  /** A `BetfairInstrumentProvider`: its identity and what it was built from. */
  datatype InstrumentProvider = InstrumentProvider(id: nat, client: BetfairClient, logger: Handle, marketFilter: MarketFilter)

  /** The arguments of `get_cached_betfair_instrument_provider`; the filter is the tuple of its items. */
  datatype ProviderArgs = ProviderArgs(client: BetfairClient, logger: Handle, marketFilter: MarketFilter)

  datatype ProviderState = ProviderState(nextId: nat, slot: Option<(ProviderArgs, InstrumentProvider)>)

  /** The cached provider was built from the cached arguments and has an identity below `nextId`. */
  ghost predicate ProviderValid(st: ProviderState) {
    st.slot.Some? ==>
      var (args, p) := st.slot.value;
      && p.id < st.nextId
      && p.client == args.client && p.logger == args.logger && p.marketFilter == FromItems(args.marketFilter)
  }

  /**
   * One call: the same arguments as the cached call return the cached
   * provider; other arguments build a new provider over `dict(market_filter)`
   * and take the slot.
   */
  function ProviderCall(st: ProviderState, args: ProviderArgs): (InstrumentProvider, ProviderState)
  {
    if st.slot.Some? && st.slot.value.0 == args then (st.slot.value.1, st)
    else
      var p := InstrumentProvider(st.nextId, args.client, args.logger, FromItems(args.marketFilter));
      (p, ProviderState(st.nextId + 1, Some((args, p))))
  }

  /**
   * The provider returned was built from the arguments; with a market filter
   * that came from a dictionary, the provider's filter is that dictionary.
   */
  lemma ProviderMatchesArgs(st: ProviderState, args: ProviderArgs)
    requires ProviderValid(st)
    ensures ProviderValid(ProviderCall(st, args).1)
    ensures var p := ProviderCall(st, args).0;
      p.client == args.client && p.logger == args.logger && p.marketFilter == FromItems(args.marketFilter)
    ensures DistinctKeys(args.marketFilter) ==> ProviderCall(st, args).0.marketFilter == args.marketFilter
  {
    if DistinctKeys(args.marketFilter) {
      FromItemsRoundTrip(args.marketFilter);
    }
  }

  /** Calling again with the arguments of the call just made returns the same provider and changes nothing. */
  lemma ProviderRepeat(st: ProviderState, a: ProviderArgs)
    ensures var (p1, st1) := ProviderCall(st, a);
      ProviderCall(st1, a) == (p1, st1)
  {
  }

  /**
   * Calling with other arguments than the call just made builds a new
   * provider (a different identity) and replaces the slot.
   */
  lemma ProviderReplace(st: ProviderState, a: ProviderArgs, b: ProviderArgs)
    requires ProviderValid(st) && a != b
    ensures var (p1, st1) := ProviderCall(st, a);
      var (p2, st2) := ProviderCall(st1, b);
      && p2.id == st1.nextId && p2 != p1
      && st2 == ProviderState(st1.nextId + 1, Some((b, p2)))
  {
  }

  // ---------------------------------------------------------------------
  // Configuration and the two factories

  /** The configuration keys the factories read; `None` is an absent key. */
  datatype Config = Config(
    username: Option<string>, password: Option<string>, appKey: Option<string>, certDir: Option<string>,
    marketFilter: Option<MarketFilter>, accountId: Option<string>, baseCurrency: Option<string>)

  datatype AccountId = AccountId(issuer: string, number: string)

  /** A `BetfairDataClient`: what it is built from. */
  datatype DataClient = DataClient(client: BetfairClient, provider: InstrumentProvider, marketFilter: MarketFilter)

  /** A `BetfairExecutionClient`: what it is built from (the base currency as configured). */
  datatype ExecutionClient = ExecutionClient(
    client: BetfairClient, accountId: AccountId, baseCurrency: Option<string>,
    provider: InstrumentProvider, marketFilter: MarketFilter)

  /** `config.get("market_filter", {})`. */
  function MarketFilterOf(config: Config): (r: MarketFilter)
    ensures config.marketFilter.None? ==> r == []
    ensures config.marketFilter.Some? ==> r == config.marketFilter.value
  {
    config.marketFilter.GetOr([])
  }

  function ClientArgsOf(config: Config, loop: Handle, logger: Handle): ClientArgs
  {
    ClientArgs(config.username, config.password, config.appKey, config.certDir, loop, logger)
  }

  /**
   * `os.getenv(config.get("account_id", ""), "001")`: the value of the
   * variable the configuration names (the name `""` when it names none), and
   * "001" when that variable is not set.
   */
  function AccountNumber(config: Config, env: Env): (r: string)
    ensures config.accountId.None? && "" !in env ==> r == DEFAULT_ACCOUNT_NUMBER
    ensures config.accountId.None? && "" in env ==> r == env[""]
    ensures config.accountId.Some? && config.accountId.value in env ==> r == env[config.accountId.value]
    ensures config.accountId.Some? && config.accountId.value !in env ==> r == DEFAULT_ACCOUNT_NUMBER
  {
    var name := config.accountId.GetOr("");
    if name in env then env[name] else DEFAULT_ACCOUNT_NUMBER
  }

  /**
   * The module-level state of the factories: the environment, the registry
   * `CLIENTS`, and the hidden slots of the two one-slot caches together
   * with the counters that give new objects their identities.
   */
  class Factories {
    var env: Env
    var clients: map<string, BetfairClient>
    var nextClientId: nat
    var clientSlot: Option<(ClientArgs, BetfairClient)>
    var nextProviderId: nat
    var providerSlot: Option<(ProviderArgs, InstrumentProvider)>

    ghost function ClientView(): ClientState
      reads this
    {
      ClientState(clients, nextClientId, clientSlot)
    }

    ghost function ProviderView(): ProviderState
      reads this
    {
      ProviderState(nextProviderId, providerSlot)
    }

    ghost predicate Valid()
      reads this
    {
      RegistryValid(ClientView()) && MemoCurrent(ClientView(), env) && ProviderValid(ProviderView())
    }

    /** A process start: an empty registry and empty caches. */
    constructor (env: Env)
      ensures Valid() && this.env == env
      ensures clients == map[] && clientSlot == None && providerSlot == None
    {
      this.env := env;
      clients := map[];
      nextClientId := 0;
      clientSlot := None;
      nextProviderId := 0;
      providerSlot := None;
    }

    /** `get_cached_betfair_client`. */
    method GetCachedBetfairClient(username: Option<string>, password: Option<string>, appKey: Option<string>,
                                  certDir: Option<string>, loop: Handle, logger: Handle)
      returns (r: Result<BetfairClient, FactoryError>)
      requires Valid()
      modifies this
      ensures Valid()
      ensures env == old(env) && ProviderView() == old(ProviderView())
      ensures (r, ClientView()) == ClientCall(old(ClientView()), env, ClientArgs(username, password, appKey, certDir, loop, logger))
    {
      var args := ClientArgs(username, password, appKey, certDir, loop, logger);
      ghost var before := ClientView();
      if clientSlot.Some? && clientSlot.value.0 == args {
        return Success(clientSlot.value.1);
      }
      var u := Resolve(username, USERNAME_VAR, env);
      if u.Failure? {
        return Failure(u.error);
      }
      var p := Resolve(password, PASSWORD_VAR, env);
      if p.Failure? {
        return Failure(p.error);
      }
      var a := Resolve(appKey, APP_KEY_VAR, env);
      if a.Failure? {
        return Failure(a.error);
      }
      var c := Resolve(certDir, CERT_DIR_VAR, env);
      if c.Failure? {
        return Failure(c.error);
      }
      var credentials := Credentials(u.value, p.value, a.value, c.value);
      ClientCallMiss(ClientView(), env, args, credentials);
      var key := RegistryKey(credentials);
      if key !in clients {
        var client := BetfairClient(nextClientId, credentials, loop, logger);
        nextClientId := nextClientId + 1;
        clients := clients[key := client];
      }
      r := Success(clients[key]);
      clientSlot := Some((args, clients[key]));
      ClientCallPreservesValid(before, env, args);
      assert ClientView() == ClientCall(before, env, args).1;
    }

    /** `get_cached_betfair_instrument_provider`. */
    method GetCachedBetfairInstrumentProvider(client: BetfairClient, logger: Handle, marketFilter: MarketFilter)
      returns (p: InstrumentProvider)
      requires Valid()
      modifies this
      ensures Valid()
      ensures env == old(env) && ClientView() == old(ClientView())
      ensures (p, ProviderView()) == ProviderCall(old(ProviderView()), ProviderArgs(client, logger, marketFilter))
    {
      ProviderMatchesArgs(ProviderView(), ProviderArgs(client, logger, marketFilter));
      var args := ProviderArgs(client, logger, marketFilter);
      if providerSlot.Some? && providerSlot.value.0 == args {
        return providerSlot.value.1;
      }
      p := InstrumentProvider(nextProviderId, client, logger, FromItems(marketFilter));
      nextProviderId := nextProviderId + 1;
      providerSlot := Some((args, p));
    }

    /** `BetfairLiveDataClientFactory.create`. */
    method CreateDataClient(config: Config, loop: Handle, logger: Handle) returns (r: Result<DataClient, FactoryError>)
      requires Valid()
      modifies this
      ensures Valid() && env == old(env)
      ensures var (cr, cs) := ClientCall(old(ClientView()), env, ClientArgsOf(config, loop, logger));
        && ClientView() == cs
        && (cr.Failure? ==> r == Failure(cr.error) && ProviderView() == old(ProviderView()))
        && (cr.Success? ==>
              var (p, ps) := ProviderCall(old(ProviderView()), ProviderArgs(cr.value, logger, MarketFilterOf(config)));
              r == Success(DataClient(cr.value, p, MarketFilterOf(config))) && ProviderView() == ps)
      ensures r.Success? ==> r.value.provider.client == r.value.client
      ensures r.Success? && DistinctKeys(MarketFilterOf(config)) ==> r.value.provider.marketFilter == r.value.marketFilter
    {
      var marketFilter := MarketFilterOf(config);
      var client := GetCachedBetfairClient(config.username, config.password, config.appKey, config.certDir, loop, logger);
      if client.Failure? {
        return Failure(client.error);
      }
      ProviderMatchesArgs(ProviderView(), ProviderArgs(client.value, logger, marketFilter));
      var provider := GetCachedBetfairInstrumentProvider(client.value, logger, marketFilter);
      r := Success(DataClient(client.value, provider, marketFilter));
    }

    /** `BetfairLiveExecutionClientFactory.create`. */
    method CreateExecutionClient(config: Config, loop: Handle, logger: Handle) returns (r: Result<ExecutionClient, FactoryError>)
      requires Valid()
      modifies this
      ensures Valid() && env == old(env)
      ensures var (cr, cs) := ClientCall(old(ClientView()), env, ClientArgsOf(config, loop, logger));
        && ClientView() == cs
        && (cr.Failure? ==> r == Failure(cr.error) && ProviderView() == old(ProviderView()))
        && (cr.Success? ==>
              var (p, ps) := ProviderCall(old(ProviderView()), ProviderArgs(cr.value, logger, MarketFilterOf(config)));
              && r == Success(ExecutionClient(cr.value, AccountId(BETFAIR_VENUE, AccountNumber(config, env)),
                                              config.baseCurrency, p, MarketFilterOf(config)))
              && ProviderView() == ps)
      ensures r.Success? ==> r.value.provider.client == r.value.client
    {
      var marketFilter := MarketFilterOf(config);
      var client := GetCachedBetfairClient(config.username, config.password, config.appKey, config.certDir, loop, logger);
      if client.Failure? {
        return Failure(client.error);
      }
      ProviderMatchesArgs(ProviderView(), ProviderArgs(client.value, logger, marketFilter));
      var provider := GetCachedBetfairInstrumentProvider(client.value, logger, marketFilter);
      var accountId := AccountId(BETFAIR_VENUE, AccountNumber(config, env));
      r := Success(ExecutionClient(client.value, accountId, config.baseCurrency, provider, marketFilter));
    }
  }
}
