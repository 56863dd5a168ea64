/** The streaming client's hot swap: it holds the current multi-provider client and
    rebuilds it from the provider configuration when that configuration changes. */
module StreamingClient {
  import opened UsenetTypes
  import opened MultiProvider

  /** The configuration key whose change triggers a rebuild. */
  const ProvidersConfigKey: string := "usenet.providers"

  /** The provider configuration: the configured entries, in order. */
  datatype UsenetProviderConfig = UsenetProviderConfig(providers: seq<ConnectionDetails>)

  /** A pool-changed notification as received by the handler for config index
      `providerIndex`. The meaning of the two leading counters is fixed by the
      pool-statistics service, which is not part of this model; the factory only ever
      sends them as 0. */
  datatype PoolChange = PoolChange(providerIndex: nat, firstCount: nat, secondCount: nat, maxConnections: nat)

  /** The pool-statistics service built with each client: it records the notifications
      its per-index handlers receive. */
  class PoolStatsSink {
    var received: seq<PoolChange>

    constructor ()
      ensures received == []
    {
      received := [];
    }

    /** The handler for config index `index`. */
    method OnConnectionPoolChanged(index: nat, firstCount: nat, secondCount: nat, maxConnections: nat)
      modifies this
      ensures received == old(received) + [PoolChange(index, firstCount, secondCount, maxConnections)]
    {
      received := received + [PoolChange(index, firstCount, secondCount, maxConnections)];
    }
  }

  /** What a new provider connection is asked to do, in order. */
  datatype ConnectionStep =
    | Connect(host: string, port: int, useSsl: bool)
    | Authenticate(user: string, pass: string)

  /** A raw provider connection, reduced to the log of steps it was asked to take. */
  class Connection {
    var steps: seq<ConnectionStep>

    constructor ()
      ensures steps == []
    {
      steps := [];
    }

    method ConnectAsync(host: string, port: int, useSsl: bool)
      modifies this
      ensures steps == old(steps) + [Connect(host, port, useSsl)]
    {
      steps := steps + [Connect(host, port, useSsl)];
    }

    method AuthenticateAsync(user: string, pass: string)
      modifies this
      ensures steps == old(steps) + [Authenticate(user, pass)]
    {
      steps := steps + [Authenticate(user, pass)];
    }
  }

  /** The connection factory of a pool: a new connection to the entry's endpoint, then
      logged in with the entry's credentials. */
  method CreateNewConnection(connectionDetails: ConnectionDetails) returns (connection: Connection)
    ensures fresh(connection)
    ensures connection.steps == [Connect(connectionDetails.host, connectionDetails.port, connectionDetails.useSsl),
                                 Authenticate(connectionDetails.user, connectionDetails.pass)]
  {
    connection := new Connection();
    connection.ConnectAsync(connectionDetails.host, connectionDetails.port, connectionDetails.useSsl);
    connection.AuthenticateAsync(connectionDetails.user, connectionDetails.pass);
  }

  /** The provider client the factory builds for config entry `index`. */
  function ProviderClientFor(connectionDetails: ConnectionDetails, index: nat): ProviderClient {
    ProviderClient(connectionDetails.host, connectionDetails.providerType,
                   ConnectionPool(connectionDetails.maxConnections, connectionDetails, index))
  }

  /** The provider clients built from a configuration, one per entry, in order. */
  function ProviderClientsFor(cfg: UsenetProviderConfig): (clients: seq<ProviderClient>)
    ensures |clients| == |cfg.providers|
    ensures forall i :: 0 <= i < |clients| ==> clients[i].pool.onChangedIndex == i
  {
    seq(|cfg.providers|, i requires 0 <= i < |cfg.providers| => ProviderClientFor(cfg.providers[i], i))
  }

  /** The notifications the pools of a configuration send when they are created. */
  function InitialNotifications(cfg: UsenetProviderConfig): (changes: seq<PoolChange>)
    ensures |changes| == |cfg.providers|
    ensures forall i :: 0 <= i < |changes| ==> changes[i].providerIndex == i
  {
    seq(|cfg.providers|, i requires 0 <= i < |cfg.providers| => PoolChange(i, 0, 0, cfg.providers[i].maxConnections))
  }

  /** The configuration entries each client's pool connects with, in client order. */
  function EndpointsOf(clients: seq<ProviderClient>): (endpoints: seq<ConnectionDetails>)
    ensures |endpoints| == |clients|
    ensures forall i :: 0 <= i < |clients| ==> endpoints[i] == clients[i].pool.endpoint
  {
    if clients == [] then [] else [clients[0].pool.endpoint] + EndpointsOf(clients[1..])
  }

  /** The built clients give back the configuration they were built from, entry for
      entry: nothing is dropped, added or reordered. */
  lemma BuiltClientsGiveBackConfig(cfg: UsenetProviderConfig)
    ensures UsenetProviderConfig(EndpointsOf(ProviderClientsFor(cfg))) == cfg
  {
    var e := EndpointsOf(ProviderClientsFor(cfg));
    assert e == cfg.providers;
  }

  /** Each built client carries its entry's host and provider type, a pool whose
      capacity is the entry's maximum, and the pool-changed handler of its own index;
      that handler is told (0, 0, capacity) once, when the pool is created. */
  lemma BuiltClientsMatchConfig(cfg: UsenetProviderConfig)
    ensures var clients := ProviderClientsFor(cfg);
      forall i :: 0 <= i < |clients| ==>
        && clients[i].host == cfg.providers[i].host
        && clients[i].providerType == cfg.providers[i].providerType
        && clients[i].pool.maxConnections == cfg.providers[i].maxConnections
        && clients[i].pool.onChangedIndex == i
    ensures var changes := InitialNotifications(cfg);
      && |changes| == |cfg.providers|
      && forall i :: 0 <= i < |changes| ==> changes[i] == PoolChange(i, 0, 0, cfg.providers[i].maxConnections)
  {
  }

  /** A pool wired to the handler for `index`; on creation it reports zero counters
      and its capacity to that handler. */
  method CreateNewConnectionPool(maxConnections: nat, endpoint: ConnectionDetails, index: nat, poolStats: PoolStatsSink)
    returns (connectionPool: ConnectionPool)
    modifies poolStats
    ensures connectionPool == ConnectionPool(maxConnections, endpoint, index)
    ensures poolStats.received == old(poolStats.received) + [PoolChange(index, 0, 0, maxConnections)]
  {
    connectionPool := ConnectionPool(maxConnections, endpoint, index);
    poolStats.OnConnectionPoolChanged(index, 0, 0, maxConnections);
  }

  method CreateProviderClient(connectionDetails: ConnectionDetails, index: nat, poolStats: PoolStatsSink)
    returns (client: ProviderClient)
    modifies poolStats
    ensures client == ProviderClientFor(connectionDetails, index)
    ensures poolStats.received == old(poolStats.received) + [PoolChange(index, 0, 0, connectionDetails.maxConnections)]
  {
    var connectionPool := CreateNewConnectionPool(connectionDetails.maxConnections, connectionDetails, index, poolStats);
    client := ProviderClient(connectionDetails.host, connectionDetails.providerType, connectionPool);
  }

  /** A new multi-provider client over one provider client per configured entry, with
      its own pool-statistics service. */
  method CreateMultiProviderClient(cfg: UsenetProviderConfig, tracker: UsageTracker)
    returns (client: MultiProviderNntpClient, poolStats: PoolStatsSink)
    ensures fresh(client) && fresh(poolStats)
    ensures client.providers == ProviderClientsFor(cfg) && client.tracker == tracker && client.disposed == []
    ensures poolStats.received == InitialNotifications(cfg)
  {
    poolStats := new PoolStatsSink();
    var providerClients: seq<ProviderClient> := [];
    for index := 0 to |cfg.providers|
      invariant providerClients == ProviderClientsFor(cfg)[..index]
      invariant poolStats.received == InitialNotifications(cfg)[..index]
    {
      var providerClient := CreateProviderClient(cfg.providers[index], index, poolStats);
      providerClients := providerClients + [providerClient];
    }
    client := new MultiProviderNntpClient(providerClients, tracker);
  }

  class UsenetStreamingClient {
    /** The client calls are currently served by. */
    var current: MultiProviderNntpClient
    /** The pool-statistics service built with `current`. */
    var poolStats: PoolStatsSink
    const tracker: UsageTracker

    constructor (cfg: UsenetProviderConfig, tracker: UsageTracker)
      ensures current.providers == ProviderClientsFor(cfg) && current.tracker == tracker
      ensures poolStats.received == InitialNotifications(cfg)
      ensures this.tracker == tracker
    {
      var client, stats := CreateMultiProviderClient(cfg, tracker);
      this.tracker := tracker;
      current, poolStats := client, stats;
    }

    /** The configuration-changed handler. `changedConfig` holds the changed entries;
        `cfg` is the provider configuration at the time of the change. */
    method OnConfigChanged(changedConfig: map<string, string>, cfg: UsenetProviderConfig)
      modifies this
      ensures ProvidersConfigKey !in changedConfig ==> current == old(current) && poolStats == old(poolStats)
      ensures ProvidersConfigKey in changedConfig ==>
        && fresh(current) && fresh(poolStats)
        && current.providers == ProviderClientsFor(cfg) && current.tracker == tracker && current.disposed == []
        && poolStats.received == InitialNotifications(cfg)
    {
      if ProvidersConfigKey !in changedConfig {
        return;
      }
      var newUsenetClient, newPoolStats := CreateMultiProviderClient(cfg, tracker);
      current, poolStats := newUsenetClient, newPoolStats;
    }
  }
}
