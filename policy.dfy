/**
 * The policy's choice of clients for a container configuration and the
 * order in which the dependency path is walked.
 */
module Policy {
  import opened Wrappers
  import opened Values
  import opened Config
  import opened Naming

  /** A `(map name, configuration name, instance)` triple of the dependency resolver. */
  datatype PathItem = PathItem(mapName: string, container: string, instance: Option<string>)

  /**
   * The client names `get_clients` looks up: the configuration's clients if
   * it names any, else the map's, else the default client alone. The list is
   * never empty.
   */
  function ClientNames(config: ConfigRecord, cmap: ContainerMap): (names: seq<string>)
    ensures config.clients.Some? && config.clients.value != [] ==> names == config.clients.value
    ensures (config.clients.None? || config.clients.value == []) && cmap.clients != [] ==> names == cmap.clients
    ensures (config.clients.None? || config.clients.value == []) && cmap.clients == [] ==> names == [DefaultClientName]
    ensures names != []
  {
    if config.clients.Some? && config.clients.value != [] then config.clients.value
    else if cmap.clients != [] then cmap.clients
    else [DefaultClientName]
  }

  /** The entry `get_clients` makes for one name: the name, the (cached) client and its configuration. */
  datatype ClientEntry = ClientEntry(name: string, client: Client, config: ClientConfiguration)

  /** The position of the first name with no client configuration; `|names|` if there is none. */
  function FirstMissing(names: seq<string>, known: set<string>): (k: nat)
    ensures k <= |names|
    ensures forall j :: 0 <= j < k ==> names[j] in known
    ensures k < |names| ==> names[k] !in known
  {
    if names == [] then 0
    else if names[0] !in known then 0
    else 1 + FirstMissing(names[1..], known)
  }

  /** The configurations the first `k` names refer to. */
  function Consulted(names: seq<string>, clients: map<string, ClientConfiguration>, k: nat): set<ClientConfiguration> {
    set j | 0 <= j < k && j < |names| && names[j] in clients :: clients[names[j]]
  }

  /** The client `get_client` hands out for a configuration in a given state: the cached one, else a new one. */
  function ClientOf(settings: Kwargs, cached: Option<Client>): Client {
    if cached.Some? then cached.value else Client(GetInitKwargs(settings))
  }

  /**
   * `get_clients`: one entry per client name, in order, each client taken
   * from (and cached in) its configuration; a name with no configuration
   * raises `KeyError`, after the clients of the names before it were made and
   * cached. A configuration none of those names refers to is left alone.
   */
  method GetClients(config: ConfigRecord, cmap: ContainerMap, clients: map<string, ClientConfiguration>)
    returns (r: Result<seq<ClientEntry>>)
    modifies clients.Values
    ensures var names := ClientNames(config, cmap);
      var k := FirstMissing(names, clients.Keys);
      && (r.Failure? <==> k < |names|)
      && (r.Failure? ==> r.error == KeyError(names[k]))
      && (r.Success? ==>
            && |r.value| == |names|
            && forall i :: 0 <= i < |names| ==>
                 && r.value[i].name == names[i]
                 && r.value[i].config == clients[names[i]]
                 && r.value[i].client == ClientOf(old(clients[names[i]].settings), old(clients[names[i]].client))
                 && clients[names[i]].client == Some(r.value[i].client))
    ensures var names := ClientNames(config, cmap);
      forall j :: 0 <= j < FirstMissing(names, clients.Keys) ==>
        clients[names[j]].client == Some(ClientOf(old(clients[names[j]].settings), old(clients[names[j]].client)))
    ensures forall c :: c in clients.Values ==>
      && c.settings == old(c.settings) && c.interfaces == old(c.interfaces)
      && (old(c.client).Some? ==> c.client == old(c.client))
      && (c.client.Some? ==> c.client == Some(ClientOf(c.settings, old(c.client))))
    ensures var names := ClientNames(config, cmap);
      forall c :: c in clients.Values && c !in Consulted(names, clients, FirstMissing(names, clients.Keys)) ==>
        c.client == old(c.client) && c.constructed == old(c.constructed)
  {
    var names := ClientNames(config, cmap);
    var entries := FetchClients(names, clients);
    if |entries| < |names| {
      r := Failure(KeyError(names[|entries|]));
    } else {
      r := Success(entries);
    }
  }

  /** The loop of `get_clients`: the clients of the names up to the first one with no configuration. */
  method FetchClients(names: seq<string>, clients: map<string, ClientConfiguration>) returns (entries: seq<ClientEntry>)
    modifies clients.Values
    ensures |entries| == FirstMissing(names, clients.Keys)
    ensures forall j :: 0 <= j < |entries| ==>
      && entries[j].name == names[j] && entries[j].config == clients[names[j]]
      && clients[names[j]].client == Some(entries[j].client)
    ensures forall c :: c in clients.Values ==>
      && c.settings == old(c.settings) && c.interfaces == old(c.interfaces)
      && (old(c.client).Some? ==> c.client == old(c.client))
      && (c.client.Some? ==> c.client == Some(ClientOf(c.settings, old(c.client))))
      && (c !in Consulted(names, clients, |entries|) ==> c.client == old(c.client) && c.constructed == old(c.constructed))
  {
    ghost var k := FirstMissing(names, clients.Keys);
    ghost var touched := Consulted(names, clients, k);
    entries := [];
    var i := 0;
    while i < |names| && names[i] in clients
      invariant 0 <= i <= k && |entries| == i
      invariant forall j :: 0 <= j < i ==> entries[j].name == names[j] && entries[j].config == clients[names[j]]
      invariant forall j :: 0 <= j < i ==> clients[names[j]].client == Some(entries[j].client)
      invariant forall c :: c in clients.Values ==>
        && c.settings == old(c.settings) && c.interfaces == old(c.interfaces)
        && (old(c.client).Some? ==> c.client == old(c.client))
        && (c.client.Some? ==> c.client == Some(ClientOf(c.settings, old(c.client))))
        && (c !in touched ==> c.client == old(c.client) && c.constructed == old(c.constructed))
    {
      var cc := clients[names[i]];
      assert cc in touched by { assert i < k && names[i] in clients && clients[names[i]] == cc; }
      var c := cc.GetClient();
      entries := entries + [ClientEntry(names[i], c, cc)];
      i := i + 1;
    }
    assert i == k;
  }

  /**
   * `get_dependencies` and `get_dependents` walk the resolver's list
   * backwards: the last dependency (or dependent) comes first.
   */
  function Reversed<T>(s: seq<T>): (r: seq<T>)
    ensures |r| == |s|
    ensures forall i :: 0 <= i < |s| ==> r[i] == s[|s| - 1 - i]
  {
    if s == [] then [] else [s[|s| - 1]] + Reversed(s[..|s| - 1])
  }

  /** Walking the path backwards again gives the resolver's order. */
  lemma ReversedReversed<T>(s: seq<T>)
    ensures Reversed(Reversed(s)) == s
  {
    var r := Reversed(Reversed(s));
    assert forall i :: 0 <= i < |s| ==> r[i] == s[i];
  }

  /** The path visits exactly the containers the resolver lists, each as often. */
  lemma {:induction false} ReversedSameItems<T>(s: seq<T>)
    ensures multiset(Reversed(s)) == multiset(s)
  {
    if s != [] {
      ReversedSameItems(s[..|s| - 1]);
      assert s == s[..|s| - 1] + [s[|s| - 1]];
    }
  }
}
