/**
 * Container configurations, host-volume tables and client configurations:
 * host-path resolution, merging one configuration into another, and the
 * lazily created, cached engine client.
 */
module Config {
  import opened Wrappers
  import opened Values
  import opened Input

  // ---------------------------------------------------------------------
  // Host paths

  /**
   * `posixpath.join(root, path)`: an absolute `path` replaces the root;
   * otherwise the two are joined with a `/` unless the root is empty or
   * already ends with one.
   */
  function JoinPath(root: string, path: string): (j: string)
    ensures StartsWith(path, "/") ==> j == path
    ensures !StartsWith(path, "/") && (root == "" || root[|root| - 1] == '/') ==> j == root + path
    ensures !StartsWith(path, "/") && root != "" && root[|root| - 1] != '/' ==> j == root + "/" + path
  {
    if StartsWith(path, "/") then path
    else if root == "" || root[|root| - 1] == '/' then root + path
    else root + "/" + path
  }

  /**
   * Joining a relative path under a non-empty root keeps the root as a prefix
   * and the path as a suffix, with exactly one `/` at the seam: the root's own
   * trailing one, or a single added one after a root that has none.
   */
  lemma JoinPathSeam(root: string, path: string)
    requires root != "" && Relative(path)
    ensures var j := JoinPath(root, path);
      var k := |j| - |path|;
      |root| <= k <= |root| + 1 && j[..|root|] == root && j[k..] == path &&
      j[k - 1] == '/' && j[k] != '/' &&
      (root[|root| - 1] != '/' ==> k == |root| + 1 && j[k - 2] != '/')
  {
    var j := JoinPath(root, path);
    assert !StartsWith(path, "/");
    if root[|root| - 1] == '/' {
      assert j == root + path;
    } else {
      assert j == root + "/" + path;
      assert j[|root| - 1] == root[|root| - 1];
    }
  }

  /** The lookup key of a per-instance path table: the instance, or `'default'` when there is none. */
  function InstanceKey(instance: Option<string>): (k: string)
    ensures Present(instance) ==> k == instance.value
    ensures !Present(instance) ==> k == "default"
  {
    if Present(instance) then instance.value else "default"
  }

  /** The path chosen for an instance: the path itself, or its entry in a per-instance table. */
  function SelectPath(path: HostPath, instance: Option<string>): Option<string> {
    match path
    case NoPath => None
    case Path(p) => Some(p)
    case PerInstance(m) =>
      var key := InstanceKey(instance);
      if key in m then Some(m[key]) else None
  }

  /** A non-empty path that does not start with `/`. */
  predicate Relative(p: string) {
    p != "" && p[0] != '/'
  }

  /**
   * `get_host_path`: the instance's path, with the root joined in front when
   * the path is relative and a root is set; anything else is returned unchanged.
   */
  function GetHostPath(root: string, path: HostPath, instance: Option<string>): (r: Option<string>)
    ensures r.None? <==> SelectPath(path, instance).None?
    ensures r.Some? && Relative(SelectPath(path, instance).value) && root != "" ==>
      r.value == JoinPath(root, SelectPath(path, instance).value)
    ensures r.Some? && !(Relative(SelectPath(path, instance).value) && root != "") ==>
      r == SelectPath(path, instance)
  {
    var selected := SelectPath(path, instance);
    if selected.Some? && Relative(selected.value) && root != "" then
      Some(JoinPath(root, selected.value))
    else
      selected
  }

  /** Under an absolute root every non-empty host path is absolute and ends with the chosen path. */
  lemma GetHostPathUnderAbsoluteRoot(root: string, path: HostPath, instance: Option<string>)
    requires StartsWith(root, "/")
    requires GetHostPath(root, path, instance).Some?
    ensures var r := GetHostPath(root, path, instance).value;
      var p := SelectPath(path, instance).value;
      (r != "" ==> r[0] == '/') && |p| <= |r| && r[|r| - |p|..] == p
  {
    var r := GetHostPath(root, path, instance).value;
    var p := SelectPath(path, instance).value;
    if Relative(p) {
      var sep := if root[|root| - 1] == '/' then "" else "/";
      assert r == root + sep + p;
      assert r[|r| - |p|..] == p;
      assert r[0] == root[0];
    }
  }

  /** A per-instance table yields a path exactly when it has an entry for the instance (or `'default'`). */
  lemma GetHostPathPerInstance(root: string, paths: map<string, string>, instance: Option<string>)
    ensures GetHostPath(root, PerInstance(paths), instance).Some? <==> InstanceKey(instance) in paths
    ensures !Present(instance) ==>
      GetHostPath(root, PerInstance(paths), instance) == GetHostPath(root, PerInstance(paths), Some("default"))
  {
  }

  /** `HostVolumeConfiguration`: the root directory and the alias-to-path table. */
  datatype HostVolumes = HostVolumes(root: string, paths: map<string, HostPath>)

  /** `HostVolumeConfiguration.get`: the host path of an alias for an instance; `None` for an unknown alias. */
  function HostVolumeGet(host: HostVolumes, alias: string, instance: Option<string>): (r: Option<string>)
    ensures alias !in host.paths ==> r.None?
    ensures alias in host.paths ==> r == GetHostPath(host.root, host.paths[alias], instance)
  {
    GetHostPath(host.root, if alias in host.paths then host.paths[alias] else NoPath, instance)
  }

  // ---------------------------------------------------------------------
  // Container configurations

  /**
   * The attributes of a `ContainerConfiguration`, as values. `None` in an
   * `Option` field stands for `NotSet` (and for `None`); `user` and
   * `stop_timeout` keep the two apart because the code does.
   */
  datatype ConfigRecord = ConfigRecord(
    image: Option<string>,
    instances: seq<string>,
    shares: seq<string>,
    environment: Environment,
    binds: seq<HostVolume>,
    uses: seq<SharedVolume>,
    links: seq<ContainerLink>,
    attaches: seq<string>,
    exposes: seq<PortBinding>,
    user: Value,
    permissions: Option<string>,
    persistent: Option<bool>,
    clients: Option<seq<string>>,
    createOptions: Kwargs,
    hostConfig: Kwargs,
    stopTimeout: Value,
    network: Network)

  /** The attributes `ContainerConfiguration.__init__` sets before applying its keyword arguments. */
  function DefaultConfig(): (c: ConfigRecord)
    ensures c.image.None? && c.user == NotSet && c.permissions.None? && c.persistent.None?
    ensures c.clients.None? && c.stopTimeout == NotSet && c.network == NetworkNotSet
    ensures c.instances == [] && c.shares == [] && c.environment == EnvList([]) && c.binds == []
    ensures c.uses == [] && c.links == [] && c.attaches == [] && c.exposes == []
    ensures c.createOptions == map[] && c.hostConfig == map[]
  {
    ConfigRecord(None, [], [], EnvList([]), [], [], [], [], [], NotSet, None, None, None,
                 map[], map[], NotSet, NetworkNotSet)
  }

  /**
   * A container map as the policy reads it (the extended map: inheritance is
   * already flattened). Its own module is not part of this model.
   */
  datatype ContainerMap = ContainerMap(
    name: string,
    repository: string,
    host: HostVolumes,
    volumes: map<string, string>,
    defaultDomain: Value,
    setHostname: bool,
    useAttachedParentName: bool,
    clients: seq<string>,
    containers: map<string, ConfigRecord>)

  /** `current.extend(u for u in update if u not in current)`: the generator sees elements already appended. */
  function MergeUnique<T(==)>(current: seq<T>, update: seq<T>): seq<T> {
    if update == [] then current
    else
      var r := MergeUnique(current, update[..|update| - 1]);
      var u := update[|update| - 1];
      if u in r then r else r + [u]
  }

  /**
   * Merging a list keeps the current list as a prefix, contains exactly the
   * elements of both, and adds each new element once.
   */
  lemma {:induction false} MergeUniqueProperties<T>(current: seq<T>, update: seq<T>)
    ensures var r := MergeUnique(current, update);
      && |current| <= |r| && r[..|current|] == current
      && (forall x :: x in r <==> x in current || x in update)
      && (forall i :: |current| <= i < |r| ==> r[i] !in current)
      && (forall i, j :: |current| <= i < j < |r| ==> r[i] != r[j])
  {
    if update != [] {
      var init := update[..|update| - 1];
      MergeUniqueProperties(current, init);
      assert update == init + [update[|update| - 1]];
    }
  }

  /** The keys (first components) of a list of tuples. */
  function KeysOf<T(==), K>(s: seq<T>, key: T -> K): set<K> {
    set x | x in s :: key(x)
  }

  /** The elements of `update` whose key is not in `keys`, in order; duplicates among them are all kept. */
  function KeepNew<T, K(==)>(update: seq<T>, keys: set<K>, key: T -> K): seq<T> {
    if update == [] then []
    else
      var u := update[|update| - 1];
      KeepNew(update[..|update| - 1], keys, key) + (if key(u) in keys then [] else [u])
  }

  /** With no keys to avoid, every update entry is kept. */
  lemma {:induction false} KeepNewNoKeys<T, K>(update: seq<T>, key: T -> K)
    ensures KeepNew(update, {}, key) == update
  {
    if update != [] {
      KeepNewNoKeys(update[..|update| - 1], key);
      assert update == update[..|update| - 1] + [update[|update| - 1]];
    }
  }

  /** `_merge_first`: the current list followed by the update entries whose key it does not have yet. */
  function MergeFirst<T(==), K(==)>(current: seq<T>, update: seq<T>, key: T -> K): seq<T> {
    current + KeepNew(update, KeysOf(current, key), key)
  }

  /** An element is kept exactly when it is in the update and its key is new. */
  lemma {:induction false} KeepNewMember<T, K>(update: seq<T>, keys: set<K>, key: T -> K, x: T)
    ensures x in KeepNew(update, keys, key) <==> x in update && key(x) !in keys
  {
    if update != [] {
      var init := update[..|update| - 1];
      KeepNewMember(init, keys, key, x);
      assert update == init + [update[|update| - 1]];
    }
  }

  /**
   * After merging, the current list is a prefix, an update entry is added
   * exactly when its key is new, and so the earliest entry for every key of
   * the current list is still the current one.
   */
  lemma MergeFirstProperties<T, K>(current: seq<T>, update: seq<T>, key: T -> K)
    ensures var r := MergeFirst(current, update, key);
      && |current| <= |r| && r[..|current|] == current
      && (forall x :: x in r[|current|..] <==> x in update && key(x) !in KeysOf(current, key))
      && (forall i :: |current| <= i < |r| ==> key(r[i]) !in KeysOf(current, key))
  {
    var r := MergeFirst(current, update, key);
    var keys := KeysOf(current, key);
    assert r[|current|..] == KeepNew(update, keys, key);
    forall x ensures x in r[|current|..] <==> x in update && key(x) !in keys {
      KeepNewMember(update, keys, key, x);
    }
    forall i | |current| <= i < |r| ensures key(r[i]) !in keys {
      assert r[i] in r[|current|..];
      KeepNewMember(update, keys, key, r[i]);
    }
  }

  /** `_merge_list`: extend `current` in place, one update element at a time. */
  method ExtendUnique<T(==)>(current: seq<T>, update: seq<T>) returns (r: seq<T>)
    ensures r == MergeUnique(current, update)
  {
    r := current;
    var i := 0;
    while i < |update|
      invariant 0 <= i <= |update|
      invariant r == MergeUnique(current, update[..i])
    {
      assert update[..i + 1][..i] == update[..i];
      if update[i] !in r {
        r := r + [update[i]];
      }
      i := i + 1;
    }
    assert update[..|update|] == update;
  }

  /** `_merge_first`: the new keys are computed before the list is extended. */
  method ExtendFirst<T(==), K(==)>(current: seq<T>, update: seq<T>, key: T -> K) returns (r: seq<T>)
    ensures r == MergeFirst(current, update, key)
  {
    r := current;
    if update == [] {
      return;
    }
    var keys := KeysOf(current, key);
    var i := 0;
    while i < |update|
      invariant 0 <= i <= |update|
      invariant r == current + KeepNew(update[..i], keys, key)
    {
      assert update[..i + 1][..i] == update[..i];
      if key(update[i]) !in keys {
        r := r + [update[i]];
      }
      i := i + 1;
    }
    assert update[..|update|] == update;
  }

  function BindKey(b: HostVolume): VolumeRef { b.volume }
  function UseKey(u: SharedVolume): string { u.volume }
  function LinkKey(l: ContainerLink): string { l.container }
  function PortKey(p: PortBinding): Value { p.exposedPort }

  /** What `merge` is given: a configuration, a dictionary (already normalised), or anything else. */
  datatype MergeSource =
    | FromConfig(config: ConfigRecord)
    | FromDict(values: ConfigRecord, startOptions: Kwargs)
    | Unsupported

  /** A single-value update counts when it is neither `None` nor `NotSet`. */
  predicate IsSet(v: Value) {
    v != Null && v != NotSet
  }

  predicate NetworkIsSet(n: Network) {
    n != NetworkNotSet && n != NetworkNone
  }

  /** The plain list attributes after `_merge_list`: instances, shares and attaches. */
  function MergePlainLists(c: ConfigRecord, u: ConfigRecord): ConfigRecord {
    c.(
      instances := MergeUnique(c.instances, u.instances),
      shares := MergeUnique(c.shares, u.shares),
      attaches := MergeUnique(c.attaches, u.attaches))
  }

  /** The keyed list attributes after `_merge_first`: binds, uses, links and exposes. */
  function MergeKeyedLists(c: ConfigRecord, u: ConfigRecord): ConfigRecord {
    c.(
      binds := MergeFirst(c.binds, u.binds, BindKey),
      uses := MergeFirst(c.uses, u.uses, UseKey),
      links := MergeFirst(c.links, u.links, LinkKey),
      exposes := MergeFirst(c.exposes, u.exposes, PortKey))
  }

  /**
   * The list attributes after merging, in the code's order: the plain lists,
   * then clients (which raises when the current clients were never set), then
   * the keyed lists.
   */
  function MergeListAttributes(current: ConfigRecord, u: ConfigRecord): (ConfigRecord, Outcome) {
    var c1 := MergePlainLists(current, u);
    if u.clients.Some? && current.clients.None? then
      (c1, Fail(AttributeError("NotSet has no attribute 'extend'")))
    else
      var c2 := c1.(clients := if u.clients.Some? then Some(MergeUnique(current.clients.value, u.clients.value)) else current.clients);
      (MergeKeyedLists(c2, u), Pass)
  }

  /** `_update_attr` on an optional attribute: the update unless it is unset. */
  function UpdateOption<T>(current: Option<T>, update: Option<T>): Option<T> {
    if update.Some? then update else current
  }

  /** `_update_attr` on a value attribute: the update unless it is `None` or `NotSet`. */
  function UpdateValue(current: Value, update: Value): Value {
    if IsSet(update) then update else current
  }

  function UpdateNetwork(current: Network, update: Network): Network {
    if NetworkIsSet(update) then update else current
  }

  /** The single-value attributes after `_update_attr`: overwritten when the update sets them. */
  function MergeSingleValues(c: ConfigRecord, u: ConfigRecord): ConfigRecord {
    c.(
      image := UpdateOption(c.image, u.image),
      user := UpdateValue(c.user, u.user),
      permissions := UpdateOption(c.permissions, u.permissions),
      persistent := UpdateOption(c.persistent, u.persistent),
      stopTimeout := UpdateValue(c.stopTimeout, u.stopTimeout),
      network := UpdateNetwork(c.network, u.network))
  }

  /** The single-value and dictionary attributes after merging. */
  function MergeOtherAttributes(c: ConfigRecord, u: ConfigRecord, startOptions: Kwargs): ConfigRecord {
    var s := MergeSingleValues(c, u);
    s.(createOptions := s.createOptions + u.createOptions,
       hostConfig := s.hostConfig + startOptions + u.hostConfig)
  }

  /** `ContainerConfiguration.merge`: the configuration afterwards and whether it raised. */
  function Merged(current: ConfigRecord, source: MergeSource, listsOnly: bool): (ConfigRecord, Outcome) {
    match source
    case Unsupported => (current, Fail(ValueError("ContainerConfiguration or dictionary expected")))
    case FromConfig(u) => MergedFrom(current, u, u.hostConfig, listsOnly)
    case FromDict(u, startOptions) => MergedFrom(current, u, startOptions, listsOnly)
  }

  function MergedFrom(current: ConfigRecord, u: ConfigRecord, startOptions: Kwargs, listsOnly: bool): (ConfigRecord, Outcome) {
    var (c, outcome) := MergeListAttributes(current, u);
    if outcome.Fail? || listsOnly then (c, outcome)
    else (MergeOtherAttributes(c, u, startOptions), Pass)
  }

  /** Anything other than a configuration or a dictionary is refused and changes nothing. */
  lemma MergeUnsupported(current: ConfigRecord, listsOnly: bool)
    ensures Merged(current, Unsupported, listsOnly) == (current, Fail(ValueError("ContainerConfiguration or dictionary expected")))
  {
  }

  /**
   * Merging names of clients into a configuration whose clients were never
   * set raises, after instances, shares and attaches were already merged.
   */
  lemma MergeClientsIntoNotSet(current: ConfigRecord, u: ConfigRecord, listsOnly: bool)
    requires current.clients.None? && u.clients.Some?
    ensures var (c, outcome) := Merged(current, FromConfig(u), listsOnly);
      && outcome.Fail? && outcome.error.AttributeError?
      && c.instances == MergeUnique(current.instances, u.instances)
      && c.binds == current.binds && c.image == current.image && c.clients.None?
  {
  }

  /**
   * Merging into a new configuration: client names always raise, because the
   * new configuration's clients are not set; otherwise the keyed lists, the
   * image, the user and the option dictionaries are the update's, and the
   * instances are the update's without repetitions.
   */
  lemma MergeIntoDefault(u: ConfigRecord)
    ensures var (c, outcome) := Merged(DefaultConfig(), FromConfig(u), false);
      && (u.clients.Some? ==> outcome.Fail? && outcome.error.AttributeError?)
      && (u.clients.None? ==>
            && outcome.Pass? && c.clients.None?
            && c.binds == u.binds && c.uses == u.uses && c.links == u.links && c.exposes == u.exposes
            && c.image == u.image && (c.user == if IsSet(u.user) then u.user else NotSet)
            && c.createOptions == u.createOptions && c.hostConfig == u.hostConfig
            && (forall x :: x in c.instances <==> x in u.instances)
            && (forall i, j :: 0 <= i < j < |c.instances| ==> c.instances[i] != c.instances[j]))
  {
    var d := DefaultConfig();
    if u.clients.None? {
      var c1 := MergePlainLists(d, u);
      var c2 := c1.(clients := None);
      assert MergeListAttributes(d, u) == (MergeKeyedLists(c2, u), Pass);
      KeepNewNoKeys(u.binds, BindKey);
      KeepNewNoKeys(u.uses, UseKey);
      KeepNewNoKeys(u.links, LinkKey);
      KeepNewNoKeys(u.exposes, PortKey);
      assert KeysOf(d.binds, BindKey) == {} && KeysOf(d.uses, UseKey) == {};
      assert KeysOf(d.links, LinkKey) == {} && KeysOf(d.exposes, PortKey) == {};
      MergeUniqueProperties(d.instances, u.instances);
    }
  }

  /** A merged list keeps the current elements, in order, and gains only elements not already present. */
  lemma MergeKeepsCurrentInstances(current: ConfigRecord, source: MergeSource, listsOnly: bool)
    requires !source.Unsupported?
    ensures var c := Merged(current, source, listsOnly).0;
      var u := if source.FromConfig? then source.config else source.values;
      && |current.instances| <= |c.instances| && c.instances[..|current.instances|] == current.instances
      && (forall x :: x in c.instances <==> x in current.instances || x in u.instances)
      && (forall i :: |current.instances| <= i < |c.instances| ==> c.instances[i] !in current.instances)
  {
    var u := if source.FromConfig? then source.config else source.values;
    assert Merged(current, source, listsOnly).0.instances == MergeUnique(current.instances, u.instances);
    MergeUniqueProperties(current.instances, u.instances);
  }

  /** An update bind is added only if its volume is not yet bound, so the earliest bind of a volume wins. */
  lemma MergeBindsFirstWins(current: ConfigRecord, source: MergeSource, listsOnly: bool)
    requires !source.Unsupported?
    requires Merged(current, source, listsOnly).1.Pass?
    ensures var c := Merged(current, source, listsOnly).0;
      var u := if source.FromConfig? then source.config else source.values;
      && |current.binds| <= |c.binds| && c.binds[..|current.binds|] == current.binds
      && (forall b :: b in c.binds[|current.binds|..] <==> b in u.binds && b.volume !in KeysOf(current.binds, BindKey))
  {
    var u := if source.FromConfig? then source.config else source.values;
    MergeFirstProperties(current.binds, u.binds, BindKey);
  }

  /**
   * A single attribute is overwritten exactly when the update sets it; with
   * `lists_only` single and dictionary attributes are left alone.
   */
  lemma MergeSingleAttributes(current: ConfigRecord, u: ConfigRecord, listsOnly: bool)
    requires !(u.clients.Some? && current.clients.None?)
    ensures var (c, outcome) := Merged(current, FromConfig(u), listsOnly);
      && outcome.Pass?
      && (listsOnly ==> c.user == current.user && c.image == current.image && c.stopTimeout == current.stopTimeout
                        && c.network == current.network && c.createOptions == current.createOptions
                        && c.hostConfig == current.hostConfig && c.persistent == current.persistent)
      && (!listsOnly ==> (c.user == if IsSet(u.user) then u.user else current.user)
                         && (c.stopTimeout == if IsSet(u.stopTimeout) then u.stopTimeout else current.stopTimeout)
                         && (c.image == if u.image.Some? then u.image else current.image))
  {
  }

  /** Dictionary attributes are updated, the update winning on a common key; other keys stay. */
  lemma MergeDictAttributes(current: ConfigRecord, u: ConfigRecord, startOptions: Kwargs, k: string)
    requires !(u.clients.Some? && current.clients.None?)
    ensures var c := Merged(current, FromDict(u, startOptions), false).0;
      && (k in u.createOptions ==> k in c.createOptions && c.createOptions[k] == u.createOptions[k])
      && (k !in u.createOptions ==> Get(c.createOptions, k) == Get(current.createOptions, k))
      && (k in u.hostConfig ==> c.hostConfig[k] == u.hostConfig[k])
      && (k !in u.hostConfig && k in startOptions ==> c.hostConfig[k] == startOptions[k])
      && (k !in u.hostConfig && k !in startOptions ==> Get(c.hostConfig, k) == Get(current.hostConfig, k))
  {
  }

  /** A mutable `ContainerConfiguration`. */
  class ContainerConfiguration {
    var image: Option<string>
    var instances: seq<string>
    var shares: seq<string>
    var environment: Environment
    var binds: seq<HostVolume>
    var uses: seq<SharedVolume>
    var links: seq<ContainerLink>
    var attaches: seq<string>
    var exposes: seq<PortBinding>
    var user: Value
    var permissions: Option<string>
    var persistent: Option<bool>
    var clients: Option<seq<string>>
    var createOptions: Kwargs
    var hostConfig: Kwargs
    var stopTimeout: Value
    var network: Network

    /** The attribute values of this configuration. */
    function Snapshot(): ConfigRecord
      reads this
    {
      ConfigRecord(image, instances, shares, environment, binds, uses, links, attaches, exposes, user,
                   permissions, persistent, clients, createOptions, hostConfig, stopTimeout, network)
    }

    constructor (c: ConfigRecord)
      ensures Snapshot() == c
    {
      image, instances, shares, environment := c.image, c.instances, c.shares, c.environment;
      binds, uses, links, attaches, exposes := c.binds, c.uses, c.links, c.attaches, c.exposes;
      user, permissions, persistent, clients := c.user, c.permissions, c.persistent, c.clients;
      createOptions, hostConfig, stopTimeout, network := c.createOptions, c.hostConfig, c.stopTimeout, c.network;
    }

    /** `ContainerConfiguration()` with no keyword arguments: every attribute at its default. */
    constructor Empty()
      ensures Snapshot() == DefaultConfig()
    {
      var c := DefaultConfig();
      image, instances, shares, environment := c.image, c.instances, c.shares, c.environment;
      binds, uses, links, attaches, exposes := c.binds, c.uses, c.links, c.attaches, c.exposes;
      user, permissions, persistent, clients := c.user, c.permissions, c.persistent, c.clients;
      createOptions, hostConfig, stopTimeout, network := c.createOptions, c.hostConfig, c.stopTimeout, c.network;
    }

    /** `merge(values, lists_only)`, updating this configuration in place. */
    method Merge(source: MergeSource, listsOnly: bool) returns (outcome: Outcome)
      modifies this
      ensures (Snapshot(), outcome) == Merged(old(Snapshot()), source, listsOnly)
    {
      if source.Unsupported? {
        return Fail(ValueError("ContainerConfiguration or dictionary expected"));
      }
      var u := if source.FromConfig? then source.config else source.values;
      var startOptions := if source.FromConfig? then source.config.hostConfig else source.startOptions;
      outcome := MergeLists(u);
      if outcome.Pass? && !listsOnly {
        MergeOthers(u, startOptions);
      }
    }

    /** `_merge_list` on instances, shares and attaches. */
    method MergePlain(u: ConfigRecord)
      modifies this
      ensures instances == MergeUnique(old(instances), u.instances)
      ensures shares == MergeUnique(old(shares), u.shares)
      ensures attaches == MergeUnique(old(attaches), u.attaches)
      ensures unchanged(`image, `environment, `binds)
      ensures unchanged(`uses, `links, `exposes, `user)
      ensures unchanged(`permissions, `persistent, `clients)
      ensures unchanged(`createOptions, `hostConfig)
      ensures unchanged(`stopTimeout, `network)
    {
      instances := ExtendUnique(instances, u.instances);
      shares := ExtendUnique(shares, u.shares);
      attaches := ExtendUnique(attaches, u.attaches);
    }

    /** `_merge_first` on binds, uses, links and exposes. */
    method MergeKeyed(u: ConfigRecord)
      modifies this
      ensures binds == MergeFirst(old(binds), u.binds, BindKey)
      ensures uses == MergeFirst(old(uses), u.uses, UseKey)
      ensures links == MergeFirst(old(links), u.links, LinkKey)
      ensures exposes == MergeFirst(old(exposes), u.exposes, PortKey)
      ensures unchanged(`image, `instances, `shares)
      ensures unchanged(`environment, `attaches, `user)
      ensures unchanged(`permissions, `persistent, `clients)
      ensures unchanged(`createOptions, `hostConfig)
      ensures unchanged(`stopTimeout, `network)
    {
      binds := ExtendFirst(binds, u.binds, BindKey);
      uses := ExtendFirst(uses, u.uses, UseKey);
      links := ExtendFirst(links, u.links, LinkKey);
      exposes := ExtendFirst(exposes, u.exposes, PortKey);
    }

    /** The list attributes, in the code's order: plain lists, clients, keyed lists. */
    method MergeLists(u: ConfigRecord) returns (outcome: Outcome)
      modifies this
      ensures (Snapshot(), outcome) == MergeListAttributes(old(Snapshot()), u)
    {
      MergePlain(u);
      if u.clients.Some? {
        if clients.None? {
          return Fail(AttributeError("NotSet has no attribute 'extend'"));
        }
        var merged := ExtendUnique(clients.value, u.clients.value);
        clients := Some(merged);
      }
      MergeKeyed(u);
      outcome := Pass;
    }

    /** `_update_attr` on the optional single values. */
    method MergeOptionals(u: ConfigRecord)
      modifies this
      ensures image == UpdateOption(old(image), u.image)
      ensures permissions == UpdateOption(old(permissions), u.permissions)
      ensures persistent == UpdateOption(old(persistent), u.persistent)
      ensures unchanged(`instances, `shares, `environment, `binds, `uses, `links, `attaches, `exposes)
      ensures unchanged(`user, `clients, `createOptions, `hostConfig, `stopTimeout, `network)
    {
      image := UpdateOption(image, u.image);
      permissions := UpdateOption(permissions, u.permissions);
      persistent := UpdateOption(persistent, u.persistent);
    }

    /** `_update_attr` on user, stop timeout and network, which may be `None` or `NotSet`. */
    method MergeValues(u: ConfigRecord)
      modifies this
      ensures user == UpdateValue(old(user), u.user)
      ensures stopTimeout == UpdateValue(old(stopTimeout), u.stopTimeout)
      ensures network == UpdateNetwork(old(network), u.network)
      ensures unchanged(`image, `instances, `shares, `environment, `binds, `uses, `links, `attaches)
      ensures unchanged(`exposes, `permissions, `persistent, `clients, `createOptions, `hostConfig)
    {
      user := UpdateValue(user, u.user);
      stopTimeout := UpdateValue(stopTimeout, u.stopTimeout);
      network := UpdateNetwork(network, u.network);
    }

    /** `_update_attr` for the single values and `_update_dict` for the option dictionaries. */
    method MergeOthers(u: ConfigRecord, startOptions: Kwargs)
      modifies this
      ensures Snapshot() == MergeOtherAttributes(old(Snapshot()), u, startOptions)
    {
      MergeOptionals(u);
      MergeValues(u);
      createOptions := createOptions + u.createOptions;
      hostConfig := hostConfig + startOptions + u.hostConfig;
    }
  }

  // ---------------------------------------------------------------------
  // Client configurations

  /** An engine client handle, as built by the client constructor from its keyword arguments. */
  datatype Client = Client(initKwargs: Kwargs)

  /** What the keyword builders read from a client configuration: its settings and interface table. */
  datatype ClientView = ClientView(settings: Kwargs, interfaces: map<string, string>)

  /** The settings passed on to the client constructor. */
  const InitKeys: set<string> := {"base_url", "version", "timeout", "tls"}

  /** `get_init_kwargs`: exactly the truthy settings among `base_url`, `version`, `timeout` and `tls`. */
  function GetInitKwargs(settings: Kwargs): (r: Kwargs)
    ensures forall k :: k in r <==> k in InitKeys && k in settings && Truthy(settings[k])
    ensures forall k :: k in r ==> r[k] == settings[k]
  {
    map k | k in InitKeys && k in settings && Truthy(settings[k]) :: settings[k]
  }

  /** A mutable `ClientConfiguration` with its cached client. */
  class ClientConfiguration {
    var settings: Kwargs
    var interfaces: map<string, string>
    var client: Option<Client>
    /** How many clients this configuration has constructed. */
    ghost var constructed: nat

    constructor (settings: Kwargs, interfaces: map<string, string>, client: Option<Client>)
      ensures this.settings == settings && this.interfaces == interfaces && this.client == client
      ensures constructed == 0
    {
      this.settings := settings;
      this.interfaces := interfaces;
      this.client := client;
      constructed := 0;
    }

    function View(): ClientView
      reads this
    {
      ClientView(settings, interfaces)
    }

    /** `get_client`: the cached client, or a new one built from the init keyword arguments and cached. */
    method GetClient() returns (c: Client)
      modifies this
      ensures unchanged(`settings, `interfaces)
      ensures old(client).Some? ==> c == old(client).value && constructed == old(constructed)
      ensures old(client).None? ==> c == Client(GetInitKwargs(settings)) && constructed == old(constructed) + 1
      ensures client == Some(c)
    {
      if client.Some? {
        return client.value;
      }
      c := Client(GetInitKwargs(settings));
      client := Some(c);
      constructed := constructed + 1;
    }
  }

  /** Asking twice gives the same client, and at most one is ever constructed. */
  method GetClientTwice(config: ClientConfiguration) returns (first: Client, second: Client)
    modifies config
    ensures first == second
    ensures config.constructed <= old(config.constructed) + 1
    ensures old(config.client).Some? ==> config.constructed == old(config.constructed)
  {
    first := config.GetClient();
    second := config.GetClient();
  }
}
