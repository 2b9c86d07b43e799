/**
 * The keyword-argument builders of the base policy: for creating, setting up
 * the host configuration of, restarting, stopping and removing containers,
 * attached volume containers and their preparation containers. Each builder
 * assembles a dictionary from the map and configuration and then layers the
 * configuration's options and the caller's keyword arguments over it.
 */
module Builders {
  import opened Wrappers
  import opened Values
  import opened Input
  import opened Config
  import opened PolicyUtils
  import opened Naming

  /** The leading arguments every builder takes: map, configuration name and object, client name and object. */
  datatype Context = Context(
    cmap: ContainerMap,
    configName: string,
    config: ConfigRecord,
    clientName: string,
    client: ClientView)

  /** The policy's `core_image` (preparation containers) and `base_image` (attached volume containers). */
  datatype PolicyImages = PolicyImages(coreImage: string, baseImage: string)

  /** `get_user_group` and `str_arg`, whose definitions are not part of this model. */
  datatype Shortcuts = Shortcuts(userGroup: Value -> string, strArg: string -> string)

  /**
   * A keyword-argument value used as an update: anything falsy is skipped; a
   * dictionary's `None` entries are skipped, and any other entry under a key
   * that is not a string fails the `key in 'command'` test of `update_kwargs`
   * with `TypeError`; any other value has no `items` to iterate.
   */
  function AsKwargs(v: Value): (r: Result<Kwargs>)
    ensures !Truthy(v) ==> r == Success(map[])
    ensures v.Dict? && (forall key :: key in v.entries && !key.Str? ==> v.entries[key] == Null) ==>
      r.Success? && forall k :: (k in r.value <==> Str(k) in v.entries) && (k in r.value ==> r.value[k] == v.entries[Str(k)])
    ensures v.Dict? && (exists key :: key in v.entries && !key.Str? && v.entries[key] != Null) ==>
      r.Failure? && r.error.TypeError?
    ensures Truthy(v) && !v.Dict? ==> r.Failure? && r.error.AttributeError?
  {
    if !Truthy(v) then Success(map[])
    else if v.Dict? then
      if forall key :: key in v.entries && !key.Str? ==> v.entries[key] == Null then
        Success(map key | key in v.entries && key.Str? :: key.s := v.entries[key])
      else
        Failure(TypeError("'in <string>' requires string as left operand"))
    else
      Failure(AttributeError("object has no attribute 'items'"))
  }

  /** A keyword dictionary passed as a value reads back as itself. */
  lemma AsKwargsOfKwargs(d: Kwargs)
    ensures AsKwargs(KwargsValue(d)) == Success(d)
  {
    var v := KwargsValue(d);
    if d == map[] {
      assert v.entries == map[];
    } else {
      var k :| k in d;
      assert Str(k) in v.entries;
      var r := AsKwargs(v).value;
      forall k | k in d ensures k in r && r[k] == d[k] {
        assert Str(k) in v.entries && Str(k).s == k;
      }
      assert r == d;
    }
  }

  // ---------------------------------------------------------------------
  // Creating a container

  /** The exposed ports that are set, in order. */
  function ExposedPorts(exposes: seq<PortBinding>): seq<Value> {
    if exposes == [] then []
    else
      var p := exposes[|exposes| - 1].exposedPort;
      ExposedPorts(exposes[..|exposes| - 1]) + (if Truthy(p) then [p] else [])
  }

  /** The ports list holds exactly the set exposed ports, and has no more entries than there are bindings. */
  lemma {:induction false} ExposedPortsMembers(exposes: seq<PortBinding>)
    ensures var r := ExposedPorts(exposes);
      && |r| <= |exposes|
      && forall v :: v in r <==> exists i :: 0 <= i < |exposes| && exposes[i].exposedPort == v && Truthy(v)
  {
    if exposes != [] {
      var init := exposes[..|exposes| - 1];
      ExposedPortsMembers(init);
      assert forall i :: 0 <= i < |init| ==> init[i] == exposes[i];
    }
  }

  /**
   * The list keeps the order and the repetitions of the exposed ports: the
   * ports of two consecutive runs of bindings are those of the first run
   * followed by those of the second.
   */
  lemma {:induction false} ExposedPortsConcat(a: seq<PortBinding>, b: seq<PortBinding>)
    ensures ExposedPorts(a + b) == ExposedPorts(a) + ExposedPorts(b)
  {
    if b == [] {
      assert a + b == a;
    } else {
      var init := b[..|b| - 1];
      ExposedPortsConcat(a, init);
      assert (a + b)[..|a + b| - 1] == a + init;
      assert (a + b)[|a + b| - 1] == b[|b| - 1];
    }
  }

  /** A single binding contributes its port exactly when that port is set. */
  lemma ExposedPortsSingle(p: PortBinding)
    ensures ExposedPorts([p]) == if Truthy(p.exposedPort) then [p.exposedPort] else []
  {
    assert [p][..0] == [];
  }

  /** The image a configuration runs: its own image if set, else the configuration name. */
  function ImageName(ctx: Context): string {
    if Present(ctx.config.image) then ctx.config.image.value else ctx.configName
  }

  /** The `dict(...)` of `get_create_kwargs`, once the volumes and the user are known. */
  function CreateEntries(ctx: Context, containerName: string, order: seq<string>, volumes: seq<Value>, user: Value): Kwargs {
    map[
      "name" := Str(containerName),
      "image" := Str(Iname(ctx.cmap, ImageName(ctx))),
      "volumes" := List(volumes),
      "user" := user,
      "ports" := List(ExposedPorts(ctx.config.exposes)),
      "hostname" := if ctx.cmap.setHostname then Str(GetHostname(ctx.clientName, containerName)) else Null,
      "domainname" := GetDomainname(ctx.cmap, ctx.client),
      "environment" := List(StrValues(GetEnvironment(ctx.config.environment, order)))]
  }

  /** The dictionary `get_create_kwargs` assembles before the host configuration and the updates. */
  function CreateBase(ctx: Context, containerName: string, order: seq<string>): Result<Kwargs> {
    match Volumes(ctx.cmap, ctx.config)
    case Failure(e) => Failure(e)
    case Success(volumes) =>
      match ExtractUser(ctx.config.user)
      case Failure(e) => Failure(e)
      case Success(user) =>
        var base := CreateEntries(ctx, containerName, order, volumes, user);
        Success(if ctx.config.network == NetworkMode("disabled") then base["network_disabled" := Bool(true)] else base)
  }

  /**
   * What `get_create_kwargs` has before its final update: the base, with the
   * host configuration built from the caller's `host_config` when requested.
   */
  function CreateStart(ctx: Context, containerName: string, instance: Option<string>, includeHostConfig: bool,
                       hostConfig: Value, order: seq<string>): Result<Kwargs>
  {
    match CreateBase(ctx, containerName, order)
    case Failure(e) => Failure(e)
    case Success(base) =>
      if includeHostConfig then
        match HostConfigKwargs(ctx, None, instance, hostConfig)
        case Failure(e) => Failure(e)
        case Success(hc) => Success(base["host_config" := KwargsValue(hc)])
      else
        Success(base)
  }

  /**
   * `get_create_kwargs`, as a value, for the caller's keyword arguments
   * `kwargs`: their `host_config` entry is taken out and goes into the host
   * configuration (or is dropped), and the rest is layered over the start
   * after the configuration's create options.
   */
  function CreateKwargs(ctx: Context, containerName: string, instance: Option<string>, includeHostConfig: bool,
                        kwargs: Kwargs, order: seq<string>): Result<Kwargs>
  {
    match CreateStart(ctx, containerName, instance, includeHostConfig, Get(kwargs, "host_config"), order)
    case Failure(e) => Failure(e)
    case Success(start) => Success(UpdatedKwargs(start, [ctx.config.createOptions, kwargs - {"host_config"}]))
  }

  /** `get_create_kwargs`: builds the arguments and pops `host_config` from the caller's dictionary. */
  method GetCreateKwargs(ctx: Context, containerName: string, instance: Option<string>, includeHostConfig: bool,
                         kwargs: KwargsDict, order: seq<string>) returns (r: Result<Kwargs>)
    modifies kwargs
    ensures r == CreateKwargs(ctx, containerName, instance, includeHostConfig, old(kwargs.entries), order)
    ensures kwargs.entries ==
      if CreateBase(ctx, containerName, order).Failure? then old(kwargs.entries) else old(kwargs.entries) - {"host_config"}
  {
    var base := CreateBase(ctx, containerName, order);
    if base.Failure? {
      return Failure(base.error);
    }
    var hcExtra := kwargs.Pop("host_config");
    var c := new KwargsDict(base.value);
    if includeHostConfig {
      var hc := HostConfigKwargs(ctx, None, instance, hcExtra);
      if hc.Failure? {
        return Failure(hc.error);
      }
      c.entries := c.entries["host_config" := KwargsValue(hc.value)];
    }
    c.Update([ctx.config.createOptions, kwargs.entries]);
    r := Success(c.entries);
  }

  /** The base fails exactly when the volumes or the user do, volumes first. */
  lemma CreateBaseOutcome(ctx: Context, containerName: string, order: seq<string>)
    ensures CreateBase(ctx, containerName, order).Success? <==>
      Volumes(ctx.cmap, ctx.config).Success? && ExtractUser(ctx.config.user).Success?
    ensures Volumes(ctx.cmap, ctx.config).Failure? ==>
      CreateBase(ctx, containerName, order) == Failure(Volumes(ctx.cmap, ctx.config).error)
    ensures Volumes(ctx.cmap, ctx.config).Success? && ExtractUser(ctx.config.user).Failure? ==>
      CreateBase(ctx, containerName, order) == Failure(ExtractUser(ctx.config.user).error)
  {
  }

  /**
   * The base holds the container name, the image name `iname` gives, the
   * volumes, the user, the set exposed ports, the host name `get_hostname`
   * gives when the map sets host names (`None` otherwise), the domain name
   * and the environment, sets `network_disabled` exactly for the `disabled`
   * network, and has no `host_config`.
   */
  lemma CreateBaseFields(ctx: Context, containerName: string, order: seq<string>)
    requires CreateBase(ctx, containerName, order).Success?
    ensures Volumes(ctx.cmap, ctx.config).Success? && ExtractUser(ctx.config.user).Success?
    ensures var b := CreateBase(ctx, containerName, order).value;
      && Lookup(b, "name") == Some(Str(containerName))
      && Lookup(b, "image") == Some(Str(Iname(ctx.cmap, ImageName(ctx))))
      && Lookup(b, "volumes") == Some(List(Volumes(ctx.cmap, ctx.config).value))
      && Lookup(b, "user") == Some(ExtractUser(ctx.config.user).value)
      && Lookup(b, "ports") == Some(List(ExposedPorts(ctx.config.exposes)))
      && Lookup(b, "hostname") == Some(if ctx.cmap.setHostname then Str(GetHostname(ctx.clientName, containerName)) else Null)
      && Lookup(b, "domainname") == Some(GetDomainname(ctx.cmap, ctx.client))
      && Lookup(b, "environment") == Some(List(StrValues(GetEnvironment(ctx.config.environment, order))))
      && ("network_disabled" in b <==> ctx.config.network == NetworkMode("disabled"))
      && ("network_disabled" in b ==> b["network_disabled"] == Bool(true))
      && "host_config" !in b
  {
    var m := CreateEntries(ctx, containerName, order, Volumes(ctx.cmap, ctx.config).value, ExtractUser(ctx.config.user).value);
    assert "network_disabled" !in m && "host_config" !in m;
    if ctx.config.network == NetworkMode("disabled") {
      assert CreateBase(ctx, containerName, order).value == m["network_disabled" := Bool(true)];
    } else {
      assert CreateBase(ctx, containerName, order).value == m;
    }
  }

  /** A key neither the create options nor the remaining caller arguments assign. */
  predicate CreateKeepsKey(ctx: Context, kwargs: Kwargs, key: string) {
    key !in LiveKeys(ctx.config.createOptions) && key !in LiveKeys(kwargs - {"host_config"})
  }

  /** Every base entry neither the create options nor the caller override reaches the create arguments unchanged. */
  lemma CreateKwargsKeepsBase(ctx: Context, containerName: string, instance: Option<string>, includeHostConfig: bool,
                              kwargs: Kwargs, order: seq<string>, key: string)
    requires CreateKwargs(ctx, containerName, instance, includeHostConfig, kwargs, order).Success?
    requires key != "host_config" && CreateKeepsKey(ctx, kwargs, key)
    ensures CreateBase(ctx, containerName, order).Success?
    ensures Lookup(CreateKwargs(ctx, containerName, instance, includeHostConfig, kwargs, order).value, key) ==
            Lookup(CreateBase(ctx, containerName, order).value, key)
  {
    var start := CreateStart(ctx, containerName, instance, includeHostConfig, Get(kwargs, "host_config"), order).value;
    UpdateLeavesOtherKeys(start, [ctx.config.createOptions, kwargs - {"host_config"}], key);
  }

  /**
   * The `host_config` the caller passes never reaches the create arguments
   * as is: unless the create options assign one, the result holds the built
   * host configuration (which includes the caller's entries) when it is
   * requested, and no `host_config` otherwise.
   */
  lemma CreateKwargsHostConfig(ctx: Context, containerName: string, instance: Option<string>, includeHostConfig: bool,
                               kwargs: Kwargs, order: seq<string>)
    requires CreateKwargs(ctx, containerName, instance, includeHostConfig, kwargs, order).Success?
    requires "host_config" !in LiveKeys(ctx.config.createOptions)
    ensures var r := CreateKwargs(ctx, containerName, instance, includeHostConfig, kwargs, order).value;
      && (includeHostConfig ==>
            && HostConfigKwargs(ctx, None, instance, Get(kwargs, "host_config")).Success?
            && Lookup(r, "host_config") == Some(KwargsValue(HostConfigKwargs(ctx, None, instance, Get(kwargs, "host_config")).value)))
      && (!includeHostConfig ==> "host_config" !in r)
  {
    var start := CreateStart(ctx, containerName, instance, includeHostConfig, Get(kwargs, "host_config"), order).value;
    CreateBaseFields(ctx, containerName, order);
    assert "host_config" !in LiveKeys(kwargs - {"host_config"});
    UpdateLeavesOtherKeys(start, [ctx.config.createOptions, kwargs - {"host_config"}], "host_config");
  }

  /** Without a host configuration, the caller's ports extend the exposed ports (`[80, 443]` and `[22]` give `[80, 443, 22]`). */
  lemma CreateKwargsExtendsPorts(ctx: Context, containerName: string, instance: Option<string>, extra: seq<Value>,
                                 order: seq<string>)
    requires CreateBase(ctx, containerName, order).Success?
    requires "ports" !in LiveKeys(ctx.config.createOptions)
    ensures var r := CreateKwargs(ctx, containerName, instance, false, map["ports" := List(extra)], order);
      r.Success? && Lookup(r.value, "ports") == Some(List(ExposedPorts(ctx.config.exposes) + extra))
  {
    var base := CreateBase(ctx, containerName, order).value;
    assert Lookup(base, "ports") == Some(List(ExposedPorts(ctx.config.exposes)));
    var rest := map["ports" := List(extra)] - {"host_config"};
    assert rest == map["ports" := List(extra)];
    UpdatedKwargsPair(base, ctx.config.createOptions, rest);
    var once := UpdatedOnce(base, ctx.config.createOptions);
    UpdatedOnceLeavesKey(base, ctx.config.createOptions, "ports");
    ExtendedKeys();
    UpdateExtendsLists(once, rest, "ports");
  }

  // ---------------------------------------------------------------------
  // Host configuration of a container

  /** One `uses` entry as a `volumes_from` name: the container name, with `:ro` when read-only. */
  function VolumeString(mapName: string, u: SharedVolume): string {
    var vol := Cname(mapName, u.volume, None);
    if u.readonly then vol + ":ro" else vol
  }

  /** The parent name of attached volumes: the configuration name if the map asks for it. */
  function AttachedParent(ctx: Context): Option<string> {
    if ctx.cmap.useAttachedParentName then Some(ctx.configName) else None
  }

  /** `volumes_from`: the used containers, then the attached volumes. */
  function VolumesFrom(ctx: Context): (vs: seq<Value>)
    ensures |vs| == |ctx.config.uses| + |ctx.config.attaches|
    ensures forall i :: 0 <= i < |ctx.config.uses| ==> vs[i] == Str(VolumeString(ctx.cmap.name, ctx.config.uses[i]))
    ensures forall j :: 0 <= j < |ctx.config.attaches| ==>
      vs[|ctx.config.uses| + j] == Str(Aname(ctx.cmap.name, ctx.config.attaches[j], AttachedParent(ctx)))
  {
    var uses := ctx.config.uses;
    var attaches := ctx.config.attaches;
    seq(|uses|, i requires 0 <= i < |uses| => Str(VolumeString(ctx.cmap.name, uses[i]))) +
    seq(|attaches|, j requires 0 <= j < |attaches| => Str(Aname(ctx.cmap.name, attaches[j], AttachedParent(ctx))))
  }

  /** `links`: each linked container's name mapped to its alias; a later link to the same container wins. */
  function LinkTable(mapName: string, links: seq<ContainerLink>): map<Value, Value> {
    if links == [] then map[]
    else
      var l := links[|links| - 1];
      LinkTable(mapName, links[..|links| - 1])[Str(Cname(mapName, l.container, None)) := Str(l.alias)]
  }

  /** Entry `i` is the last link to container `c`. */
  predicate LastLink(links: seq<ContainerLink>, i: int, c: string) {
    0 <= i < |links| && links[i].container == c && forall j :: i < j < |links| ==> links[j].container != c
  }

  /** The link table has an entry for exactly the linked containers, holding the alias of the last link to each. */
  lemma {:induction false} LinkTableEntries(mapName: string, links: seq<ContainerLink>, c: string, i: int)
    ensures Str(Cname(mapName, c, None)) in LinkTable(mapName, links) <==> exists j :: 0 <= j < |links| && links[j].container == c
    ensures LastLink(links, i, c) ==> LinkTable(mapName, links)[Str(Cname(mapName, c, None))] == Str(links[i].alias)
  {
    if links != [] {
      var init := links[..|links| - 1];
      var l := links[|links| - 1];
      LinkTableEntries(mapName, init, c, i);
      assert forall j :: 0 <= j < |init| ==> init[j] == links[j];
      if l.container != c {
        CnameInjectiveWithoutInstance(mapName, l.container, c);
        if LastLink(links, i, c) {
          assert LastLink(init, i, c);
        }
      }
    }
  }

  lemma CnameInjectiveWithoutInstance(mapName: string, a: string, b: string)
    requires a != b
    ensures Cname(mapName, a, None) != Cname(mapName, b, None)
  {
    assert Cname(mapName, a, None)[|mapName| + 1..] == a;
    assert Cname(mapName, b, None)[|mapName| + 1..] == b;
  }

  /** `network_mode`: a container reference is named like a container, a mode string is used as is, anything else sets nothing. */
  function NetworkModeEntry(mapName: string, network: Network): Kwargs {
    match network
    case NetworkContainer(c, i) => map["network_mode" := Str(Cname(mapName, c, i))]
    case NetworkMode(mode) => map["network_mode" := Str(mode)]
    case _ => map[]
  }

  /** The dictionary `get_host_config_kwargs` assembles before the updates. */
  function HostConfigBase(ctx: Context, containerName: Option<string>, instance: Option<string>): Result<Kwargs> {
    match HostBinds(ctx.cmap, ctx.config, instance)
    case Failure(e) => Failure(e)
    case Success(binds) =>
      match PortBindings(ctx.config, ctx.client)
      case Failure(e) => Failure(e)
      case Success(ports) =>
        var base := map[
          "links" := Dict(LinkTable(ctx.cmap.name, ctx.config.links)),
          "binds" := Dict(binds),
          "volumes_from" := List(VolumesFrom(ctx)),
          "port_bindings" := Dict(ports)] + NetworkModeEntry(ctx.cmap.name, ctx.config.network);
        Success(if Present(containerName) then base["container" := Str(containerName.value)] else base)
  }

  /** `get_host_config_kwargs`: the base, updated with the configuration's host options and then `kwargs`. */
  function HostConfigKwargs(ctx: Context, containerName: Option<string>, instance: Option<string>, kwargs: Value): Result<Kwargs> {
    match HostConfigBase(ctx, containerName, instance)
    case Failure(e) => Failure(e)
    case Success(base) =>
      match AsKwargs(kwargs)
      case Failure(e) => Failure(e)
      case Success(extra) => Success(UpdatedKwargs(base, [ctx.config.hostConfig, extra]))
  }

  /** A key neither the configuration's host options nor the caller's arguments assign. */
  predicate HostConfigKeepsKey(ctx: Context, extra: Kwargs, key: string) {
    key !in LiveKeys(ctx.config.hostConfig) && key !in LiveKeys(extra)
  }

  /** The host configuration fails exactly when the binds, the port bindings or the caller's arguments fail, in that order. */
  lemma HostConfigKwargsOutcome(ctx: Context, containerName: Option<string>, instance: Option<string>, kwargs: Value)
    ensures HostConfigKwargs(ctx, containerName, instance, kwargs).Success? <==>
      HostBinds(ctx.cmap, ctx.config, instance).Success? && PortBindings(ctx.config, ctx.client).Success? && AsKwargs(kwargs).Success?
    ensures HostBinds(ctx.cmap, ctx.config, instance).Failure? ==>
      HostConfigKwargs(ctx, containerName, instance, kwargs) == Failure(HostBinds(ctx.cmap, ctx.config, instance).error)
    ensures HostBinds(ctx.cmap, ctx.config, instance).Success? && PortBindings(ctx.config, ctx.client).Failure? ==>
      HostConfigKwargs(ctx, containerName, instance, kwargs) == Failure(PortBindings(ctx.config, ctx.client).error)
  {
  }

  /**
   * The assembled host configuration: `volumes_from` lists the used
   * containers and then the attached volumes, `network_mode` follows the
   * network setting, `container` is the container name when there is one,
   * and `links` is the link table.
   */
  lemma HostConfigBaseFields(ctx: Context, containerName: Option<string>, instance: Option<string>)
    requires HostConfigBase(ctx, containerName, instance).Success?
    ensures var b := HostConfigBase(ctx, containerName, instance).value;
      && Lookup(b, "volumes_from") == Some(List(VolumesFrom(ctx)))
      && Lookup(b, "network_mode") == Lookup(NetworkModeEntry(ctx.cmap.name, ctx.config.network), "network_mode")
      && Lookup(b, "container") == (if Present(containerName) then Some(Str(containerName.value)) else None)
      && Lookup(b, "links") == Some(Dict(LinkTable(ctx.cmap.name, ctx.config.links)))
  {
  }

  /** Unless overridden by the configuration's host options or the caller, the assembled entries reach the host configuration. */
  lemma HostConfigKwargsFields(ctx: Context, containerName: Option<string>, instance: Option<string>, kwargs: Value)
    requires HostConfigKwargs(ctx, containerName, instance, kwargs).Success?
    ensures AsKwargs(kwargs).Success?
    ensures var r := HostConfigKwargs(ctx, containerName, instance, kwargs).value;
      var extra := AsKwargs(kwargs).value;
      && (HostConfigKeepsKey(ctx, extra, "volumes_from") ==> Lookup(r, "volumes_from") == Some(List(VolumesFrom(ctx))))
      && (HostConfigKeepsKey(ctx, extra, "network_mode") ==>
            Lookup(r, "network_mode") == Lookup(NetworkModeEntry(ctx.cmap.name, ctx.config.network), "network_mode"))
      && (HostConfigKeepsKey(ctx, extra, "container") ==>
            Lookup(r, "container") == if Present(containerName) then Some(Str(containerName.value)) else None)
      && (HostConfigKeepsKey(ctx, extra, "links") ==> Lookup(r, "links") == Some(Dict(LinkTable(ctx.cmap.name, ctx.config.links))))
  {
    HostConfigKwargsShape(ctx, containerName, instance, kwargs);
    HostConfigBaseFields(ctx, containerName, instance);
    var extra := AsKwargs(kwargs).value;
    if HostConfigKeepsKey(ctx, extra, "volumes_from") {
      HostConfigKeepsBaseKey(ctx, containerName, instance, kwargs, "volumes_from");
    }
    if HostConfigKeepsKey(ctx, extra, "network_mode") {
      HostConfigKeepsBaseKey(ctx, containerName, instance, kwargs, "network_mode");
    }
    if HostConfigKeepsKey(ctx, extra, "container") {
      HostConfigKeepsBaseKey(ctx, containerName, instance, kwargs, "container");
    }
    if HostConfigKeepsKey(ctx, extra, "links") {
      HostConfigKeepsBaseKey(ctx, containerName, instance, kwargs, "links");
    }
  }

  /** A key neither the host options nor the caller assign keeps its assembled value. */
  lemma HostConfigKeepsBaseKey(ctx: Context, containerName: Option<string>, instance: Option<string>, kwargs: Value, key: string)
    requires HostConfigKwargs(ctx, containerName, instance, kwargs).Success?
    requires AsKwargs(kwargs).Success? && HostConfigKeepsKey(ctx, AsKwargs(kwargs).value, key)
    ensures HostConfigBase(ctx, containerName, instance).Success?
    ensures Lookup(HostConfigKwargs(ctx, containerName, instance, kwargs).value, key) ==
            Lookup(HostConfigBase(ctx, containerName, instance).value, key)
  {
    HostConfigKwargsShape(ctx, containerName, instance, kwargs);
    UpdatePairLeavesKey(HostConfigBase(ctx, containerName, instance).value, ctx.config.hostConfig, AsKwargs(kwargs).value, key);
  }

  lemma HostConfigKwargsShape(ctx: Context, containerName: Option<string>, instance: Option<string>, kwargs: Value)
    requires HostConfigKwargs(ctx, containerName, instance, kwargs).Success?
    ensures HostBinds(ctx.cmap, ctx.config, instance).Success? && HostConfigBase(ctx, containerName, instance).Success?
    ensures AsKwargs(kwargs).Success?
    ensures HostConfigKwargs(ctx, containerName, instance, kwargs).value ==
            UpdatedKwargs(HostConfigBase(ctx, containerName, instance).value, [ctx.config.hostConfig, AsKwargs(kwargs).value])
  {
  }

  lemma HostConfigBaseBinds(ctx: Context, containerName: Option<string>, instance: Option<string>)
    requires HostConfigBase(ctx, containerName, instance).Success?
    ensures HostBinds(ctx.cmap, ctx.config, instance).Success?
    ensures Lookup(HostConfigBase(ctx, containerName, instance).value, "binds") ==
            Some(Dict(HostBinds(ctx.cmap, ctx.config, instance).value))
  {
  }

  /**
   * The caller's binds are merged into the configured ones: a host path of
   * theirs gets their bind, and every other configured host path keeps its own.
   */
  lemma HostConfigMergesBinds(ctx: Context, containerName: Option<string>, instance: Option<string>,
                              kwargs: Value, hostPath: Value)
    requires HostConfigKwargs(ctx, containerName, instance, kwargs).Success?
    requires "binds" !in LiveKeys(ctx.config.hostConfig)
    requires "binds" in AsKwargs(kwargs).value && AsKwargs(kwargs).value["binds"].Dict?
    ensures var r := HostConfigKwargs(ctx, containerName, instance, kwargs).value;
      var theirs := AsKwargs(kwargs).value["binds"].entries;
      var ours := HostBinds(ctx.cmap, ctx.config, instance).value;
      && "binds" in r && r["binds"].Dict?
      && (hostPath in theirs ==> hostPath in r["binds"].entries && r["binds"].entries[hostPath] == theirs[hostPath])
      && (hostPath !in theirs && hostPath in ours ==> hostPath in r["binds"].entries && r["binds"].entries[hostPath] == ours[hostPath])
  {
    var base := HostConfigBase(ctx, containerName, instance).value;
    var extra := AsKwargs(kwargs).value;
    HostConfigKwargsShape(ctx, containerName, instance, kwargs);
    UpdatedKwargsPair(base, ctx.config.hostConfig, extra);
    HostOptionsKeepBinds(ctx, containerName, instance);
    var once := UpdatedOnce(base, ctx.config.hostConfig);
    ExtendedKeys();
    UpdateMergesDicts(once, extra, "binds", hostPath);
  }

  /** Host options that do not assign `binds` leave the configured binds in place. */
  lemma HostOptionsKeepBinds(ctx: Context, containerName: Option<string>, instance: Option<string>)
    requires HostConfigBase(ctx, containerName, instance).Success?
    requires "binds" !in LiveKeys(ctx.config.hostConfig)
    ensures HostBinds(ctx.cmap, ctx.config, instance).Success?
    ensures Lookup(UpdatedOnce(HostConfigBase(ctx, containerName, instance).value, ctx.config.hostConfig), "binds") ==
            Some(Dict(HostBinds(ctx.cmap, ctx.config, instance).value))
  {
    var base := HostConfigBase(ctx, containerName, instance).value;
    HostConfigBaseBinds(ctx, containerName, instance);
    UpdatedOnceLeavesKey(base, ctx.config.hostConfig, "binds");
  }

  /** A network reference to `app_server` instance `instance1` in map `main` is `main.app_server.instance1`. */
  lemma NetworkModeExample()
    ensures NetworkModeEntry("main", NetworkContainer("app_server", Some("instance1"))) ==
            map["network_mode" := Str("main.app_server.instance1")]
  {
    assert Present(Some("instance1"));
    assert Cname("main", "app_server", Some("instance1")) == "main.app_server.instance1";
  }

  // ---------------------------------------------------------------------
  // Attached volume containers

  /** The dictionary `get_attached_create_kwargs` assembles; the alias must be one of the map's volumes. */
  function AttachedCreateBase(ctx: Context, containerName: string, alias: string, images: PolicyImages): Result<Kwargs> {
    if alias !in ctx.cmap.volumes then Failure(KeyError(alias))
    else
      match ExtractUser(ctx.config.user)
      case Failure(e) => Failure(e)
      case Success(user) =>
        Success(map[
          "name" := Str(containerName),
          "image" := Str(images.baseImage),
          "volumes" := List([Str(ctx.cmap.volumes[alias])]),
          "user" := user,
          "network_disabled" := Bool(true)])
  }

  /** `get_attached_host_config_kwargs`: the container name if there is one, updated with `kwargs`. */
  function AttachedHostConfigKwargs(ctx: Context, containerName: Option<string>, alias: string, kwargs: Value): Result<Kwargs> {
    var base := if Present(containerName) then map["container" := Str(containerName.value)] else map[];
    match AsKwargs(kwargs)
    case Failure(e) => Failure(e)
    case Success(extra) => Success(UpdatedKwargs(base, [extra]))
  }

  /**
   * The attached host configuration names the container, when there is one
   * and the caller does not override it, and holds nothing else but what the
   * caller adds.
   */
  lemma AttachedHostConfigFields(ctx: Context, containerName: Option<string>, alias: string, kwargs: Value, key: string)
    requires AsKwargs(kwargs).Success?
    ensures AttachedHostConfigKwargs(ctx, containerName, alias, kwargs).Success?
    ensures "container" !in LiveKeys(AsKwargs(kwargs).value) ==>
      Lookup(AttachedHostConfigKwargs(ctx, containerName, alias, kwargs).value, "container") ==
        if Present(containerName) then Some(Str(containerName.value)) else None
    ensures key in AttachedHostConfigKwargs(ctx, containerName, alias, kwargs).value <==>
      (key == "container" && Present(containerName)) || key in LiveKeys(AsKwargs(kwargs).value)
  {
    var extra := AsKwargs(kwargs).value;
    var base: Kwargs := if Present(containerName) then map["container" := Str(containerName.value)] else map[];
    if "container" !in LiveKeys(extra) {
      UpdateLeavesOtherKeys(base, [extra], "container");
    }
    UpdatedKwargsKeys(base, [extra], key);
  }

  /** What `get_attached_create_kwargs` has before its final update; a host configuration is added only when it is not empty. */
  function AttachedCreateStart(ctx: Context, containerName: string, alias: string, includeHostConfig: bool,
                               images: PolicyImages, hostConfig: Value): Result<Kwargs>
  {
    match AttachedCreateBase(ctx, containerName, alias, images)
    case Failure(e) => Failure(e)
    case Success(base) =>
      if includeHostConfig then
        match AttachedHostConfigKwargs(ctx, None, alias, hostConfig)
        case Failure(e) => Failure(e)
        case Success(hc) => Success(if hc != map[] then base["host_config" := KwargsValue(hc)] else base)
      else
        Success(base)
  }

  /** `get_attached_create_kwargs`, as a value: the start updated with the caller's arguments other than `host_config`. */
  function AttachedCreateKwargs(ctx: Context, containerName: string, alias: string, includeHostConfig: bool,
                                images: PolicyImages, kwargs: Kwargs): Result<Kwargs>
  {
    match AttachedCreateStart(ctx, containerName, alias, includeHostConfig, images, Get(kwargs, "host_config"))
    case Failure(e) => Failure(e)
    case Success(start) => Success(UpdatedKwargs(start, [kwargs - {"host_config"}]))
  }

  /** `get_attached_create_kwargs`: builds the arguments and pops `host_config` from the caller's dictionary. */
  method GetAttachedCreateKwargs(ctx: Context, containerName: string, alias: string, includeHostConfig: bool,
                                 images: PolicyImages, kwargs: KwargsDict) returns (r: Result<Kwargs>)
    modifies kwargs
    ensures r == AttachedCreateKwargs(ctx, containerName, alias, includeHostConfig, images, old(kwargs.entries))
    ensures kwargs.entries ==
      if AttachedCreateBase(ctx, containerName, alias, images).Failure? then old(kwargs.entries)
      else old(kwargs.entries) - {"host_config"}
  {
    var base := AttachedCreateBase(ctx, containerName, alias, images);
    if base.Failure? {
      return Failure(base.error);
    }
    var hcExtra := kwargs.Pop("host_config");
    var c := new KwargsDict(base.value);
    if includeHostConfig {
      var hc := AttachedHostConfigKwargs(ctx, None, alias, hcExtra);
      if hc.Failure? {
        return Failure(hc.error);
      }
      if hc.value != map[] {
        c.entries := c.entries["host_config" := KwargsValue(hc.value)];
      }
    }
    c.Update([kwargs.entries]);
    r := Success(c.entries);
  }

  /**
   * An attached volume container is created from the base image with the
   * aliased volume as its only volume and networking disabled; it fails with
   * `KeyError` for an alias the map has no volume for. Without a caller
   * `host_config` it gets no host configuration.
   */
  lemma AttachedCreateStartFields(ctx: Context, containerName: string, alias: string, includeHostConfig: bool,
                                  images: PolicyImages, hostConfig: Value)
    ensures alias !in ctx.cmap.volumes ==>
      AttachedCreateStart(ctx, containerName, alias, includeHostConfig, images, hostConfig) == Failure(KeyError(alias))
    ensures alias in ctx.cmap.volumes && ExtractUser(ctx.config.user).Success? && !Truthy(hostConfig) ==>
      AttachedCreateStart(ctx, containerName, alias, includeHostConfig, images, hostConfig) == Success(map[
        "name" := Str(containerName),
        "image" := Str(images.baseImage),
        "volumes" := List([Str(ctx.cmap.volumes[alias])]),
        "user" := ExtractUser(ctx.config.user).value,
        "network_disabled" := Bool(true)])
  {
    if alias in ctx.cmap.volumes && ExtractUser(ctx.config.user).Success? && !Truthy(hostConfig) && includeHostConfig {
      UpdateWithEmpty(map[]);
      UpdatedKwargsSingle(map[], map[]);
      assert AttachedHostConfigKwargs(ctx, None, alias, hostConfig) == Success(map[]);
    }
  }

  /** Every start entry the caller does not override reaches the attached create arguments unchanged. */
  lemma AttachedCreateKwargsKeepsStart(ctx: Context, containerName: string, alias: string, includeHostConfig: bool,
                                       images: PolicyImages, kwargs: Kwargs, key: string)
    requires AttachedCreateKwargs(ctx, containerName, alias, includeHostConfig, images, kwargs).Success?
    requires key !in LiveKeys(kwargs - {"host_config"})
    ensures AttachedCreateStart(ctx, containerName, alias, includeHostConfig, images, Get(kwargs, "host_config")).Success?
    ensures Lookup(AttachedCreateKwargs(ctx, containerName, alias, includeHostConfig, images, kwargs).value, key) ==
            Lookup(AttachedCreateStart(ctx, containerName, alias, includeHostConfig, images, Get(kwargs, "host_config")).value, key)
  {
    var start := AttachedCreateStart(ctx, containerName, alias, includeHostConfig, images, Get(kwargs, "host_config")).value;
    UpdateLeavesOtherKeys(start, [kwargs - {"host_config"}], key);
  }

  // ---------------------------------------------------------------------
  // Preparation of attached volumes

  /** The step that hands the path to the user's user and group. */
  function ChownStep(user: Value, path: string, shortcuts: Shortcuts): string {
    "chown -R " + shortcuts.userGroup(user) + " " + shortcuts.strArg(path)
  }

  /** The step that sets the path's mode. */
  function ChmodStep(permissions: string, path: string, shortcuts: Shortcuts): string {
    "chmod -R " + permissions + " " + shortcuts.strArg(path)
  }

  /** The shell command that adjusts the owner (for a set user) and the permissions (when set) of the volume path. */
  function PreparationCommand(config: ConfigRecord, path: string, shortcuts: Shortcuts): string {
    var chown := if Truthy(config.user) then [ChownStep(config.user, path, shortcuts)] else [];
    var chmod := if Present(config.permissions) then [ChmodStep(config.permissions.value, path, shortcuts)] else [];
    Join(chown + chmod, " && ")
  }

  /** The dictionary `get_attached_preparation_create_kwargs` assembles; the alias must be one of the map's volumes. */
  function PreparationCreateBase(ctx: Context, alias: string, images: PolicyImages, shortcuts: Shortcuts): Result<Kwargs> {
    if alias !in ctx.cmap.volumes then Failure(KeyError(alias))
    else
      Success(map[
        "image" := Str(images.coreImage),
        "command" := Str(PreparationCommand(ctx.config, ctx.cmap.volumes[alias], shortcuts)),
        "user" := Str("root"),
        "network_disabled" := Bool(true)])
  }

  /** `get_attached_preparation_host_config_kwargs`: the volume container to mount from, the container name if any, then `kwargs`. */
  function PreparationHostConfigKwargs(ctx: Context, containerName: Option<string>, alias: string, volumeContainer: string,
                                       kwargs: Value): Result<Kwargs>
  {
    var base := map["volumes_from" := List([Str(volumeContainer)])];
    var base' := if Present(containerName) then base["container" := Str(containerName.value)] else base;
    match AsKwargs(kwargs)
    case Failure(e) => Failure(e)
    case Success(extra) => Success(UpdatedKwargs(base', [extra]))
  }

  /** What `get_attached_preparation_create_kwargs` has before its final update. */
  function PreparationCreateStart(ctx: Context, alias: string, volumeContainer: string, includeHostConfig: bool,
                                  images: PolicyImages, shortcuts: Shortcuts, hostConfig: Value): Result<Kwargs>
  {
    match PreparationCreateBase(ctx, alias, images, shortcuts)
    case Failure(e) => Failure(e)
    case Success(base) =>
      if includeHostConfig then
        match PreparationHostConfigKwargs(ctx, None, alias, volumeContainer, hostConfig)
        case Failure(e) => Failure(e)
        case Success(hc) => Success(if hc != map[] then base["host_config" := KwargsValue(hc)] else base)
      else
        Success(base)
  }

  /** `get_attached_preparation_create_kwargs`, as a value: the start updated with the caller's arguments other than `host_config`. */
  function PreparationCreateKwargs(ctx: Context, alias: string, volumeContainer: string, includeHostConfig: bool,
                                   images: PolicyImages, shortcuts: Shortcuts, kwargs: Kwargs): Result<Kwargs>
  {
    match PreparationCreateStart(ctx, alias, volumeContainer, includeHostConfig, images, shortcuts, Get(kwargs, "host_config"))
    case Failure(e) => Failure(e)
    case Success(start) => Success(UpdatedKwargs(start, [kwargs - {"host_config"}]))
  }

  /** `get_attached_preparation_create_kwargs`: builds the arguments and pops `host_config` from the caller's dictionary. */
  method GetPreparationCreateKwargs(ctx: Context, alias: string, volumeContainer: string, includeHostConfig: bool,
                                    images: PolicyImages, shortcuts: Shortcuts, kwargs: KwargsDict) returns (r: Result<Kwargs>)
    modifies kwargs
    ensures r == PreparationCreateKwargs(ctx, alias, volumeContainer, includeHostConfig, images, shortcuts, old(kwargs.entries))
    ensures kwargs.entries ==
      if alias !in ctx.cmap.volumes then old(kwargs.entries) else old(kwargs.entries) - {"host_config"}
  {
    var base := PreparationCreateBase(ctx, alias, images, shortcuts);
    if base.Failure? {
      return Failure(base.error);
    }
    var hcExtra := kwargs.Pop("host_config");
    var c := new KwargsDict(base.value);
    if includeHostConfig {
      var hc := PreparationHostConfigKwargs(ctx, None, alias, volumeContainer, hcExtra);
      if hc.Failure? {
        return Failure(hc.error);
      }
      if hc.value != map[] {
        c.entries := c.entries["host_config" := KwargsValue(hc.value)];
      }
    }
    c.Update([kwargs.entries]);
    r := Success(c.entries);
  }

  /**
   * Owner first, then mode: with a user and permissions set, both steps are
   * joined by `&&`; with one of them set, the command is that step alone;
   * with neither it is empty.
   */
  lemma PreparationCommandSteps(config: ConfigRecord, path: string, shortcuts: Shortcuts)
    ensures Truthy(config.user) && Present(config.permissions) ==>
      PreparationCommand(config, path, shortcuts) ==
        ChownStep(config.user, path, shortcuts) + " && " + ChmodStep(config.permissions.value, path, shortcuts)
    ensures Truthy(config.user) && !Present(config.permissions) ==>
      PreparationCommand(config, path, shortcuts) == ChownStep(config.user, path, shortcuts)
    ensures !Truthy(config.user) && Present(config.permissions) ==>
      PreparationCommand(config, path, shortcuts) == ChmodStep(config.permissions.value, path, shortcuts)
    ensures !Truthy(config.user) && !Present(config.permissions) ==> PreparationCommand(config, path, shortcuts) == ""
  {
    var none: seq<string> := [];
    if Truthy(config.user) && Present(config.permissions) {
      var chown := ChownStep(config.user, path, shortcuts);
      var chmod := ChmodStep(config.permissions.value, path, shortcuts);
      assert [chown] + [chmod] == [chown, chmod];
      assert [chown, chmod][1..] == [chmod];
      assert Join([chmod], " && ") == chmod;
      assert Join([chown, chmod], " && ") == chown + " && " + chmod;
    } else if Truthy(config.user) {
      assert [ChownStep(config.user, path, shortcuts)] + none == [ChownStep(config.user, path, shortcuts)];
    } else if Present(config.permissions) {
      assert none + [ChmodStep(config.permissions.value, path, shortcuts)] == [ChmodStep(config.permissions.value, path, shortcuts)];
    }
  }

  /** The owner step for user `2000`, whose user and group are `2000:2000`. */
  lemma ChownStepExample(shortcuts: Shortcuts)
    requires shortcuts.userGroup(Int(2000)) == "2000:2000" && shortcuts.strArg("/var/lib/app/socket") == "/var/lib/app/socket"
    ensures ChownStep(Int(2000), "/var/lib/app/socket", shortcuts) == "chown -R 2000:2000 /var/lib/app/socket"
  {
  }

  /** The mode step for `u=rwX,g=rX,o=`. */
  lemma ChmodStepExample(shortcuts: Shortcuts)
    requires shortcuts.strArg("/var/lib/app/socket") == "/var/lib/app/socket"
    ensures ChmodStep("u=rwX,g=rX,o=", "/var/lib/app/socket", shortcuts) == "chmod -R u=rwX,g=rX,o= /var/lib/app/socket"
  {
  }

  /** The preparation command for user `2000` and mode `u=rwX,g=rX,o=` on `/var/lib/app/socket`: owner, then mode. */
  lemma PreparationCommandExample(config: ConfigRecord, shortcuts: Shortcuts)
    requires config.user == Int(2000) && config.permissions == Some("u=rwX,g=rX,o=")
    requires shortcuts.userGroup(Int(2000)) == "2000:2000" && shortcuts.strArg("/var/lib/app/socket") == "/var/lib/app/socket"
    ensures PreparationCommand(config, "/var/lib/app/socket", shortcuts) ==
      "chown -R 2000:2000 /var/lib/app/socket" + " && " + "chmod -R u=rwX,g=rX,o= /var/lib/app/socket"
  {
    PreparationCommandSteps(config, "/var/lib/app/socket", shortcuts);
    ChownStepExample(shortcuts);
    ChmodStepExample(shortcuts);
  }

  /** Without caller arguments, the preparation host configuration only mounts the volume container. */
  lemma PreparationHostConfigOfNothing(ctx: Context, alias: string, volumeContainer: string)
    ensures PreparationHostConfigKwargs(ctx, None, alias, volumeContainer, Null) ==
            Success(map["volumes_from" := List([Str(volumeContainer)])])
  {
    var hc := map["volumes_from" := List([Str(volumeContainer)])];
    assert AsKwargs(Null) == Success(map[]);
    UpdateWithEmpty(hc);
    UpdatedKwargsSingle(hc, map[]);
  }

  /**
   * The preparation host configuration mounts the volume container and names
   * the container when there is one, unless the caller overrides them, and
   * holds nothing else but what the caller adds.
   */
  lemma PreparationHostConfigFields(ctx: Context, containerName: Option<string>, alias: string, volumeContainer: string,
                                    kwargs: Value, key: string)
    requires AsKwargs(kwargs).Success?
    ensures PreparationHostConfigKwargs(ctx, containerName, alias, volumeContainer, kwargs).Success?
    ensures "volumes_from" !in LiveKeys(AsKwargs(kwargs).value) ==>
      Lookup(PreparationHostConfigKwargs(ctx, containerName, alias, volumeContainer, kwargs).value, "volumes_from") ==
        Some(List([Str(volumeContainer)]))
    ensures "container" !in LiveKeys(AsKwargs(kwargs).value) ==>
      Lookup(PreparationHostConfigKwargs(ctx, containerName, alias, volumeContainer, kwargs).value, "container") ==
        if Present(containerName) then Some(Str(containerName.value)) else None
    ensures key in PreparationHostConfigKwargs(ctx, containerName, alias, volumeContainer, kwargs).value <==>
      key == "volumes_from" || (key == "container" && Present(containerName)) || key in LiveKeys(AsKwargs(kwargs).value)
  {
    var extra := AsKwargs(kwargs).value;
    var base := map["volumes_from" := List([Str(volumeContainer)])];
    var base' := if Present(containerName) then base["container" := Str(containerName.value)] else base;
    if "volumes_from" !in LiveKeys(extra) {
      UpdateLeavesOtherKeys(base', [extra], "volumes_from");
    }
    if "container" !in LiveKeys(extra) {
      UpdateLeavesOtherKeys(base', [extra], "container");
    }
    UpdatedKwargsKeys(base', [extra], key);
  }

  /** The temporary container `temp` mounts from `main.app_server_socket` and is named in its host configuration. */
  lemma PreparationHostConfigExample(ctx: Context)
    ensures PreparationHostConfigKwargs(ctx, Some("temp"), "app_server_socket", "main.app_server_socket", Null) ==
            Success(map["volumes_from" := List([Str("main.app_server_socket")]), "container" := Str("temp")])
  {
    var hc := map["volumes_from" := List([Str("main.app_server_socket")]), "container" := Str("temp")];
    assert Present(Some("temp"));
    assert AsKwargs(Null) == Success(map[]);
    UpdateWithEmpty(hc);
    UpdatedKwargsSingle(hc, map[]);
  }

  /** The preparation host configuration always mounts the volume container, so it is never empty. */
  lemma PreparationHostConfigMounts(ctx: Context, alias: string, volumeContainer: string, kwargs: Value)
    requires AsKwargs(kwargs).Success?
    ensures PreparationHostConfigKwargs(ctx, None, alias, volumeContainer, kwargs).Success?
    ensures "volumes_from" in PreparationHostConfigKwargs(ctx, None, alias, volumeContainer, kwargs).value
  {
    UpdatedKwargsKeys(map["volumes_from" := List([Str(volumeContainer)])], [AsKwargs(kwargs).value], "volumes_from");
  }

  /** The entries of the preparation dictionary before the host configuration. */
  lemma PreparationCreateBaseFields(ctx: Context, alias: string, images: PolicyImages, shortcuts: Shortcuts)
    requires alias in ctx.cmap.volumes
    ensures var b := PreparationCreateBase(ctx, alias, images, shortcuts).value;
      && b.Keys == {"image", "command", "user", "network_disabled"}
      && b["image"] == Str(images.coreImage)
      && b["command"] == Str(PreparationCommand(ctx.config, ctx.cmap.volumes[alias], shortcuts))
      && b["user"] == Str("root")
      && b["network_disabled"] == Bool(true)
  {
  }

  /**
   * Before the caller's arguments, a preparation container runs the command as
   * `root` from the core image with networking disabled; with the host
   * configuration included it always has one, since the volume container is
   * always mounted. A missing alias is a `KeyError`.
   */
  lemma PreparationCreateStartFields(ctx: Context, alias: string, volumeContainer: string, includeHostConfig: bool,
                                     images: PolicyImages, shortcuts: Shortcuts, hostConfig: Value)
    requires includeHostConfig ==> AsKwargs(hostConfig).Success?
    ensures alias !in ctx.cmap.volumes ==>
      PreparationCreateStart(ctx, alias, volumeContainer, includeHostConfig, images, shortcuts, hostConfig) == Failure(KeyError(alias))
    ensures alias in ctx.cmap.volumes ==>
      var r := PreparationCreateStart(ctx, alias, volumeContainer, includeHostConfig, images, shortcuts, hostConfig);
      && r.Success?
      && r.value.Keys == {"image", "command", "user", "network_disabled"} + (if includeHostConfig then {"host_config"} else {})
      && r.value["image"] == Str(images.coreImage)
      && r.value["command"] == Str(PreparationCommand(ctx.config, ctx.cmap.volumes[alias], shortcuts))
      && r.value["user"] == Str("root")
      && r.value["network_disabled"] == Bool(true)
      && (includeHostConfig ==>
            r.value["host_config"] == KwargsValue(PreparationHostConfigKwargs(ctx, None, alias, volumeContainer, hostConfig).value))
  {
    if alias in ctx.cmap.volumes {
      var base := PreparationCreateBase(ctx, alias, images, shortcuts).value;
      PreparationCreateBaseFields(ctx, alias, images, shortcuts);
      var start := PreparationCreateStart(ctx, alias, volumeContainer, includeHostConfig, images, shortcuts, hostConfig);
      if includeHostConfig {
        PreparationHostConfigMounts(ctx, alias, volumeContainer, hostConfig);
        var hc := PreparationHostConfigKwargs(ctx, None, alias, volumeContainer, hostConfig).value;
        assert hc != map[];
        assert start == Success(base["host_config" := KwargsValue(hc)]);
      } else {
        assert start == Success(base);
      }
    }
  }

  /** Every start entry the caller does not override reaches the preparation create arguments unchanged. */
  lemma PreparationCreateKwargsKeepsStart(ctx: Context, alias: string, volumeContainer: string, includeHostConfig: bool,
                                          images: PolicyImages, shortcuts: Shortcuts, kwargs: Kwargs, key: string)
    requires PreparationCreateKwargs(ctx, alias, volumeContainer, includeHostConfig, images, shortcuts, kwargs).Success?
    requires key !in LiveKeys(kwargs - {"host_config"})
    ensures PreparationCreateStart(ctx, alias, volumeContainer, includeHostConfig, images, shortcuts, Get(kwargs, "host_config")).Success?
    ensures Lookup(PreparationCreateKwargs(ctx, alias, volumeContainer, includeHostConfig, images, shortcuts, kwargs).value, key) ==
            Lookup(PreparationCreateStart(ctx, alias, volumeContainer, includeHostConfig, images, shortcuts, Get(kwargs, "host_config")).value, key)
  {
    var start := PreparationCreateStart(ctx, alias, volumeContainer, includeHostConfig, images, shortcuts, Get(kwargs, "host_config")).value;
    UpdateLeavesOtherKeys(start, [kwargs - {"host_config"}], key);
  }

  /**
   * Whatever the caller adds, and with or without the host configuration, a
   * preparation container runs as `root` with networking disabled unless the
   * caller sets `user` or `network_disabled` itself.
   */
  lemma PreparationRunsAsRoot(ctx: Context, alias: string, volumeContainer: string, includeHostConfig: bool,
                              images: PolicyImages, shortcuts: Shortcuts, kwargs: Kwargs)
    requires PreparationCreateKwargs(ctx, alias, volumeContainer, includeHostConfig, images, shortcuts, kwargs).Success?
    ensures alias in ctx.cmap.volumes
    ensures "user" !in LiveKeys(kwargs - {"host_config"}) ==>
      Lookup(PreparationCreateKwargs(ctx, alias, volumeContainer, includeHostConfig, images, shortcuts, kwargs).value, "user") ==
        Some(Str("root"))
    ensures "network_disabled" !in LiveKeys(kwargs - {"host_config"}) ==>
      Lookup(PreparationCreateKwargs(ctx, alias, volumeContainer, includeHostConfig, images, shortcuts, kwargs).value, "network_disabled") ==
        Some(Bool(true))
  {
    var hc := Get(kwargs, "host_config");
    if includeHostConfig {
      assert PreparationHostConfigKwargs(ctx, None, alias, volumeContainer, hc).Success?;
      assert AsKwargs(hc).Success?;
    }
    PreparationCreateStartFields(ctx, alias, volumeContainer, includeHostConfig, images, shortcuts, hc);
    if "user" !in LiveKeys(kwargs - {"host_config"}) {
      PreparationCreateKwargsKeepsStart(ctx, alias, volumeContainer, includeHostConfig, images, shortcuts, kwargs, "user");
    }
    if "network_disabled" !in LiveKeys(kwargs - {"host_config"}) {
      PreparationCreateKwargsKeepsStart(ctx, alias, volumeContainer, includeHostConfig, images, shortcuts, kwargs, "network_disabled");
    }
  }

  /**
   * Without caller arguments, a preparation container is exactly its start:
   * the command as `root` from the core image with networking disabled, and,
   * when included, a host configuration that mounts the volume container; a
   * missing alias is a `KeyError`.
   */
  lemma PreparationCreateKwargsFields(ctx: Context, alias: string, volumeContainer: string, includeHostConfig: bool,
                                      images: PolicyImages, shortcuts: Shortcuts)
    ensures alias !in ctx.cmap.volumes ==>
      PreparationCreateKwargs(ctx, alias, volumeContainer, includeHostConfig, images, shortcuts, map[]) == Failure(KeyError(alias))
    ensures alias in ctx.cmap.volumes ==>
      var r := PreparationCreateKwargs(ctx, alias, volumeContainer, includeHostConfig, images, shortcuts, map[]);
      && r.Success?
      && r.value.Keys == {"image", "command", "user", "network_disabled"} + (if includeHostConfig then {"host_config"} else {})
      && r.value["image"] == Str(images.coreImage)
      && r.value["command"] == Str(PreparationCommand(ctx.config, ctx.cmap.volumes[alias], shortcuts))
      && r.value["user"] == Str("root")
      && r.value["network_disabled"] == Bool(true)
      && (includeHostConfig ==> r.value["host_config"] == KwargsValue(map["volumes_from" := List([Str(volumeContainer)])]))
  {
    if alias in ctx.cmap.volumes {
      var none: Kwargs := map[];
      assert Get(none, "host_config") == Null;
      assert AsKwargs(Null) == Success(map[]);
      PreparationHostConfigOfNothing(ctx, alias, volumeContainer);
      PreparationCreateStartFields(ctx, alias, volumeContainer, includeHostConfig, images, shortcuts, Null);
      var start := PreparationCreateStart(ctx, alias, volumeContainer, includeHostConfig, images, shortcuts, Null).value;
      UpdateWithEmpty(start);
      UpdatedKwargsSingle(start, map[]);
      assert none - {"host_config"} == none;
      assert PreparationCreateKwargs(ctx, alias, volumeContainer, includeHostConfig, images, shortcuts, map[]) == Success(start);
    }
  }

  // ---------------------------------------------------------------------
  // Restarting, stopping and removing

  /** The timeout entry: the configuration's stop timeout if set (even to `None`), else the client's if not `None`. */
  function TimeoutEntry(ctx: Context): Kwargs {
    if ctx.config.stopTimeout == NotSet then
      var t := Get(ctx.client.settings, "stop_timeout");
      if t != Null then map["timeout" := t] else map[]
    else
      map["timeout" := ctx.config.stopTimeout]
  }

  /**
   * `get_restart_kwargs` and `get_stop_kwargs`, which build the same
   * arguments: the container and the timeout, updated with `kwargs`.
   */
  function StopKwargs(ctx: Context, containerName: string, kwargs: Value): Result<Kwargs> {
    match AsKwargs(kwargs)
    case Failure(e) => Failure(e)
    case Success(extra) => Success(UpdatedKwargs(map["container" := Str(containerName)] + TimeoutEntry(ctx), [extra]))
  }

  /**
   * Unless the caller assigns it, the timeout is the configuration's stop
   * timeout when that is set, else the client's `stop_timeout` when that is
   * not `None`, and absent otherwise.
   */
  lemma StopKwargsTimeout(ctx: Context, containerName: string, kwargs: Value)
    requires AsKwargs(kwargs).Success? && "timeout" !in LiveKeys(AsKwargs(kwargs).value)
    ensures StopKwargs(ctx, containerName, kwargs).Success?
    ensures var r := StopKwargs(ctx, containerName, kwargs).value;
      && (ctx.config.stopTimeout != NotSet ==> Lookup(r, "timeout") == Some(ctx.config.stopTimeout))
      && (ctx.config.stopTimeout == NotSet && Get(ctx.client.settings, "stop_timeout") != Null ==>
            Lookup(r, "timeout") == Some(ctx.client.settings["stop_timeout"]))
      && (ctx.config.stopTimeout == NotSet && Get(ctx.client.settings, "stop_timeout") == Null ==> "timeout" !in r)
  {
    var base := map["container" := Str(containerName)] + TimeoutEntry(ctx);
    UpdateLeavesOtherKeys(base, [AsKwargs(kwargs).value], "timeout");
  }

  /** With neither a configured stop timeout nor caller arguments, a client `stop_timeout` of 5 gives exactly `{container, timeout: 5}`. */
  lemma StopKwargsExample(ctx: Context, containerName: string)
    requires ctx.config.stopTimeout == NotSet && Get(ctx.client.settings, "stop_timeout") == Int(5)
    ensures StopKwargs(ctx, containerName, Null) == Success(map["container" := Str(containerName), "timeout" := Int(5)])
  {
    var base := map["container" := Str(containerName)] + TimeoutEntry(ctx);
    assert AsKwargs(Null) == Success(map[]);
    assert TimeoutEntry(ctx) == map["timeout" := Int(5)];
    assert base == map["container" := Str(containerName), "timeout" := Int(5)];
    UpdateWithEmpty(base);
    UpdatedKwargsSingle(base, map[]);
  }

  /** `get_remove_kwargs`: the container, updated with `kwargs`. */
  function RemoveKwargs(ctx: Context, containerName: string, kwargs: Value): Result<Kwargs> {
    match AsKwargs(kwargs)
    case Failure(e) => Failure(e)
    case Success(extra) => Success(UpdatedKwargs(map["container" := Str(containerName)], [extra]))
  }

  /** The remove arguments name the container unless the caller overrides it, and hold only what the caller adds. */
  lemma RemoveKwargsFields(ctx: Context, containerName: string, kwargs: Value, key: string)
    requires AsKwargs(kwargs).Success?
    ensures RemoveKwargs(ctx, containerName, kwargs).Success?
    ensures "container" !in LiveKeys(AsKwargs(kwargs).value) ==>
      Lookup(RemoveKwargs(ctx, containerName, kwargs).value, "container") == Some(Str(containerName))
    ensures key in RemoveKwargs(ctx, containerName, kwargs).value <==> key == "container" || key in LiveKeys(AsKwargs(kwargs).value)
  {
    var extra := AsKwargs(kwargs).value;
    if "container" !in LiveKeys(extra) {
      UpdateLeavesOtherKeys(map["container" := Str(containerName)], [extra], "container");
    }
    UpdatedKwargsKeys(map["container" := Str(containerName)], [extra], key);
  }

  /**
   * A `None` entry under a key that is not a string is skipped like any other
   * `None` entry; a set value under such a key raises `TypeError`.
   */
  lemma RemoveKwargsNonStringKey(ctx: Context, containerName: string)
    ensures RemoveKwargs(ctx, containerName, Dict(map[Int(1) := Null])) == Success(map["container" := Str(containerName)])
    ensures RemoveKwargs(ctx, containerName, Dict(map[Int(1) := Int(2)])).Failure?
    ensures RemoveKwargs(ctx, containerName, Dict(map[Int(1) := Int(2)])).error.TypeError?
  {
    var base := map["container" := Str(containerName)];
    assert Int(1) in map[Int(1) := Null];
    assert AsKwargs(Dict(map[Int(1) := Null])) == Success(map[]);
    UpdateWithEmpty(base);
    UpdatedKwargsSingle(base, map[]);
    assert Int(1) in map[Int(1) := Int(2)];
  }
}
