/**
 * The action-generation template of the policy: the dependency path is
 * walked first, then the selected configuration; and the preparation of an
 * attached volume by a temporary container, as the sequence of engine calls
 * it makes.
 */
module Actions {
  import opened Wrappers
  import opened Values
  import opened Config
  import opened PolicyUtils
  import opened Policy
  import opened Builders

  // ---------------------------------------------------------------------
  // The action generator

  /** The flags an item is generated with: none for the selected configuration, `ACTION_DEPENDENCY_FLAG` on the path. */
  datatype ItemFlags = NoFlags | DependencyFlag

  /** One item `_gen_actions` is asked to handle: the item's map and configuration, its instance argument, flags and keyword arguments. */
  datatype Request = Request(mapName: string, container: string, instance: Value, flags: ItemFlags, kwargs: Kwargs)

  /** The arguments of one `generate_item_actions` call. */
  datatype ItemCall = ItemCall(
    mapName: string,
    containerMap: ContainerMap,
    container: string,
    config: ConfigRecord,
    instances: seq<Value>,
    flags: ItemFlags,
    kwargs: Kwargs)

  /** A resolver instance as an argument: the instance name, or `None`. */
  function InstanceValue(instance: Option<string>): (v: Value)
    ensures instance.Some? ==> v == Str(instance.value)
    ensures instance.None? ==> v == Null
  {
    if instance.Some? then Str(instance.value) else Null
  }

  /**
   * The instances an item is generated for: a set instance argument as a
   * one-element list (whatever it is, a list included), else the
   * configuration's instances, else `[None]`.
   */
  function ItemInstances(instance: Value, config: ConfigRecord): (r: seq<Value>)
    ensures Truthy(instance) ==> r == [instance]
    ensures !Truthy(instance) && config.instances != [] ==>
      |r| == |config.instances| && forall i :: 0 <= i < |r| ==> r[i] == Str(config.instances[i])
    ensures !Truthy(instance) && config.instances == [] ==> r == [Null]
    ensures r != []
  {
    if Truthy(instance) then [instance]
    else if config.instances != [] then seq(|config.instances|, i requires 0 <= i < |config.instances| => Str(config.instances[i]))
    else [Null]
  }

  /**
   * `_gen_actions` before it calls `generate_item_actions`: an unknown map or
   * configuration raises `KeyError`; the call receives the outer map name,
   * not the item's own.
   */
  function ItemCallFor(maps: map<string, ContainerMap>, outerMapName: string, req: Request): (r: Result<ItemCall>)
    ensures req.mapName !in maps ==> r == Failure(KeyError(req.mapName))
    ensures req.mapName in maps && req.container !in maps[req.mapName].containers ==> r == Failure(KeyError(req.container))
    ensures r.Success? ==>
      && req.mapName in maps && req.container in maps[req.mapName].containers
      && r.value.mapName == outerMapName
      && r.value.containerMap == maps[req.mapName]
      && r.value.container == req.container
      && r.value.config == maps[req.mapName].containers[req.container]
      && r.value.instances == ItemInstances(req.instance, r.value.config)
      && r.value.flags == req.flags
      && r.value.kwargs == req.kwargs
  {
    if req.mapName !in maps then Failure(KeyError(req.mapName))
    else
      var cmap := maps[req.mapName];
      if req.container !in cmap.containers then Failure(KeyError(req.container))
      else
        var config := cmap.containers[req.container];
        Success(ItemCall(outerMapName, cmap, req.container, config, ItemInstances(req.instance, config), req.flags, req.kwargs))
  }

  /** What `get_actions` asks for: every path item with the dependency flag and no arguments, then the selected configuration. */
  function Requests(path: seq<PathItem>, mapName: string, container: string, instances: Value, kwargs: Kwargs): (rs: seq<Request>)
    ensures |rs| == |path| + 1
    ensures forall i :: 0 <= i < |path| ==>
      rs[i] == Request(path[i].mapName, path[i].container, InstanceValue(path[i].instance), DependencyFlag, map[])
    ensures rs[|path|] == Request(mapName, container, instances, NoFlags, kwargs)
  {
    seq(|path|, i requires 0 <= i < |path| =>
      Request(path[i].mapName, path[i].container, InstanceValue(path[i].instance), DependencyFlag, map[])) +
    [Request(mapName, container, instances, NoFlags, kwargs)]
  }

  /**
   * The `generate_item_actions` calls made for a list of requests, in order,
   * up to the first request that raises, with that request's error.
   */
  function Run(maps: map<string, ContainerMap>, outerMapName: string, reqs: seq<Request>): (r: (seq<ItemCall>, Option<Error>))
    ensures r.1.None? ==> |r.0| == |reqs|
    ensures r.1.Some? ==> |r.0| < |reqs|
  {
    if reqs == [] then ([], None)
    else
      var prefix := Run(maps, outerMapName, reqs[..|reqs| - 1]);
      if prefix.1.Some? then prefix
      else
        match ItemCallFor(maps, outerMapName, reqs[|reqs| - 1])
        case Failure(e) => (prefix.0, Some(e))
        case Success(call) => (prefix.0 + [call], None)
  }

  /**
   * The run handles the requests in order: each call is the one its request
   * asks for, and a run that raises stops at the first request that does,
   * with that request's error.
   */
  lemma {:induction false} RunCallsInOrder(maps: map<string, ContainerMap>, outerMapName: string, reqs: seq<Request>)
    ensures var r := Run(maps, outerMapName, reqs);
      && (r.1.Some? ==> ItemCallFor(maps, outerMapName, reqs[|r.0|]) == Failure(r.1.value))
      && forall i :: 0 <= i < |r.0| ==> ItemCallFor(maps, outerMapName, reqs[i]) == Success(r.0[i])
  {
    if reqs != [] {
      var init := reqs[..|reqs| - 1];
      RunCallsInOrder(maps, outerMapName, init);
      assert forall i :: 0 <= i < |init| ==> init[i] == reqs[i];
    }
  }

  /** Once a prefix of the requests raises, the rest are never handled. */
  lemma {:induction false} RunStopsAtFailure(maps: map<string, ContainerMap>, outerMapName: string, reqs: seq<Request>, n: nat)
    requires n <= |reqs| && Run(maps, outerMapName, reqs[..n]).1.Some?
    ensures Run(maps, outerMapName, reqs) == Run(maps, outerMapName, reqs[..n])
  {
    if n < |reqs| {
      var init := reqs[..|reqs| - 1];
      assert init[..n] == reqs[..n];
      RunStopsAtFailure(maps, outerMapName, init, n);
      assert Run(maps, outerMapName, init).1.Some?;
    } else {
      TakeAll(reqs);
    }
  }

  /** The run of one more request extends the run of the ones before it. */
  lemma RunStep(maps: map<string, ContainerMap>, outerMapName: string, reqs: seq<Request>, n: nat)
    requires n < |reqs| && Run(maps, outerMapName, reqs[..n]).1.None?
    ensures Run(maps, outerMapName, reqs[..n + 1]) ==
      match ItemCallFor(maps, outerMapName, reqs[n])
      case Failure(e) => (Run(maps, outerMapName, reqs[..n]).0, Some(e))
      case Success(call) => (Run(maps, outerMapName, reqs[..n]).0 + [call], None)
  {
    assert reqs[..n + 1][..n] == reqs[..n];
  }

  /**
   * An action generator: the maps of its policy, the list the policy's
   * resolver gives for a configuration (its dependencies for a forward
   * generator, its dependents for a reverse one), and the actions its
   * `generate_item_actions` returns for a call. The calls made so far are
   * recorded in `calls`.
   */
  class ActionGenerator {
    const maps: map<string, ContainerMap>
    const resolved: (string, string) -> seq<PathItem>
    const itemActions: ItemCall -> seq<Value>
    var calls: seq<ItemCall>

    constructor (maps: map<string, ContainerMap>, resolved: (string, string) -> seq<PathItem>,
                 itemActions: ItemCall -> seq<Value>)
      ensures this.maps == maps && this.resolved == resolved && this.itemActions == itemActions
      ensures calls == []
    {
      this.maps := maps;
      this.resolved := resolved;
      this.itemActions := itemActions;
      calls := [];
    }

    /** `get_dependency_path`: `get_dependencies` or `get_dependents`, the resolver's list backwards. */
    function DependencyPath(mapName: string, container: string): (path: seq<PathItem>) {
      Reversed(resolved(mapName, container))
    }

    /** `generate_item_actions`: records the call and returns its actions. */
    method GenerateItemActions(call: ItemCall) returns (actions: seq<Value>)
      modifies this
      ensures calls == old(calls) + [call]
      ensures actions == itemActions(call)
    {
      calls := calls + [call];
      actions := itemActions(call);
    }

    /** `_gen_actions`: looks up the item and, if it exists, generates its actions. */
    method GenActions(outerMapName: string, req: Request) returns (r: Result<seq<Value>>)
      modifies this
      ensures ItemCallFor(maps, outerMapName, req).Failure? ==>
        calls == old(calls) && r == Failure(ItemCallFor(maps, outerMapName, req).error)
      ensures ItemCallFor(maps, outerMapName, req).Success? ==>
        calls == old(calls) + [ItemCallFor(maps, outerMapName, req).value] &&
        r == Success(itemActions(ItemCallFor(maps, outerMapName, req).value))
    {
      var call := ItemCallFor(maps, outerMapName, req);
      if call.Failure? {
        return Failure(call.error);
      }
      var actions := GenerateItemActions(call.value);
      r := Success(actions);
    }

    /**
     * `get_actions`: handles the dependency path in order, discarding what it
     * generates, then the selected configuration with the caller's arguments,
     * and returns the selected configuration's actions only.
     */
    method GetActions(mapName: string, container: string, instances: Value, kwargs: Kwargs) returns (r: Result<seq<Value>>)
      modifies this
      ensures var run := Run(maps, mapName, Requests(DependencyPath(mapName, container), mapName, container, instances, kwargs));
        && calls == old(calls) + run.0
        && (run.1.Some? ==> r == Failure(run.1.value))
        && (run.1.None? ==> r == Success(itemActions(run.0[|run.0| - 1])))
    {
      var path := DependencyPath(mapName, container);
      var reqs := Requests(path, mapName, container, instances, kwargs);
      var failure := HandleDependencies(mapName, reqs[..|path|]);
      if failure.Some? {
        RunStopsAtFailure(maps, mapName, reqs, |path|);
        return Failure(failure.value);
      }
      RunStep(maps, mapName, reqs, |path|);
      TakeAll(reqs);
      r := GenActions(mapName, reqs[|path|]);
    }

    /** The loop of `get_actions` over the dependency path, whose actions are discarded. */
    method HandleDependencies(mapName: string, deps: seq<Request>) returns (failure: Option<Error>)
      modifies this
      ensures calls == old(calls) + Run(maps, mapName, deps).0
      ensures failure == Run(maps, mapName, deps).1
    {
      var i := 0;
      assert deps[..0] == [];
      while i < |deps|
        invariant 0 <= i <= |deps|
        invariant Run(maps, mapName, deps[..i]).1.None?
        invariant calls == old(calls) + Run(maps, mapName, deps[..i]).0
      {
        RunStep(maps, mapName, deps, i);
        var d := GenActions(mapName, deps[i]);
        if d.Failure? {
          RunStopsAtFailure(maps, mapName, deps, i + 1);
          return Some(d.error);
        }
        i := i + 1;
      }
      TakeAll(deps);
      return None;
    }
  }

  /**
   * When `get_actions` succeeds, there is one call per path item and then
   * one for the selected configuration: path items in path order, each with
   * the dependency flag, no arguments, its own map and configuration but
   * the outer map name; the selected configuration last, with no flags, the
   * caller's arguments and the instances argument wrapped as one item.
   */
  lemma GetActionsCalls(maps: map<string, ContainerMap>, path: seq<PathItem>, mapName: string, container: string,
                        instances: Value, kwargs: Kwargs)
    requires Run(maps, mapName, Requests(path, mapName, container, instances, kwargs)).1.None?
    ensures var calls := Run(maps, mapName, Requests(path, mapName, container, instances, kwargs)).0;
      && |calls| == |path| + 1
      && (forall i :: 0 <= i < |path| ==>
            && path[i].mapName in maps
            && calls[i].mapName == mapName
            && calls[i].containerMap == maps[path[i].mapName]
            && calls[i].container == path[i].container
            && calls[i].flags == DependencyFlag
            && calls[i].kwargs == map[]
            && calls[i].instances == ItemInstances(InstanceValue(path[i].instance), calls[i].config))
      && mapName in maps && container in maps[mapName].containers
      && calls[|path|] ==
           ItemCall(mapName, maps[mapName], container, maps[mapName].containers[container],
                    ItemInstances(instances, maps[mapName].containers[container]), NoFlags, kwargs)
  {
    var reqs := Requests(path, mapName, container, instances, kwargs);
    var calls := Run(maps, mapName, reqs).0;
    RunCallsInOrder(maps, mapName, reqs);
    forall i | 0 <= i < |path|
      ensures path[i].mapName in maps && calls[i].mapName == mapName && calls[i].containerMap == maps[path[i].mapName]
    {
      assert ItemCallFor(maps, mapName, reqs[i]) == Success(calls[i]);
    }
    assert ItemCallFor(maps, mapName, reqs[|path|]) == Success(calls[|path|]);
  }

  /**
   * `get_actions` raises exactly when an item on the path or the selected
   * configuration names an unknown map or configuration, and then with the
   * `KeyError` of the first such item, after handling the items before it.
   */
  lemma GetActionsFailure(maps: map<string, ContainerMap>, path: seq<PathItem>, mapName: string, container: string,
                          instances: Value, kwargs: Kwargs, k: nat)
    requires k <= |path|
    requires forall i :: 0 <= i < k ==> path[i].mapName in maps && path[i].container in maps[path[i].mapName].containers
    requires k < |path| ==> path[k].mapName !in maps || path[k].container !in maps[path[k].mapName].containers
    requires k == |path| ==> mapName !in maps || container !in maps[mapName].containers
    ensures var run := Run(maps, mapName, Requests(path, mapName, container, instances, kwargs));
      && |run.0| == k
      && run.1.Some? && run.1.value.KeyError?
      && (k < |path| ==> run.1.value == KeyError(if path[k].mapName !in maps then path[k].mapName else path[k].container))
      && (k == |path| ==> run.1.value == KeyError(if mapName !in maps then mapName else container))
  {
    var reqs := Requests(path, mapName, container, instances, kwargs);
    var run := Run(maps, mapName, reqs);
    RunCallsInOrder(maps, mapName, reqs);
    assert ItemCallFor(maps, mapName, reqs[k]).Failure?;
    assert forall i :: 0 <= i < k ==> ItemCallFor(maps, mapName, reqs[i]).Success?;
  }

  // ---------------------------------------------------------------------
  // Preparing an attached volume

  /** A call to the container engine (or to the policy's image cache). */
  datatype EngineCall =
    | Wait(container: string, timeout: Value)
    | EnsureImage(image: Value)
    | CreateContainer(kwargs: Kwargs)
    | StartContainer(kwargs: Kwargs)
    | RemoveContainer(id: string)

  /**
   * The engine as the preparation sees it: the calls made so far, which calls
   * raise, and the id of the container `create_container` creates.
   */
  class Engine {
    var calls: seq<EngineCall>
    const fails: EngineCall -> bool
    const createdId: string

    constructor (fails: EngineCall -> bool, createdId: string)
      ensures this.fails == fails && this.createdId == createdId && calls == []
    {
      this.fails := fails;
      this.createdId := createdId;
      calls := [];
    }

    /** Makes one call; `ok` is false when it raises. */
    method Call(c: EngineCall) returns (ok: bool)
      modifies this
      ensures calls == old(calls) + [c]
      ensures ok == !fails(c)
    {
      calls := calls + [c];
      ok := !fails(c);
    }
  }

  /** The error a raising engine call reports. */
  function EngineFailure(c: EngineCall): Error {
    match c
    case Wait(_, _) => EngineError("wait")
    case EnsureImage(_) => EngineError("ensure_image")
    case CreateContainer(_) => EngineError("create_container")
    case StartContainer(_) => EngineError("start")
    case RemoveContainer(_) => EngineError("remove_container")
  }

  /** The error that leaves the `finally` block: the removal's own, else the one raised before it, if any. */
  function AfterRemoval(fails: EngineCall -> bool, remove: EngineCall, before: Outcome): Outcome {
    if fails(remove) then Fail(EngineFailure(remove)) else before
  }

  /**
   * The keyword arguments the temporary container is started with: only the
   * container id when the host configuration went into the create call,
   * else the preparation host configuration for it.
   */
  function PreparationStartKwargs(ctx: Context, alias: string, volumeContainer: string, includeHostConfig: bool,
                                  tempId: string): (r: Kwargs)
    ensures includeHostConfig ==> r == map["container" := Str(tempId)]
    ensures !includeHostConfig ==> PreparationHostConfigKwargs(ctx, Some(tempId), alias, volumeContainer, Null) == Success(r)
  {
    if includeHostConfig then map["container" := Str(tempId)]
    else
      // without caller arguments the host configuration cannot raise
      assert AsKwargs(Null) == Success(map[]);
      PreparationHostConfigKwargs(ctx, Some(tempId), alias, volumeContainer, Null).value
  }

  /**
   * `prepare_container` as the engine calls it makes, and how it ends: wait
   * for the volume container, build the create arguments, make sure the
   * image exists, create the temporary container, then start it and wait for
   * it, and remove it whatever happened since it was created.
   */
  function PreparationTrace(ctx: Context, alias: string, volumeContainer: string, includeHostConfig: bool,
                            images: PolicyImages, shortcuts: Shortcuts, fails: EngineCall -> bool, tempId: string)
    : (seq<EngineCall>, Outcome)
  {
    var timeout := Get(ctx.client.settings, "wait_timeout");
    var waitVolume := Wait(volumeContainer, timeout);
    if fails(waitVolume) then ([waitVolume], Fail(EngineFailure(waitVolume)))
    else
      match PreparationCreateKwargs(ctx, alias, volumeContainer, includeHostConfig, images, shortcuts, map[])
      case Failure(e) => ([waitVolume], Fail(e))
      case Success(apc) =>
        var created := CreatedTrace(ctx, alias, volumeContainer, includeHostConfig, fails, tempId, apc);
        ([waitVolume] + created.0, created.1)
  }

  /** From the create arguments on: make sure the image exists, create the temporary container, then run and remove it. */
  function CreatedTrace(ctx: Context, alias: string, volumeContainer: string, includeHostConfig: bool,
                        fails: EngineCall -> bool, tempId: string, apc: Kwargs): (seq<EngineCall>, Outcome)
  {
    if "image" !in apc then ([], Fail(KeyError("image")))
    else
      var ensure := EnsureImage(apc["image"]);
      var create := CreateContainer(apc);
      if fails(ensure) then ([ensure], Fail(EngineFailure(ensure)))
      else if fails(create) then ([ensure, create], Fail(EngineFailure(create)))
      else
        var temporary := TemporaryTrace(ctx, alias, volumeContainer, includeHostConfig, fails, tempId);
        ([ensure, create] + temporary.0, temporary.1)
  }

  /**
   * The `try` block and its `finally` for a created temporary container:
   * start it and wait for it, stopping at the first call that raises, then
   * remove it.
   */
  function TemporaryTrace(ctx: Context, alias: string, volumeContainer: string, includeHostConfig: bool,
                          fails: EngineCall -> bool, tempId: string): (seq<EngineCall>, Outcome)
  {
    var timeout := Get(ctx.client.settings, "wait_timeout");
    var remove := RemoveContainer(tempId);
    var start := StartContainer(PreparationStartKwargs(ctx, alias, volumeContainer, includeHostConfig, tempId));
    var waitTemp := Wait(tempId, timeout);
    if fails(start) then ([start, remove], AfterRemoval(fails, remove, Fail(EngineFailure(start))))
    else if fails(waitTemp) then ([start, waitTemp, remove], AfterRemoval(fails, remove, Fail(EngineFailure(waitTemp))))
    else ([start, waitTemp, remove], AfterRemoval(fails, remove, Pass))
  }

  /** `prepare_container`: runs a temporary container that adjusts the owner and mode of an attached volume. */
  method PrepareContainer(engine: Engine, ctx: Context, alias: string, volumeContainer: string, includeHostConfig: bool,
                          images: PolicyImages, shortcuts: Shortcuts) returns (outcome: Outcome)
    modifies engine
    ensures var t := PreparationTrace(ctx, alias, volumeContainer, includeHostConfig, images, shortcuts,
                                      engine.fails, engine.createdId);
      engine.calls == old(engine.calls) + t.0 && outcome == t.1
  {
    var timeout := Get(ctx.client.settings, "wait_timeout");
    var ok := engine.Call(Wait(volumeContainer, timeout));
    if !ok {
      return Fail(EngineFailure(Wait(volumeContainer, timeout)));
    }
    // called without keyword arguments, so nothing is popped
    var apc := PreparationCreateKwargs(ctx, alias, volumeContainer, includeHostConfig, images, shortcuts, map[]);
    if apc.Failure? {
      return Fail(apc.error);
    }
    outcome := CreateAndRun(engine, ctx, alias, volumeContainer, includeHostConfig, apc.value);
  }

  /** The part of `prepare_container` from the create arguments on. */
  method CreateAndRun(engine: Engine, ctx: Context, alias: string, volumeContainer: string, includeHostConfig: bool,
                      apc: Kwargs) returns (outcome: Outcome)
    modifies engine
    ensures var t := CreatedTrace(ctx, alias, volumeContainer, includeHostConfig, engine.fails, engine.createdId, apc);
      engine.calls == old(engine.calls) + t.0 && outcome == t.1
  {
    if "image" !in apc {
      return Fail(KeyError("image"));
    }
    var ok := engine.Call(EnsureImage(apc["image"]));
    if !ok {
      return Fail(EngineFailure(EnsureImage(apc["image"])));
    }
    ok := engine.Call(CreateContainer(apc));
    if !ok {
      return Fail(EngineFailure(CreateContainer(apc)));
    }
    outcome := RunTemporary(engine, ctx, alias, volumeContainer, includeHostConfig, engine.createdId);
  }

  /** The `try` block of `prepare_container` and its `finally`, which removes the temporary container. */
  method RunTemporary(engine: Engine, ctx: Context, alias: string, volumeContainer: string, includeHostConfig: bool,
                      tempId: string) returns (outcome: Outcome)
    modifies engine
    ensures var t := TemporaryTrace(ctx, alias, volumeContainer, includeHostConfig, engine.fails, tempId);
      engine.calls == old(engine.calls) + t.0 && outcome == t.1
  {
    var timeout := Get(ctx.client.settings, "wait_timeout");
    var body: Outcome := Pass;
    var aps := PreparationStartKwargs(ctx, alias, volumeContainer, includeHostConfig, tempId);
    var ok := engine.Call(StartContainer(aps));
    if !ok {
      body := Fail(EngineFailure(StartContainer(aps)));
    } else {
      ok := engine.Call(Wait(tempId, timeout));
      if !ok {
        body := Fail(EngineFailure(Wait(tempId, timeout)));
      }
    }
    var removed := engine.Call(RemoveContainer(tempId));
    outcome := if removed then body else Fail(EngineFailure(RemoveContainer(tempId)));
  }

  /** The `finally` block always runs: the removal is the last call of the `try` part, and the only one. */
  lemma TemporaryRemovedLast(ctx: Context, alias: string, volumeContainer: string, includeHostConfig: bool,
                             fails: EngineCall -> bool, tempId: string)
    ensures var t := TemporaryTrace(ctx, alias, volumeContainer, includeHostConfig, fails, tempId).0;
      && |t| >= 1 && t[|t| - 1] == RemoveContainer(tempId)
      && forall i :: 0 <= i < |t| - 1 ==> !t[i].RemoveContainer? && !t[i].CreateContainer?
  {
  }

  /**
   * Once the temporary container is created, it is removed: the removal is
   * the last call, and it is made exactly when `create_container` was called
   * and did not raise.
   */
  lemma PreparationRemovesTemporary(ctx: Context, alias: string, volumeContainer: string, includeHostConfig: bool,
                                    images: PolicyImages, shortcuts: Shortcuts, fails: EngineCall -> bool, tempId: string)
    ensures var t := PreparationTrace(ctx, alias, volumeContainer, includeHostConfig, images, shortcuts, fails, tempId).0;
      && |t| >= 1
      && ((|t| >= 3 && t[2].CreateContainer? && !fails(t[2])) <==> t[|t| - 1] == RemoveContainer(tempId))
      && (forall i :: 0 <= i < |t| - 1 ==> !t[i].RemoveContainer?)
  {
    var t := PreparationTrace(ctx, alias, volumeContainer, includeHostConfig, images, shortcuts, fails, tempId).0;
    var apc := PreparationCreateKwargs(ctx, alias, volumeContainer, includeHostConfig, images, shortcuts, map[]);
    if !fails(Wait(volumeContainer, Get(ctx.client.settings, "wait_timeout"))) && apc.Success? {
      var created := CreatedTrace(ctx, alias, volumeContainer, includeHostConfig, fails, tempId, apc.value).0;
      assert t == [Wait(volumeContainer, Get(ctx.client.settings, "wait_timeout"))] + created;
      CreatedRemovesTemporary(ctx, alias, volumeContainer, includeHostConfig, fails, tempId, apc.value);
    }
  }

  /** From the create arguments on, the removal is made exactly when the create call succeeds, and last. */
  lemma CreatedRemovesTemporary(ctx: Context, alias: string, volumeContainer: string, includeHostConfig: bool,
                                fails: EngineCall -> bool, tempId: string, apc: Kwargs)
    ensures var c := CreatedTrace(ctx, alias, volumeContainer, includeHostConfig, fails, tempId, apc).0;
      && ((|c| >= 2 && c[1].CreateContainer? && !fails(c[1])) <==> (|c| >= 1 && c[|c| - 1] == RemoveContainer(tempId)))
      && (forall i :: 0 <= i < |c| - 1 ==> !c[i].RemoveContainer?)
  {
    TemporaryRemovedLast(ctx, alias, volumeContainer, includeHostConfig, fails, tempId);
  }

  /**
   * A preparation that completes made all six calls: the volume container is
   * waited for, the core image ensured, the container created from the
   * preparation arguments, started (with only its id when the create call
   * carried the host configuration), waited for and removed.
   */
  lemma PreparationPasses(ctx: Context, alias: string, volumeContainer: string, includeHostConfig: bool,
                          images: PolicyImages, shortcuts: Shortcuts, fails: EngineCall -> bool, tempId: string)
    requires PreparationTrace(ctx, alias, volumeContainer, includeHostConfig, images, shortcuts, fails, tempId).1 == Pass
    ensures var t := PreparationTrace(ctx, alias, volumeContainer, includeHostConfig, images, shortcuts, fails, tempId).0;
      var timeout := Get(ctx.client.settings, "wait_timeout");
      && PreparationCreateKwargs(ctx, alias, volumeContainer, includeHostConfig, images, shortcuts, map[]).Success?
      && var apc := PreparationCreateKwargs(ctx, alias, volumeContainer, includeHostConfig, images, shortcuts, map[]).value;
      && |t| == 6
      && t[0] == Wait(volumeContainer, timeout)
      && t[1] == EnsureImage(Str(images.coreImage))
      && t[2] == CreateContainer(apc)
      && t[3].StartContainer? && (includeHostConfig ==> t[3] == StartContainer(map["container" := Str(tempId)]))
      && (!includeHostConfig ==> PreparationHostConfigKwargs(ctx, Some(tempId), alias, volumeContainer, Null) == Success(t[3].kwargs))
      && t[4] == Wait(tempId, timeout)
      && t[5] == RemoveContainer(tempId)
      && forall i :: 0 <= i < 6 ==> !fails(t[i])
  {
    var apc := PreparationCreateKwargs(ctx, alias, volumeContainer, includeHostConfig, images, shortcuts, map[]).value;
    PreparationCreateImage(ctx, alias, volumeContainer, includeHostConfig, images, shortcuts);
  }

  /** Without caller arguments, the preparation arguments run the core image. */
  lemma PreparationCreateImage(ctx: Context, alias: string, volumeContainer: string, includeHostConfig: bool,
                               images: PolicyImages, shortcuts: Shortcuts)
    requires PreparationCreateKwargs(ctx, alias, volumeContainer, includeHostConfig, images, shortcuts, map[]).Success?
    ensures Lookup(PreparationCreateKwargs(ctx, alias, volumeContainer, includeHostConfig, images, shortcuts, map[]).value, "image")
            == Some(Str(images.coreImage))
  {
    var start := PreparationCreateStart(ctx, alias, volumeContainer, includeHostConfig, images, shortcuts, Null).value;
    var none: Kwargs := map[];
    assert none - {"host_config"} == none;
    UpdateWithEmpty(start);
    UpdatedKwargsSingle(start, map[]);
  }
}
