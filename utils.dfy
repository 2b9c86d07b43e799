/**
 * The policy's helper functions: the layered keyword-argument merge, user
 * extraction, volume, bind and port-binding resolution, the environment list
 * and the initial-state test.
 */
module PolicyUtils {
  import opened Wrappers
  import opened Values
  import opened Input
  import opened Config

  /** The `StartedAt` value of a container that was never started. */
  const InitialStartTime: string := "0001-01-01T00:00:00Z"

  // ---------------------------------------------------------------------
  // extract_user

  /** `u` is what `s.partition(':')[0]` gives: the part of `s` before its first colon. */
  predicate IsUserPart(u: string, s: string) {
    StartsWith(s, u) && ':' !in u && (|u| < |s| ==> s[|u|] == ':')
  }

  /**
   * `extract_user`: `None` for a falsy value other than `0`; the first element
   * of a tuple; the decimal string of an integer (`False` and `True` are
   * integers too); the part of a string before its first colon. A non-empty
   * list or dict has no `partition` and raises.
   */
  function ExtractUser(user: Value): (r: Result<Value>)
    ensures !Truthy(user) && user != Int(0) && user != Bool(false) ==> r == Success(Null)
    ensures user.Int? ==> r == Success(Str(IntToDecimal(user.i)))
    ensures user.Bool? ==> r == Success(Str(if user.b then "True" else "False"))
    ensures user.Tuple? && user.items != [] ==> r == Success(user.items[0])
    ensures user.Str? && user.s != "" ==> r.Success? && r.value.Str? && IsUserPart(r.value.s, user.s)
    ensures (user.List? && user.items != []) || (user.Dict? && user.entries != map[]) ==>
      r.Failure? && r.error.AttributeError?
  {
    match user
    case Int(i) => Success(Str(IntToDecimal(i)))
    case Bool(b) => Success(Str(if b then "True" else "False"))
    case Tuple(items) => if items == [] then Success(Null) else Success(items[0])
    case Str(s) =>
      if s == "" then Success(Null)
      else
        var (before, _, _) := Partition(s, ':');
        assert s[..|before|] == before;
        Success(Str(before))
    case List(items) => if items == [] then Success(Null) else Failure(AttributeError("'list' object has no attribute 'partition'"))
    case Dict(m) => if m == map[] then Success(Null) else Failure(AttributeError("'dict' object has no attribute 'partition'"))
    case NotSet => Success(Null)
    case Null => Success(Null)
  }

  /** A `user:group` string yields the user. */
  lemma ExtractUserOfUserGroup(name: string, group: string)
    requires ':' !in name
    ensures ExtractUser(Str(name + ":" + group)) == Success(Str(name))
  {
    var s := name + ":" + group;
    var u := ExtractUser(Str(s)).value.s;
    assert s[..|name|] == name;
    assert s[|name|] == ':';
    assert u == s[..|u|];
  }

  /** The user of an integer uid reads back as that uid. */
  lemma ExtractUserOfUid(uid: int)
    ensures ExtractUser(Int(uid)).Success? && ExtractUser(Int(uid)).value.Str?
    ensures ParseDecimal(ExtractUser(Int(uid)).value.s) == uid
  {
    IntToDecimalRoundTrip(uid);
  }

  // ---------------------------------------------------------------------
  // update_kwargs

  /**
   * The overwrite test of `update_kwargs`. The code writes the tuple test
   * as `('command' or 'entrypoint')`, which evaluates to `'command'`, so the
   * test is whether the key is a substring of `command`.
   */
  predicate IsCommandKey(key: string) {
    IsSubstring(key, "command")
  }

  /** `d.get(key)` with absence kept apart from a stored `None`. */
  function Lookup(d: Kwargs, key: string): Option<Value> {
    if key in d then Some(d[key]) else None
  }

  /** The elements an existing list or tuple contributes to a list update. */
  function ListItems(existing: Option<Value>): seq<Value> {
    if existing.Some? && (existing.value.List? || existing.value.Tuple?) then existing.value.items else []
  }

  /** The entries an existing dict contributes to a dict update. */
  function DictEntries(existing: Option<Value>): map<Value, Value> {
    if existing.Some? && existing.value.Dict? then existing.value.entries else map[]
  }

  /** The new value of one key updated with `item` (which is not `None`). */
  function MergeValue(key: string, existing: Option<Value>, item: Value): Value {
    if IsCommandKey(key) then item
    else
      match item
      case List(items) => List(ListItems(existing) + items)
      case Tuple(items) => List(ListItems(existing) + items)
      case Dict(entries) => Dict(DictEntries(existing) + entries)
      case _ => item
  }

  /** The keys an update assigns: those whose value is not `None`. */
  function LiveKeys(update: Kwargs): set<string> {
    set k | k in update && update[k] != Null
  }

  /** `kwargs` after one update dictionary has been applied. */
  function UpdatedOnce(kwargs: Kwargs, update: Kwargs): Kwargs {
    map k | k in kwargs.Keys + LiveKeys(update) ::
      if k in update && update[k] != Null then MergeValue(k, Lookup(kwargs, k), update[k]) else kwargs[k]
  }

  /** `update_kwargs(kwargs, *updates)`: the updates applied left to right. */
  function UpdatedKwargs(kwargs: Kwargs, updates: seq<Kwargs>): Kwargs {
    if updates == [] then kwargs
    else UpdatedOnce(UpdatedKwargs(kwargs, updates[..|updates| - 1]), updates[|updates| - 1])
  }

  lemma UpdatedKwargsSingle(kwargs: Kwargs, u: Kwargs)
    ensures UpdatedKwargs(kwargs, [u]) == UpdatedOnce(kwargs, u)
  {
    assert [u][..0] == [];
  }

  lemma UpdatedKwargsPair(kwargs: Kwargs, u: Kwargs, v: Kwargs)
    ensures UpdatedKwargs(kwargs, [u, v]) == UpdatedOnce(UpdatedOnce(kwargs, u), v)
  {
    assert [u, v][..1] == [u];
    UpdatedKwargsSingle(kwargs, u);
  }

  /** One key of one update applied to `kwargs`. */
  function UpdatedKey(kwargs: Kwargs, key: string, item: Value): Kwargs {
    if item == Null then kwargs else kwargs[key := MergeValue(key, Lookup(kwargs, key), item)]
  }

  /** The part of an update already iterated over. */
  function Restrict(update: Kwargs, done: set<string>): Kwargs {
    map k | k in update && k in done :: update[k]
  }

  lemma UpdatedOnceStep(start: Kwargs, update: Kwargs, done: set<string>, key: string)
    requires key in update && key !in done
    ensures UpdatedOnce(start, Restrict(update, done + {key})) ==
            UpdatedKey(UpdatedOnce(start, Restrict(update, done)), key, update[key])
  {
    var before := UpdatedOnce(start, Restrict(update, done));
    var after := UpdatedOnce(start, Restrict(update, done + {key}));
    assert Lookup(before, key) == Lookup(start, key);
    var stepped := UpdatedKey(before, key, update[key]);
    assert forall k :: k in after <==> k in stepped;
    forall k | k in after ensures after[k] == stepped[k] {
      if k != key {
        assert k in Restrict(update, done + {key}) <==> k in Restrict(update, done);
      }
    }
  }

  lemma UpdatedOnceEverything(start: Kwargs, update: Kwargs)
    ensures Restrict(update, update.Keys) == update
    ensures UpdatedOnce(start, Restrict(update, {})) == start
  {
    assert Restrict(update, {}) == map[];
  }

  /** A keyword dictionary that is updated in place. */
  class KwargsDict {
    var entries: Kwargs

    constructor (entries: Kwargs)
      ensures this.entries == entries
    {
      this.entries := entries;
    }

    /** `update_kwargs(self, *updates)`. */
    method Update(updates: seq<Kwargs>)
      modifies this
      ensures entries == UpdatedKwargs(old(entries), updates)
    {
      var i := 0;
      while i < |updates|
        invariant 0 <= i <= |updates|
        invariant entries == UpdatedKwargs(old(entries), updates[..i])
      {
        assert updates[..i + 1][..i] == updates[..i];
        UpdateWith(updates[i]);
        i := i + 1;
      }
      assert updates[..|updates|] == updates;
    }

    /** One update dictionary, key by key in the dictionary's own (unspecified) order. */
    method UpdateWith(update: Kwargs)
      modifies this
      ensures entries == UpdatedOnce(old(entries), update)
    {
      ghost var start := entries;
      ghost var done: set<string> := {};
      var remaining := update.Keys;
      UpdatedOnceEverything(start, update);
      while remaining != {}
        invariant remaining + done == update.Keys && remaining !! done
        invariant entries == UpdatedOnce(start, Restrict(update, done))
        decreases remaining
      {
        var key :| key in remaining;
        var item := update[key];
        UpdatedOnceStep(start, update, done, key);
        if item != Null {
          var existing := if key in entries then Some(entries[key]) else None;
          entries := entries[key := MergeValue(key, existing, item)];
        }
        remaining := remaining - {key};
        done := done + {key};
      }
      assert done == update.Keys;
    }

    /** `pop(key, None)`. */
    method Pop(key: string) returns (v: Value)
      modifies this
      ensures v == Get(old(entries), key)
      ensures entries == old(entries) - {key}
    {
      v := if key in entries then entries[key] else Null;
      entries := entries - {key};
    }
  }

  /** Keys no update assigns keep their value (or stay absent); an update of `None` assigns nothing. */
  lemma {:induction false} UpdateLeavesOtherKeys(kwargs: Kwargs, updates: seq<Kwargs>, key: string)
    requires forall i :: 0 <= i < |updates| ==> key !in LiveKeys(updates[i])
    ensures Lookup(UpdatedKwargs(kwargs, updates), key) == Lookup(kwargs, key)
  {
    if updates != [] {
      UpdateLeavesOtherKeys(kwargs, updates[..|updates| - 1], key);
    }
  }

  /** The same for a single update. */
  lemma UpdatedOnceLeavesKey(kwargs: Kwargs, update: Kwargs, key: string)
    requires key !in LiveKeys(update)
    ensures Lookup(UpdatedOnce(kwargs, update), key) == Lookup(kwargs, key)
  {
    UpdatedKwargsSingle(kwargs, update);
    UpdateLeavesOtherKeys(kwargs, [update], key);
  }

  /** The same for the two updates of a builder: its options, then the caller's arguments. */
  lemma UpdatePairLeavesKey(kwargs: Kwargs, options: Kwargs, extra: Kwargs, key: string)
    requires key !in LiveKeys(options) && key !in LiveKeys(extra)
    ensures Lookup(UpdatedKwargs(kwargs, [options, extra]), key) == Lookup(kwargs, key)
  {
    UpdateLeavesOtherKeys(kwargs, [options, extra], key);
  }

  /** The keys afterwards are the original keys plus every key some update assigns. */
  lemma {:induction false} UpdatedKwargsKeys(kwargs: Kwargs, updates: seq<Kwargs>, key: string)
    ensures key in UpdatedKwargs(kwargs, updates) <==>
      key in kwargs || exists i :: 0 <= i < |updates| && key in LiveKeys(updates[i])
  {
    if updates != [] {
      var init := updates[..|updates| - 1];
      UpdatedKwargsKeys(kwargs, init, key);
      assert forall i :: 0 <= i < |init| ==> init[i] == updates[i];
      if key in LiveKeys(updates[|updates| - 1]) {
        assert 0 <= |updates| - 1 < |updates|;
      }
    }
  }

  /** An empty update (`if not update: continue`) changes nothing. */
  lemma UpdateWithEmpty(kwargs: Kwargs)
    ensures UpdatedOnce(kwargs, map[]) == kwargs
  {
  }

  /** A list or tuple update is appended after an existing list's or tuple's elements, giving a list. */
  lemma UpdateExtendsLists(kwargs: Kwargs, update: Kwargs, key: string)
    requires !IsCommandKey(key) && key in update && (update[key].List? || update[key].Tuple?)
    ensures var r := UpdatedOnce(kwargs, update);
      key in r && r[key].List? &&
      (key in kwargs && (kwargs[key].List? || kwargs[key].Tuple?) ==> r[key].items == kwargs[key].items + update[key].items) &&
      (!(key in kwargs && (kwargs[key].List? || kwargs[key].Tuple?)) ==> r[key].items == update[key].items)
  {
  }

  /** A dict update is merged into an existing dict, the update winning; any other value is replaced. */
  lemma UpdateMergesDicts(kwargs: Kwargs, update: Kwargs, key: string, inner: Value)
    requires !IsCommandKey(key) && key in update && update[key].Dict?
    ensures var r := UpdatedOnce(kwargs, update);
      key in r && r[key].Dict? &&
      (inner in update[key].entries ==> inner in r[key].entries && r[key].entries[inner] == update[key].entries[inner]) &&
      (key in kwargs && kwargs[key].Dict? && inner !in update[key].entries && inner in kwargs[key].entries ==>
         inner in r[key].entries && r[key].entries[inner] == kwargs[key].entries[inner]) &&
      (!(key in kwargs && kwargs[key].Dict?) ==> r[key].entries == update[key].entries)
  {
  }

  /** Keys that pass the `command` test, and scalar updates, overwrite outright. */
  lemma UpdateOverwrites(kwargs: Kwargs, update: Kwargs, key: string)
    requires key in update && update[key] != Null
    requires IsCommandKey(key) || !(update[key].List? || update[key].Tuple? || update[key].Dict?)
    ensures key in UpdatedOnce(kwargs, update) && UpdatedOnce(kwargs, update)[key] == update[key]
  {
  }

  /** `command` is overwritten by a list update, but `entrypoint` fails the test and its list is extended. */
  lemma CommandOverwrittenEntrypointExtended(first: seq<Value>, second: seq<Value>)
    ensures UpdatedOnce(map["command" := List(first)], map["command" := List(second)])["command"] == List(second)
    ensures UpdatedOnce(map["entrypoint" := List(first)], map["entrypoint" := List(second)])["entrypoint"] ==
            List(first + second)
  {
    assert IsCommandKey("command") by {
      assert StartsWith("command", "command");
    }
    assert !IsCommandKey("entrypoint") by {
      assert 'e' in "entrypoint";
      MissingCharNotSubstring("entrypoint", "command", 'e');
    }
  }

  /** A string containing a character that `s` lacks does not occur in `s`. */
  lemma {:induction false} MissingCharNotSubstring(k: string, s: string, c: char)
    requires c in k && c !in s
    ensures !IsSubstring(k, s)
    decreases |s|
  {
    if |s| > 0 {
      assert forall x :: x in s[1..] ==> x in s;
      MissingCharNotSubstring(k, s[1..], c);
    }
  }

  /** `ports` and `binds` are not substrings of `command`, so their list and dictionary updates extend and merge. */
  lemma ExtendedKeys()
    ensures !IsCommandKey("ports") && !IsCommandKey("binds")
  {
    assert 'p' in "ports" && 'b' in "binds";
    MissingCharNotSubstring("ports", "command", 'p');
    MissingCharNotSubstring("binds", "command", 'b');
  }

  /** Ports `[80, 443]` updated with `[22]` become `[80, 443, 22]`. */
  lemma PortsExample()
    ensures UpdatedOnce(map["ports" := List([Int(80), Int(443)])], map["ports" := List([Int(22)])])["ports"] ==
            List([Int(80), Int(443), Int(22)])
  {
    assert !IsCommandKey("ports") by {
      assert 'p' in "ports";
      MissingCharNotSubstring("ports", "command", 'p');
    }
  }

  // ---------------------------------------------------------------------
  // Volumes and binds

  /** The host-path dictionary key: the path, or `None` when there is none. */
  function HostKey(h: Option<string>): (v: Value)
    ensures h.Some? <==> v.Str?
    ensures h.Some? ==> v == Str(h.value)
    ensures h.None? ==> v == Null
  {
    if h.Some? then Str(h.value) else Null
  }

  /**
   * `get_shared_volume_path`: a pair of paths whose first element is a path
   * gives that container path and the resolved host path; any other tuple
   * raises `ValueError`; an alias needs a container path in the map's volumes
   * and otherwise raises `KeyError`.
   */
  function SharedVolumePath(cmap: ContainerMap, volume: VolumeRef, instance: Option<string>): (r: Result<(string, Option<string>)>)
    ensures volume.PathTuple? ==> (r.Success? <==> |volume.parts| == 2 && IsPath(volume.parts[0]))
    ensures volume.PathTuple? && r.Success? ==>
      r.value == (volume.parts[0].path, GetHostPath(cmap.host.root, volume.parts[1], instance))
    ensures volume.PathTuple? && r.Failure? ==> r.error.ValueError?
    ensures volume.Alias? ==> (r.Success? <==> volume.name in cmap.volumes && cmap.volumes[volume.name] != "")
    ensures volume.Alias? && r.Success? ==>
      r.value == (cmap.volumes[volume.name], HostVolumeGet(cmap.host, volume.name, instance))
    ensures volume.Alias? && r.Failure? ==> r.error == KeyError(volume.name)
  {
    match volume
    case PathTuple(parts) =>
      if |parts| == 2 && IsPath(parts[0]) then
        Success((parts[0].path, GetHostPath(cmap.host.root, parts[1], instance)))
      else
        Failure(ValueError("Host-container-binding must be described by two paths or one alias name."))
    case Alias(name) =>
      if name in cmap.volumes && cmap.volumes[name] != "" then
        Success((cmap.volumes[name], HostVolumeGet(cmap.host, name, instance)))
      else
        Failure(KeyError(name))
  }

  /** `_volume_path` of `get_volumes`: any pair gives its first element; an alias needs a container path. */
  function VolumePath(cmap: ContainerMap, volume: VolumeRef): Result<Value> {
    match volume
    case PathTuple(parts) =>
      if |parts| == 2 then Success(PathValue(parts[0])) else Failure(KeyError("tuple"))
    case Alias(name) =>
      if name in cmap.volumes && cmap.volumes[name] != "" then Success(Str(cmap.volumes[name]))
      else Failure(KeyError(name))
  }

  /** The container path of each bind, in order. */
  function BindPaths(cmap: ContainerMap, binds: seq<HostVolume>): seq<Result<Value>>
  {
    seq(|binds|, i requires 0 <= i < |binds| => VolumePath(cmap, binds[i].volume))
  }

  /** `get_volumes`, as a value: the shares, then the container path of every bind. */
  function Volumes(cmap: ContainerMap, config: ConfigRecord): Result<seq<Value>> {
    match CollectAll(BindPaths(cmap, config.binds))
    case Failure(e) => Failure(e)
    case Success(paths) => Success(StrValues(config.shares) + paths)
  }

  /**
   * The volume list holds the shares followed by one container path per
   * bind, in order; it fails exactly when some bind has no container path.
   */
  lemma VolumesOrder(cmap: ContainerMap, config: ConfigRecord)
    ensures Volumes(cmap, config).Success? <==>
      forall j :: 0 <= j < |config.binds| ==> VolumePath(cmap, config.binds[j].volume).Success?
    ensures Volumes(cmap, config).Success? ==>
      var vs := Volumes(cmap, config).value;
      && |vs| == |config.shares| + |config.binds|
      && (forall i :: 0 <= i < |config.shares| ==> vs[i] == Str(config.shares[i]))
      && (forall j :: 0 <= j < |config.binds| ==>
            vs[|config.shares| + j] == VolumePath(cmap, config.binds[j].volume).value)
  {
    var ps := BindPaths(cmap, config.binds);
    assert |ps| == |config.binds| && forall j :: 0 <= j < |ps| ==> ps[j] == VolumePath(cmap, config.binds[j].volume);
    CollectAllSuccess(ps);
  }

  /** `get_volumes`: the shares, extended by a loop over the binds. */
  method GetVolumes(cmap: ContainerMap, config: ConfigRecord) returns (r: Result<seq<Value>>)
    ensures r == Volumes(cmap, config)
  {
    var paths := BindPaths(cmap, config.binds);
    var collected: seq<Value> := [];
    var i := 0;
    while i < |config.binds|
      invariant 0 <= i <= |config.binds|
      invariant CollectAll(paths[..i]) == Success(collected)
    {
      assert paths[..i + 1][..i] == paths[..i];
      var p := VolumePath(cmap, config.binds[i].volume);
      if p.Failure? {
        CollectAllFailsOnPrefix(paths, i + 1);
        return Failure(p.error);
      }
      collected := collected + [p.value];
      i := i + 1;
    }
    assert paths[..|paths|] == paths;
    r := Success(StrValues(config.shares) + collected);
  }

  /** Once a prefix fails, the whole list fails with the same error. */
  lemma {:induction false} CollectAllFailsOnPrefix<T>(rs: seq<Result<T>>, n: nat)
    requires n <= |rs| && CollectAll(rs[..n]).Failure?
    ensures CollectAll(rs) == CollectAll(rs[..n])
    decreases |rs| - n
  {
    if n < |rs| {
      assert rs[..n + 1][..n] == rs[..n];
      CollectAllFailsOnPrefix(rs, n + 1);
    } else {
      assert rs[..n] == rs;
    }
  }

  /** Once a prefix fails, the whole dictionary build fails with the same error. */
  lemma {:induction false} BuildDictFailsOnPrefix<K, V>(es: seq<Result<Option<(K, V)>>>, n: nat)
    requires n <= |es| && BuildDict(es[..n]).Failure?
    ensures BuildDict(es) == BuildDict(es[..n])
    decreases |es| - n
  {
    if n < |es| {
      assert es[..n + 1][..n] == es[..n];
      BuildDictFailsOnPrefix(es, n + 1);
    } else {
      assert es[..n] == es;
    }
  }

  /** The `{bind, ro}` dictionary of one host bind. */
  function BindSpec(containerPath: string, readonly: bool): Value {
    Dict(map[Str("bind") := Str(containerPath), Str("ro") := Bool(readonly)])
  }

  /** The entry one bind contributes to `get_host_binds`. */
  function BindEntry(cmap: ContainerMap, bind: HostVolume, instance: Option<string>): Result<Option<(Value, Value)>> {
    match SharedVolumePath(cmap, bind.volume, instance)
    case Failure(e) => Failure(e)
    case Success((c, h)) => Success(Some((HostKey(h), BindSpec(c, bind.readonly))))
  }

  /** The entry of each bind, in order. */
  function BindEntries(cmap: ContainerMap, binds: seq<HostVolume>, instance: Option<string>): seq<Result<Option<(Value, Value)>>>
  {
    seq(|binds|, i requires 0 <= i < |binds| => BindEntry(cmap, binds[i], instance))
  }

  /** `get_host_binds`, as a value. */
  function HostBinds(cmap: ContainerMap, config: ConfigRecord, instance: Option<string>): Result<map<Value, Value>> {
    BuildDict(BindEntries(cmap, config.binds, instance))
  }

  /** `get_host_binds`: a loop over the binds, keyed by host path. */
  method GetHostBinds(cmap: ContainerMap, config: ConfigRecord, instance: Option<string>) returns (r: Result<map<Value, Value>>)
    ensures r == HostBinds(cmap, config, instance)
  {
    var entries := BindEntries(cmap, config.binds, instance);
    var binds: map<Value, Value> := map[];
    var i := 0;
    while i < |config.binds|
      invariant 0 <= i <= |config.binds|
      invariant BuildDict(entries[..i]) == Success(binds)
    {
      BuildDictStep(entries, i);
      var resolved := SharedVolumePath(cmap, config.binds[i].volume, instance);
      if resolved.Failure? {
        BuildDictFailsOnPrefix(entries, i + 1);
        return Failure(resolved.error);
      }
      var (c, h) := resolved.value;
      binds := binds[HostKey(h) := BindSpec(c, config.binds[i].readonly)];
      i := i + 1;
    }
    TakeAll(entries);
    r := Success(binds);
  }

  /** Building the host binds fails exactly when some bind cannot be resolved, with the first such error. */
  lemma HostBindsFailure(cmap: ContainerMap, config: ConfigRecord, instance: Option<string>)
    ensures HostBinds(cmap, config, instance).Success? <==>
      forall i :: 0 <= i < |config.binds| ==> SharedVolumePath(cmap, config.binds[i].volume, instance).Success?
    ensures HostBinds(cmap, config, instance).Failure? ==>
      exists i :: 0 <= i < |config.binds| &&
        SharedVolumePath(cmap, config.binds[i].volume, instance).Failure? &&
        HostBinds(cmap, config, instance).error == SharedVolumePath(cmap, config.binds[i].volume, instance).error
  {
    var es := BindEntries(cmap, config.binds, instance);
    BuildDictFailure(es);
    assert forall i :: 0 <= i < |es| ==> (es[i].Success? <==> SharedVolumePath(cmap, config.binds[i].volume, instance).Success?);
  }

  /**
   * A bind that is the last one with its host path determines the entry for
   * that path: its container path and read-only flag.
   */
  lemma HostBindsLastWins(cmap: ContainerMap, config: ConfigRecord, instance: Option<string>, i: int)
    requires forall j :: 0 <= j < |config.binds| ==> SharedVolumePath(cmap, config.binds[j].volume, instance).Success?
    requires 0 <= i < |config.binds|
    requires forall j :: i < j < |config.binds| ==>
      SharedVolumePath(cmap, config.binds[j].volume, instance).value.1 != SharedVolumePath(cmap, config.binds[i].volume, instance).value.1
    ensures HostBinds(cmap, config, instance).Success?
    ensures var (c, h) := SharedVolumePath(cmap, config.binds[i].volume, instance).value;
      HostKey(h) in HostBinds(cmap, config, instance).value &&
      HostBinds(cmap, config, instance).value[HostKey(h)] == BindSpec(c, config.binds[i].readonly)
  {
    var es := BindEntries(cmap, config.binds, instance);
    HostBindsFailure(cmap, config, instance);
    BuildDictFailure(es);
    var h := SharedVolumePath(cmap, config.binds[i].volume, instance).value.1;
    forall j | i < j < |es| ensures !Provides(es, j, HostKey(h)) {
      var hj := SharedVolumePath(cmap, config.binds[j].volume, instance).value.1;
      assert hj != h;
      assert HostKey(hj) != HostKey(h);
    }
    BuildDictLastWins(es, i, HostKey(h));
  }

  // ---------------------------------------------------------------------
  // Port bindings

  /** The entry one exposed port contributes to `get_port_bindings`. */
  function PortEntry(binding: PortBinding, interfaces: map<string, string>): Result<Option<(Value, Value)>> {
    if binding.interface != "" && Truthy(binding.hostPort) then
      if binding.interface in interfaces && interfaces[binding.interface] != "" then
        Success(Some((binding.exposedPort, Tuple([Str(interfaces[binding.interface]), binding.hostPort]))))
      else
        Failure(ValueError("Address for interface '" + binding.interface + "' not found in client configuration."))
    else if Truthy(binding.hostPort) then
      Success(Some((binding.exposedPort, binding.hostPort)))
    else
      Success(None)
  }

  /** The entry of each exposed port, in order. */
  function PortEntries(exposes: seq<PortBinding>, interfaces: map<string, string>): seq<Result<Option<(Value, Value)>>>
  {
    seq(|exposes|, i requires 0 <= i < |exposes| => PortEntry(exposes[i], interfaces))
  }

  /** `get_port_bindings`, as a value. */
  function PortBindings(config: ConfigRecord, client: ClientView): Result<map<Value, Value>> {
    BuildDict(PortEntries(config.exposes, client.interfaces))
  }

  /** `get_port_bindings`: a loop over the exposed ports. */
  method GetPortBindings(config: ConfigRecord, client: ClientView) returns (r: Result<map<Value, Value>>)
    ensures r == PortBindings(config, client)
  {
    var entries := PortEntries(config.exposes, client.interfaces);
    var bindings: map<Value, Value> := map[];
    var i := 0;
    while i < |config.exposes|
      invariant 0 <= i <= |config.exposes|
      invariant BuildDict(entries[..i]) == Success(bindings)
    {
      BuildDictStep(entries, i);
      var binding := config.exposes[i];
      if binding.interface != "" && Truthy(binding.hostPort) {
        if binding.interface !in client.interfaces || client.interfaces[binding.interface] == "" {
          BuildDictFailsOnPrefix(entries, i + 1);
          return Failure(ValueError("Address for interface '" + binding.interface + "' not found in client configuration."));
        }
        var address := client.interfaces[binding.interface];
        bindings := bindings[binding.exposedPort := Tuple([Str(address), binding.hostPort])];
      } else if Truthy(binding.hostPort) {
        bindings := bindings[binding.exposedPort := binding.hostPort];
      }
      i := i + 1;
    }
    TakeAll(entries);
    r := Success(bindings);
  }

  /** A port binding needs an address exactly for entries with both an interface and a host port. */
  predicate NeedsAddress(binding: PortBinding, interfaces: map<string, string>) {
    binding.interface != "" && Truthy(binding.hostPort) &&
    !(binding.interface in interfaces && interfaces[binding.interface] != "")
  }

  /**
   * The port bindings fail with `ValueError` exactly when an entry with an
   * interface and a host port names an interface the client has no address for.
   */
  lemma PortBindingsFailure(config: ConfigRecord, client: ClientView)
    ensures PortBindings(config, client).Failure? <==>
      exists i :: 0 <= i < |config.exposes| && NeedsAddress(config.exposes[i], client.interfaces)
    ensures PortBindings(config, client).Failure? ==> PortBindings(config, client).error.ValueError?
  {
    var es := PortEntries(config.exposes, client.interfaces);
    BuildDictFailure(es);
    assert forall i :: 0 <= i < |es| ==> (es[i].Failure? <==> NeedsAddress(config.exposes[i], client.interfaces));
    if PortBindings(config, client).Failure? {
      var i :| 0 <= i < |es| && es[i].Failure? && AllSucceed(es[..i]) && BuildDict(es).error == es[i].error;
    }
  }

  /** Entry `i` binds `port` to a host port. */
  predicate BindsPort(exposes: seq<PortBinding>, i: int, port: Value) {
    0 <= i < |exposes| && exposes[i].exposedPort == port && Truthy(exposes[i].hostPort)
  }

  /** Entry `i` is the last one binding `port` to a host port. */
  predicate LastBindsPort(exposes: seq<PortBinding>, i: int, port: Value) {
    BindsPort(exposes, i, port) && forall j :: i < j < |exposes| ==> !BindsPort(exposes, j, port)
  }

  /**
   * Exposed ports without a host port are absent; the last entry for an
   * exposed port with a host port gives `(address, port)` when it has an
   * interface and the bare port otherwise.
   */
  lemma PortBindingsEntries(config: ConfigRecord, client: ClientView, port: Value, i: int)
    requires PortBindings(config, client).Success?
    ensures port in PortBindings(config, client).value <==> exists j :: BindsPort(config.exposes, j, port)
    ensures LastBindsPort(config.exposes, i, port) && config.exposes[i].interface == "" ==>
      PortBindings(config, client).value[port] == config.exposes[i].hostPort
    ensures LastBindsPort(config.exposes, i, port) && config.exposes[i].interface != "" ==>
      && config.exposes[i].interface in client.interfaces
      && PortBindings(config, client).value[port] ==
         Tuple([Str(client.interfaces[config.exposes[i].interface]), config.exposes[i].hostPort])
  {
    var es := PortEntries(config.exposes, client.interfaces);
    BuildDictFailure(es);
    BuildDictKeys(es, port);
    assert forall j :: Provides(es, j, port) <==> BindsPort(config.exposes, j, port);
    if LastBindsPort(config.exposes, i, port) {
      assert LastProvider(es, i, port);
      BuildDictLastWins(es, i, port);
    }
  }

  // ---------------------------------------------------------------------
  // Environment and state

  /** `KEY=VALUE` for the keys of `table`, in the iteration order `order`. */
  function RenderEnvironment(order: seq<string>, table: map<string, string>): seq<string> {
    if order == [] then []
    else
      var rest := RenderEnvironment(order[..|order| - 1], table);
      var k := order[|order| - 1];
      if k in table then rest + [k + "=" + table[k]] else rest
  }

  /**
   * `get_environment`: a list is passed through, a dictionary is rendered as
   * `KEY=VALUE` strings in its iteration order (`order`, which the code does
   * not fix), anything else gives an empty list.
   */
  function GetEnvironment(env: Environment, order: seq<string>): (r: seq<string>)
    ensures env.EnvList? ==> r == env.vars
    ensures env.EnvOther? ==> r == []
  {
    match env
    case EnvList(vars) => vars
    case EnvDict(table) => RenderEnvironment(order, table)
    case EnvOther => []
  }

  /** `order` lists every key of the table once. */
  predicate Enumerates(order: seq<string>, table: map<string, string>) {
    (forall i, j :: 0 <= i < j < |order| ==> order[i] != order[j]) &&
    (forall k :: k in order ==> k in table) && (forall k :: k in table ==> k in order)
  }

  /** In an iteration order over its keys, a dictionary renders to one `KEY=VALUE` string per key, in that order. */
  lemma {:induction false} RenderEnvironmentPerKey(order: seq<string>, table: map<string, string>)
    requires forall k :: k in order ==> k in table
    ensures var r := RenderEnvironment(order, table);
      |r| == |order| && forall i :: 0 <= i < |order| ==> r[i] == order[i] + "=" + table[order[i]]
  {
    if order != [] {
      RenderEnvironmentPerKey(order[..|order| - 1], table);
      assert order[|order| - 1] in order;
      assert forall k :: k in order[..|order| - 1] ==> k in order;
    }
  }

  lemma GetEnvironmentOfDict(table: map<string, string>, order: seq<string>)
    requires Enumerates(order, table)
    ensures var r := GetEnvironment(EnvDict(table), order);
      && |r| == |table| == |order|
      && (forall k :: k in table ==> k + "=" + table[k] in r)
      && (forall i :: 0 <= i < |r| ==> r[i] == order[i] + "=" + table[order[i]])
  {
    RenderEnvironmentPerKey(order, table);
    assert |table.Keys| == |order| by {
      DistinctCardinality(order);
      assert (set k | k in order) == table.Keys;
    }
    forall k | k in table ensures k + "=" + table[k] in GetEnvironment(EnvDict(table), order) {
      var i :| 0 <= i < |order| && order[i] == k;
    }
  }

  lemma {:induction false} DistinctCardinality(s: seq<string>)
    requires forall i, j :: 0 <= i < j < |s| ==> s[i] != s[j]
    ensures |set k | k in s| == |s|
  {
    if s != [] {
      var init := s[..|s| - 1];
      DistinctCardinality(init);
      assert (set k | k in s) == (set k | k in init) + {s[|s| - 1]};
      assert s[|s| - 1] !in init;
    }
  }

  /** `is_initial`: whether the state's `StartedAt` is the zero time; a state without it raises `KeyError`. */
  function IsInitial(state: Kwargs): (r: Result<bool>)
    ensures r.Failure? <==> "StartedAt" !in state
    ensures r.Failure? ==> r.error == KeyError("StartedAt")
    ensures r.Success? ==> (r.value <==> state["StartedAt"] == Str(InitialStartTime))
  {
    if "StartedAt" in state then Success(state["StartedAt"] == Str(InitialStartTime))
    else Failure(KeyError("StartedAt"))
  }
}
