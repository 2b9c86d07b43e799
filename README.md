# docker-map policy core in Dafny

This project models the part of docker-map that turns declarative container
configurations into the keyword-argument dictionaries for the Docker engine.
It has four parts:

- **Helpers** (`PolicyUtils`, `utils.dfy`):
  - the layered `update_kwargs` merge, on a `KwargsDict` class whose dictionary the methods update;
  - `extract_user`;
  - volume, bind and port resolution, where the dictionary- and list-building loops are methods proved against specification functions;
  - `get_environment` and `is_initial`.
- **Configurations** (`Config`, `config.dfy`):
  - host paths (`get_host_path`, `HostVolumeConfiguration.get`);
  - `ContainerConfiguration.merge`, as a class with one field per attribute whose methods extend lists and overwrite attributes in place;
  - `ClientConfiguration.get_init_kwargs` and `get_client`, which caches the client it creates.
- **Naming and builders**:
  - `Naming` (`naming.dfy`): container, attached and image names, and host and domain names;
  - `Builders` (`builders.dfy`): every `get_*_kwargs` builder of the base policy. Each one is a function from its inputs to a `Result` of keyword arguments, plus, for those that pop `host_config` out of the caller's dictionary, a method on `KwargsDict` that does so;
  - `Policy` (`policy.dfy`): `get_clients`, and the reversal behind `get_dependencies` and `get_dependents`.
- **Actions** (`Actions`, `actions.dfy`):
  - the action-generation template `get_actions`, as a class that records every `generate_item_actions` call;
  - the attached-volume preparation `prepare_container`, as a sequence of calls to an engine class whose failures are a parameter.

Values are the `Value` datatype (`values.dfy`): `NotSet`, `None`, strings, integers, booleans, lists, tuples and dictionaries. Keyword arguments are `map<string, Value>`. Errors raised by the code are `Failure` results carrying `KeyError`, `ValueError`, `TypeError` or `AttributeError`.

Quirks of the code that the model keeps:

- `key in ('command' or 'entrypoint')` tests whether `key` is a substring of `"command"`. So a `command` update overwrites, while an `entrypoint` list update extends the existing list.
- The create builders remove `host_config` from the caller's dictionary.
- `get_actions` passes its own map name, not the dependency's, to `generate_item_actions`.
- `get_actions` wraps any truthy `instances` argument in a one-element list.
- Merging `clients` into a configuration whose clients were never set raises `AttributeError` (`NotSet` has no `extend`). By then instances, shares and attaches have already been merged.

Simplifications:

- The client's interfaces are a `map<string, string>`.
- An unset attribute dictionary such as `create_options` is an empty map. `init_options` then returns it unchanged.

## Model

| member | source | states |
|---|---|---|
| Values.KwargsValue | dockermap/map/policy/base.py:230 | a keyword dictionary as a dictionary value has exactly the same keys, as strings, with the same values |
| Values.Partition | dockermap/map/policy/utils.py:36 | `str.partition`: without the separator the string is returned whole; otherwise the part before the first separator, the separator and the rest, which concatenate back to the string |
| Values.NatToDecimalRoundTrip | dockermap/map/policy/utils.py:34-35 | parsing the decimal rendering of a natural number gives the number back |
| Values.IntToDecimalRoundTrip | dockermap/map/policy/utils.py:34-35 | parsing `str(i)` gives `i` back, negative numbers included |
| Values.IntToDecimalInjective | dockermap/map/policy/utils.py:34-35 | different user ids render as different strings |
| Values.BuildDictFailure | dockermap/map/policy/utils.py:192-198 | building a dictionary from entries succeeds exactly when every entry succeeds; otherwise it fails with the error of the first failing entry |
| Values.BuildDictKeys | dockermap/map/policy/utils.py:213-224 | the dictionary has a key exactly when some entry provides it |
| Values.BuildDictLastWins | dockermap/map/policy/utils.py:196 | a key holds the value of the last entry providing it |
| Values.CollectAllSuccess | dockermap/map/policy/utils.py:175 | a list comprehension succeeds exactly when every element succeeds, keeps their values in order, and otherwise fails with the first error |
| Input.PathValue | dockermap/map/config.py:18-40 | a host path value is a string, `None` or a per-instance dictionary |
| Input.PathTable | dockermap/map/config.py:32-36 | the per-instance path dictionary holds exactly the instance entries, as strings |
| Input.IsPathExamples | tests/test_input.py:14-22 | `None`, `''`, `.` and a bare name are not paths; `/`, `/test`, `./` and `./test` are |
| Config.JoinPath | dockermap/map/config.py:38 | `posixpath.join`: an absolute path replaces the root; otherwise root and path are concatenated, with a `/` added only when the root is non-empty and does not already end in one |
| Config.JoinPathSeam | dockermap/map/config.py:37-38 | a relative path joined under a non-empty root keeps the root as prefix and the path as suffix with exactly one `/` at the seam: the root's trailing one, or a single added one |
| Config.InstanceKey | dockermap/map/config.py:33-35 | the per-instance lookup key is the instance, or `'default'` when the instance is empty or absent |
| Config.GetHostPath | dockermap/map/config.py:18-40 | no path when the selected path is missing; a relative path is joined under a non-empty root; anything else is returned as it is |
| Config.GetHostPathUnderAbsoluteRoot | dockermap/map/config.py:37-40 | under an absolute root the host path is absolute and ends with the configured path |
| Config.GetHostPathPerInstance | dockermap/map/config.py:32-36 | a per-instance path yields a host path exactly when there is an entry for the instance (or `'default'`); an absent instance behaves like `'default'` |
| Config.HostVolumeGet | dockermap/map/config.py:506-507 | an unknown alias has no host path; a known alias is resolved with `get_host_path` under the host root |
| Config.DefaultConfig | dockermap/map/config.py:49-69 | a new configuration has no image, user, permissions, persistence flag, clients, stop timeout or network; empty instance, share, environment, bind, use, link, attach and expose lists; and empty option dictionaries |
| Config.MergeIntoDefault | dockermap/map/config.py:423-477 | merging into a new configuration raises `AttributeError` whenever the update names clients; otherwise the result has the update's keyed lists, image, user and option dictionaries, and its instances without repetitions |
| Config.MergeUniqueProperties | dockermap/map/config.py:439-441 | `_merge_list` keeps the current list as a prefix, contains exactly the elements of both lists, and appends only new, distinct elements |
| Config.MergeFirstProperties | dockermap/map/config.py:423-427 | `_merge_first` keeps the current list as a prefix and appends exactly the update entries whose key is not a key of the current list |
| Config.ExtendUnique | dockermap/map/config.py:439-441 | the in-place extension loop yields the `_merge_list` result |
| Config.ExtendFirst | dockermap/map/config.py:423-427 | the in-place `_merge_first` loop yields its specification |
| Config.MergeUnsupported | dockermap/map/config.py:464-465 | merging anything but a configuration or a dictionary raises `ValueError` and changes nothing |
| Config.MergeClientsIntoNotSet | dockermap/map/config.py:467-468 | client names merged into never-set clients raise `AttributeError` after instances were merged and before binds or single values are |
| Config.MergeKeepsCurrentInstances | dockermap/map/config.py:435-468 | merged instances keep the current ones in order and gain exactly the update's instances that are not present yet |
| Config.MergeBindsFirstWins | dockermap/map/config.py:423-472 | merged binds keep the current ones and gain exactly the update binds whose volume is not yet bound |
| Config.MergeSingleAttributes | dockermap/map/config.py:429-477 | with `lists_only` single and dictionary attributes stay; otherwise user, stop timeout and image are overwritten exactly when the update sets them |
| Config.MergeDictAttributes | dockermap/map/config.py:443-477 | dictionary attributes take the update's value on a common key and keep the current value on every other key; host options take start options before the update's host configuration |
| Config.ContainerConfiguration.constructor | dockermap/map/config.py:49-69 | the new configuration holds the given attribute values |
| Config.ContainerConfiguration.Empty | dockermap/map/config.py:49-69 | a configuration constructed without arguments holds the default attributes |
| Config.ContainerConfiguration.Merge | dockermap/map/config.py:406-477 | the configuration afterwards and the outcome are those of the merge specification |
| Config.ContainerConfiguration.MergePlain | dockermap/map/config.py:439-468 | instances, shares and attaches are extended by `_merge_list`; nothing else changes |
| Config.ContainerConfiguration.MergeKeyed | dockermap/map/config.py:423-472 | binds, uses, links and exposes are extended by `_merge_first`; nothing else changes |
| Config.ContainerConfiguration.MergeLists | dockermap/map/config.py:467-472 | all list attributes are merged, or clients raise, as the list specification says |
| Config.ContainerConfiguration.MergeOptionals | dockermap/map/config.py:429-475 | image, permissions and persistence are overwritten only by a set update; nothing else changes |
| Config.ContainerConfiguration.MergeValues | dockermap/map/config.py:429-475 | user, stop timeout and network are overwritten only by an update that is neither `None` nor `NotSet`; nothing else changes |
| Config.ContainerConfiguration.MergeOthers | dockermap/map/config.py:443-477 | the single and dictionary attributes afterwards are those of the specification |
| Config.GetInitKwargs | dockermap/map/config.py:550-563 | the init arguments are exactly the truthy settings among `base_url`, `version`, `timeout` and `tls`, with their values |
| Config.ClientConfiguration.constructor | dockermap/map/config.py:527-536 | the configuration holds the given settings, interfaces and client, and has made no client |
| Config.ClientConfiguration.GetClient | dockermap/map/config.py:565-577 | a cached client is returned without making one; otherwise exactly one client is made from the init arguments and cached |
| Config.GetClientTwice | dockermap/map/config.py:565-577 | two calls return the same client and make at most one, none if one was cached |
| PolicyUtils.ExtractUser | dockermap/map/policy/utils.py:15-36 | falsy users other than `0` give `None`; an int gives its decimal string; a tuple gives its first element; a string gives its part before `:`; a list or dictionary raises `AttributeError` |
| PolicyUtils.ExtractUserOfUserGroup | dockermap/map/policy/utils.py:36 | `"user:group"` gives `"user"` |
| PolicyUtils.ExtractUserOfUid | dockermap/map/policy/utils.py:34-35 | a uid gives a string that parses back to the uid |
| PolicyUtils.KwargsDict.constructor | dockermap/map/policy/utils.py:39-88 | the dictionary starts with the given entries |
| PolicyUtils.KwargsDict.Update | dockermap/map/policy/utils.py:60-88 | `update_kwargs` leaves the dictionary equal to the updates applied left to right |
| PolicyUtils.KwargsDict.UpdateWith | dockermap/map/policy/utils.py:62-88 | one update dictionary, applied key by key, gives the one-update specification |
| PolicyUtils.KwargsDict.Pop | dockermap/map/policy/base.py:225 | `pop(key, None)` returns the value or `None` and removes exactly that key |
| PolicyUtils.UpdateLeavesOtherKeys | dockermap/map/policy/utils.py:60-66 | a key that no update assigns a non-`None` value keeps its value, or stays absent |
| PolicyUtils.UpdatedKwargsKeys | dockermap/map/policy/utils.py:60-88 | after updating, a key is present exactly when it was before or some update assigns it a non-`None` value |
| PolicyUtils.UpdateWithEmpty | dockermap/map/policy/utils.py:61-62 | an empty update changes nothing |
| PolicyUtils.UpdateExtendsLists | dockermap/map/policy/utils.py:69-79 | a list or tuple update of a non-command key extends an existing list or tuple in order, and otherwise replaces the value with a list |
| PolicyUtils.UpdateMergesDicts | dockermap/map/policy/utils.py:80-86 | a dictionary update merges into an existing dictionary with the update winning, and otherwise replaces the value |
| PolicyUtils.UpdateOverwrites | dockermap/map/policy/utils.py:67-88 | command keys and scalar values are overwritten outright |
| PolicyUtils.CommandOverwrittenEntrypointExtended | dockermap/map/policy/utils.py:67 | a `command` list is replaced, while an `entrypoint` list is extended |
| PolicyUtils.ExtendedKeys | dockermap/map/policy/utils.py:67 | `ports` and `binds` are no substrings of `command`, so their updates extend and merge rather than overwrite |
| PolicyUtils.PortsExample | dockermap/map/policy/utils.py:69-79 | ports `[80, 443]` updated with `[22]` give `[80, 443, 22]` |
| PolicyUtils.HostKey | dockermap/map/policy/utils.py:196 | a bind's host path key is the host path as a string when there is one, and `None` otherwise |
| PolicyUtils.SharedVolumePath | dockermap/map/policy/utils.py:108-133 | a 2-tuple with a path first gives `(container path, host path)` and any other tuple raises `ValueError`; an alias gives its container and host paths, or raises `KeyError` when it has no container path |
| PolicyUtils.VolumesOrder | dockermap/map/policy/utils.py:155-176 | the volumes are the shares followed by one container path per bind, in order; any unresolvable bind makes it fail |
| PolicyUtils.GetVolumes | dockermap/map/policy/utils.py:155-176 | the loop yields the volumes specification |
| PolicyUtils.GetHostBinds | dockermap/map/policy/utils.py:179-198 | the loop yields the host-binds specification |
| PolicyUtils.HostBindsFailure | dockermap/map/policy/utils.py:192-195 | host binds succeed exactly when every bind resolves, and otherwise fail with a resolution error |
| PolicyUtils.HostBindsLastWins | dockermap/map/policy/utils.py:192-198 | each host path maps to `{bind, ro}` of the last bind of that host path |
| PolicyUtils.GetPortBindings | dockermap/map/policy/utils.py:201-224 | the loop yields the port-bindings specification |
| PolicyUtils.PortBindingsFailure | dockermap/map/policy/utils.py:217-219 | port bindings fail, with `ValueError`, exactly when some binding names an interface the client has no address for |
| PolicyUtils.PortBindingsEntries | dockermap/map/policy/utils.py:213-224 | a port is bound exactly when some entry has a host port; the last such entry gives `(address, port)` with an interface and the host port alone without |
| PolicyUtils.GetEnvironment | dockermap/map/policy/utils.py:136-153 | a list environment is returned as it is, and anything that is neither list nor dictionary gives an empty list |
| PolicyUtils.RenderEnvironmentPerKey | dockermap/map/policy/utils.py:147-149 | the rendering has one `key=value` line per enumerated key, in enumeration order |
| PolicyUtils.GetEnvironmentOfDict | dockermap/map/policy/utils.py:146-149 | a dictionary environment gives exactly one `key=value` line per entry |
| PolicyUtils.IsInitial | dockermap/map/policy/utils.py:227-236 | a state without `StartedAt` raises `KeyError`; otherwise it is initial exactly when `StartedAt` is `0001-01-01T00:00:00Z` |
| Naming.Cname | dockermap/map/policy/base.py:56-76 | `map.container`, with `.instance` appended for a non-empty instance |
| Naming.Aname | dockermap/map/policy/base.py:78-97 | `map.attached`, or `map.parent.attached` for a non-empty parent name |
| Naming.InstanceOrNone | dockermap/map/policy/base.py:118-119 | an empty instance part is no instance |
| Naming.ResolveCname | dockermap/map/policy/base.py:100-123 | a name with nothing after its first dot raises `ValueError`; otherwise the map and configuration parts contain no dot |
| Naming.ResolveLocalCname | dockermap/map/policy/base.py:120-123 | without the map, the configuration part has no dot and a dotless name is the configuration alone |
| Naming.ResolveCnameOfCname | dockermap/map/policy/base.py:73-119 | `resolve_cname(cname(m, c, i))` is `(m, c, i)` for a non-empty instance and `(m, c, None)` otherwise, when `m` and `c` have no dots |
| Naming.ResolveLocalCnameOfName | dockermap/map/policy/base.py:120-123 | `container.instance` within a map resolves to `(container, instance)` |
| Naming.Iname | dockermap/map/policy/base.py:125-154 | a leading slash is dropped; another name with a slash is kept; a plain name gets the map's repository as prefix when there is one |
| Naming.InameIdempotent | dockermap/map/policy/base.py:147-154 | naming an already named image changes nothing |
| Naming.InameExample | dockermap/map/policy/base.py:147-154 | `nginx` in a map with repository `registry.example.com` is `registry.example.com/nginx` |
| Naming.GetHostname | dockermap/map/policy/base.py:157-168 | the container name for the default client, `name-client` otherwise |
| Naming.GetHostnameInjective | dockermap/map/policy/base.py:157-168 | on one client, different containers get different host names |
| Naming.GetDomainname | dockermap/map/policy/base.py:171-182 | the client's `domainname` setting if present, else the map's default domain |
| Policy.ClientNames | dockermap/map/policy/base.py:585-594 | the configuration's clients if it names any, else the map's, else the default client; never empty |
| Policy.FirstMissing | dockermap/map/policy/base.py:585-587 | the position of the first client name without a configuration: all names before it are configured |
| Policy.GetClients | dockermap/map/policy/base.py:572-594 | fails with `KeyError` of the first name without a configuration; otherwise one entry per name, in order, each client the cached or a new one; in both outcomes every name before the failing one has its client made and cached, a configuration none of those names refers to keeps its client and construction count, and settings and interfaces stay |
| Policy.FetchClients | dockermap/map/policy/base.py:585-594 | the loop over the client names stops at the first name without a configuration; every name before it gets its configuration's cached or new client, cached there; configurations none of those names refers to keep their client and construction count |
| Policy.Reversed | dockermap/map/policy/base.py:596-620 | the dependency path is the resolver's list backwards |
| Policy.ReversedReversed | dockermap/map/policy/base.py:607-620 | reversing the path again gives the resolver's order |
| Policy.ReversedSameItems | dockermap/map/policy/base.py:607-620 | the path visits exactly the resolver's items, each as often |
| Builders.AsKwargs | dockermap/map/policy/utils.py:61-67 | a falsy update is empty; in a dictionary, `None` entries are skipped whatever their key, and a set value under a non-string key raises `TypeError` in the `key in 'command'` test; otherwise the update is the dictionary's string-keyed entries; other truthy values raise `AttributeError` |
| Builders.AsKwargsOfKwargs | dockermap/map/policy/base.py:230 | a keyword dictionary passed on as a value comes back unchanged |
| Builders.ExposedPortsMembers | dockermap/map/policy/base.py:217-218 | the `ports` argument holds exactly the set exposed ports, and no more entries than there are bindings |
| Builders.ExposedPortsConcat | dockermap/map/policy/base.py:217-218 | the ports list keeps the bindings' order and repetitions: the ports of consecutive runs of bindings are concatenated |
| Builders.ExposedPortsSingle | dockermap/map/policy/base.py:217-218 | one binding contributes its exposed port exactly when the port is set |
| Builders.GetCreateKwargs | dockermap/map/policy/base.py:185-232 | the result is the create specification's, and `host_config` was popped from the caller's dictionary once the base was built |
| Builders.CreateBaseOutcome | dockermap/map/policy/base.py:212-222 | the create base succeeds exactly when the volumes and the user resolve, failing with the volumes error first |
| Builders.CreateBaseFields | dockermap/map/policy/base.py:212-224 | name, image, volumes, user, ports, hostname (only with `set_hostname`), domain name and environment; `network_disabled` exactly when the network is `'disabled'` |
| Builders.CreateKwargsKeepsBase | dockermap/map/policy/base.py:231 | a key neither the create options nor the caller assign keeps its base value |
| Builders.CreateKwargsHostConfig | dockermap/map/policy/base.py:225-230 | with host configuration included, `host_config` is the host-config builder's result for the popped `host_config` argument; without, there is none |
| Builders.CreateKwargsExtendsPorts | dockermap/map/policy/base.py:217-231 | caller ports extend the exposed ports |
| Builders.VolumesFrom | dockermap/map/policy/base.py:257-270 | the used containers (with `:ro` when read-only), then the attached volumes named with the parent exactly when the map asks for it |
| Builders.LinkTableEntries | dockermap/map/policy/base.py:272 | the links map exactly the linked containers' names, each to the alias of its last link |
| Builders.HostConfigKwargsOutcome | dockermap/map/policy/base.py:271-285 | the host configuration succeeds exactly when binds, port bindings and the caller's update do, failing with the binds error first |
| Builders.HostConfigBaseFields | dockermap/map/policy/base.py:257-283 | volumes from, network mode, links, and `container` exactly for a non-empty container name |
| Builders.HostConfigKwargsFields | dockermap/map/policy/base.py:284 | those fields survive unless the host options or the caller assign them |
| Builders.HostConfigKeepsBaseKey | dockermap/map/policy/base.py:284 | a key neither the host options nor the caller assign keeps its assembled value |
| Builders.HostConfigBaseBinds | dockermap/map/policy/base.py:274 | `binds` is the host-binds dictionary |
| Builders.HostConfigMergesBinds | dockermap/map/policy/base.py:274-284 | caller binds merge into the configured binds, the caller winning on a host path |
| Builders.HostOptionsKeepBinds | dockermap/map/policy/base.py:274-284 | host options without `binds` leave the configured binds |
| Builders.NetworkModeExample | dockermap/map/policy/base.py:277-283 | a network tuple `(app_server, instance1)` in map `main` gives `main.app_server.instance1` |
| Builders.AttachedHostConfigFields | dockermap/map/policy/base.py:340-366 | the attached host configuration names the container when there is one, unless overridden, and holds nothing else but the caller's keys |
| Builders.GetAttachedCreateKwargs | dockermap/map/policy/base.py:295-337 | the result is the attached create specification's, and `host_config` was popped once the base was built |
| Builders.AttachedCreateStartFields | dockermap/map/policy/base.py:320-336 | an unknown alias raises `KeyError`; otherwise name, base image, the alias's volume path, user and `network_disabled` |
| Builders.AttachedCreateKwargsKeepsStart | dockermap/map/policy/base.py:336 | a key the caller does not assign keeps its value |
| Builders.GetPreparationCreateKwargs | dockermap/map/policy/base.py:376-429 | the result is the preparation create specification's, and `host_config` was popped when the alias is known |
| Builders.PreparationCommandSteps | dockermap/map/policy/base.py:406-418 | `chown -R` only with a user, `chmod -R` only with permissions, joined with ` && `, empty with neither |
| Builders.ChownStepExample | dockermap/map/policy/base.py:407-409 | user 2000 gives `chown -R 2000:2000 <path>` |
| Builders.ChmodStepExample | dockermap/map/policy/base.py:410-412 | permissions give `chmod -R <permissions> <path>` |
| Builders.PreparationCommandExample | dockermap/map/policy/base.py:406-418 | both steps joined with ` && ` |
| Builders.PreparationHostConfigOfNothing | dockermap/map/policy/base.py:432-464 | without container or caller arguments the preparation host configuration is just `volumes_from` of the volume container |
| Builders.PreparationHostConfigFields | dockermap/map/policy/base.py:460-464 | `volumes_from` is the volume container and `container` the container name when there is one, unless the caller sets them; no other keys but the caller's |
| Builders.PreparationHostConfigExample | tests/test_policy_kwargs.py:135-147 | for container `temp` the preparation host configuration is `container='temp'` and `volumes_from` of the volume container |
| Builders.PreparationCreateStartFields | dockermap/map/policy/base.py:414-427 | an unknown alias raises `KeyError`; otherwise, before the caller's arguments, exactly image (core image), command, `user='root'`, `network_disabled=True`, and the preparation host configuration exactly when it is included |
| Builders.PreparationCreateKwargsKeepsStart | dockermap/map/policy/base.py:421-428 | every start entry the caller does not set reaches the preparation create arguments unchanged |
| Builders.PreparationRunsAsRoot | dockermap/map/policy/base.py:415-428 | with or without the host configuration and whatever else the caller adds, the preparation container has `user='root'` and `network_disabled=True` unless the caller sets those keys |
| Builders.PreparationCreateKwargsFields | dockermap/map/policy/base.py:376-429 | without caller arguments, for either choice of the host configuration: an unknown alias raises `KeyError`; otherwise exactly image (core image), command, `user='root'`, `network_disabled=True`, and `host_config` mounting the volume container exactly when included |
| Builders.StopKwargsTimeout | dockermap/map/policy/base.py:498-541 | with an unset stop timeout the client's is used unless `None`, in which case there is none; otherwise the configuration's |
| Builders.StopKwargsExample | dockermap/map/policy/base.py:509-543 | a client stop timeout of 5 gives `{container, timeout: 5}` |
| Builders.RemoveKwargsFields | dockermap/map/policy/base.py:546-570 | the container unless overridden, and nothing else but the caller's keys |
| Builders.RemoveKwargsNonStringKey | dockermap/map/policy/base.py:568-569 | a `None` entry under a non-string key leaves the remove arguments as just the container; a set value under such a key raises `TypeError` |
| Actions.InstanceValue | dockermap/map/policy/base.py:888-889 | a path instance as a value, `None` when absent |
| Actions.ItemInstances | dockermap/map/policy/base.py:885 | a truthy instance argument as a one-element list, else the configuration's instances, else `[None]`; never empty |
| Actions.ItemCallFor | dockermap/map/policy/base.py:879-886 | an unknown map or configuration raises `KeyError`; otherwise the call carries the outer map name, the item's own map and configuration, its instances, flags and arguments |
| Actions.Requests | dockermap/map/policy/base.py:888-891 | one request per path item, with the dependency flag and no arguments, then the target with flags 0 and the caller's arguments |
| Actions.Run | dockermap/map/policy/base.py:888-891 | the calls made stop short of the requests exactly when one fails |
| Actions.RunCallsInOrder | dockermap/map/policy/base.py:888-891 | each call made is the one its request resolves to, in order, and a failure is that of the next request |
| Actions.ActionGenerator.constructor | dockermap/map/policy/base.py:958-972 | a generator over the given maps, dependency resolver and item action, with no calls made |
| Actions.ActionGenerator.GenerateItemActions | dockermap/map/policy/base.py:886 | records the call and returns the item's actions |
| Actions.ActionGenerator.GenActions | dockermap/map/policy/base.py:879-886 | a request that does not resolve fails with no call; otherwise one call, whose actions are returned |
| Actions.ActionGenerator.HandleDependencies | dockermap/map/policy/base.py:889-890 | the dependency loop makes the run's calls and stops at its failure |
| Actions.ActionGenerator.GetActions | dockermap/map/policy/base.py:865-891 | the calls are the run's over the reversed dependency path and the target; the result is the failure or the target's actions alone |
| Actions.GetActionsCalls | dockermap/map/policy/base.py:879-891 | when the run succeeds: every path item in order, with the dependency flag, no arguments and the outer map name, then the target with flags 0, the caller's arguments and its instances |
| Actions.GetActionsFailure | dockermap/map/policy/base.py:880-884 | the first unknown map or configuration raises `KeyError` with its name, after exactly the calls before it |
| Actions.Engine.constructor | dockermap/map/policy/base.py:934-955 | an engine with the given failures and container id, with no calls |
| Actions.Engine.Call | dockermap/map/policy/base.py:934-955 | records the call, which succeeds unless it fails |
| Actions.PreparationStartKwargs | dockermap/map/policy/base.py:945-951 | with host configuration the start names only the container; without, it is the preparation host configuration of the temporary container |
| Actions.PrepareContainer | dockermap/map/policy/base.py:934-955 | the engine calls and outcome are the preparation trace's |
| Actions.CreateAndRun | dockermap/map/policy/base.py:941-955 | ensuring the image, creating and running the temporary container make the trace's calls |
| Actions.RunTemporary | dockermap/map/policy/base.py:944-955 | start, wait and the removal in `finally` make the trace's calls |
| Actions.TemporaryRemovedLast | dockermap/map/policy/base.py:944-955 | the temporary container is removed last, whatever fails before |
| Actions.PreparationRemovesTemporary | dockermap/map/policy/base.py:934-955 | the trace ends with removing the temporary container exactly when it was created, and removes nothing before |
| Actions.CreatedRemovesTemporary | dockermap/map/policy/base.py:941-955 | after a successful create the temporary container is always removed last |
| Actions.PreparationPasses | dockermap/map/policy/base.py:934-955 | a successful preparation waits for the volume container, ensures the core image, creates, starts, waits for and removes the temporary container, in that order |
| Actions.PreparationCreateImage | dockermap/map/policy/base.py:937-941 | the image ensured is the core image of the create arguments |

## Left out

- `init_options`: a callable option is not modelled. Options are keyword dictionaries, so `init_options` returns them unchanged, and an unset option is the empty dictionary.
- docker-py `create_host_config` is modelled as the keyword dictionary itself, turned into a value.
- `use_host_config` and `compare_version` depend on the engine's API version. Whether the host configuration is included is a parameter.
- The dependency resolver, the container and image caches and `get_extended_map` are not part of this model. The resolver is the generator's `resolved` function, and `get_existing` is a lookup in the map's configurations.
- Lazy values (`resolve_value`) are not modelled: all values are already resolved.
- Input normalisation (`get_list`, `get_shared_volumes` and the related helpers) is not part of this model. `is_path`, whose definition is in a module outside this model, is modelled as the test that a string starts with `/` or `./`, which agrees with its tests. Shared volumes, links, port bindings and networks are given as normalised records. An environment is stored as given: a list of lines, a dictionary, or anything else.
- `get_user_group` and `str_arg` are not part of this model. They are the uninterpreted functions of a `Shortcuts` record.
- `core_image` and `base_image` are fields of a `PolicyImages` record, because their constants are not part of this model.
- `ContainerConfiguration.update`, the property setters and the other accessors use dynamic `setattr`; the configuration is a record with a fixed set of fields instead.
- The optional verbs that only raise `NotImplementedError` are not modelled.
- The order of a dictionary environment is Python dictionary order. It is given as an `order` parameter naming each key once.
- The `get_*_start_kwargs` methods are aliases of the `get_*_host_config_kwargs` builders, so they have no separate members.
- `generate_item_actions` is the generator's `itemActions` function. The model captures neither exceptions raised inside it nor the laziness of its result.
- `ACTION_DEPENDENCY_FLAG` is the `DependencyFlag` constructor.
- The engine client and `DockerClientWrapper` are not modelled: a made client is a `Client` value holding its init arguments, and `ensure_image`, `wait`, `create_container`, `start` and `remove_container` are engine calls whose failures are a parameter.
- `prepare_container` calls the preparation create builder with `kwargs=None`. It is modelled with the empty dictionary, which behaves the same.
- Python 2 text types are not distinguished: every string is a `string`.
- GetEnvironment: values of a dictionary environment are strings only. The code renders any value with `"{0}={1}".format`, so an integer or `None` value would give `PORT=8080` or `X=None`; such values cannot be expressed here.
- GetEnvironment and GetCreateKwargs do not model aliasing. `get_environment` returns the configuration's own environment list, and `get_create_kwargs` puts that list object into its result. A later `environment` list from the create options or the caller's `kwargs` is then appended to it in place by `update_kwargs`, which changes the configuration itself, so a second identical call would repeat the appended lines. The model works on values: every call starts from the configuration's list as stored.
