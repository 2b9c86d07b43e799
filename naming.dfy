/**
 * Container, attached-volume and image naming of the base policy, and the
 * host and domain names given to new containers.
 */
module Naming {
  import opened Wrappers
  import opened Values
  import opened Input
  import opened Config

  /** The client name used when neither a configuration nor its map names any. */
  const DefaultClientName: string := "__default__"

  /** `cname`: `<map>.<container>`, or `<map>.<container>.<instance>` for a non-empty instance. */
  function Cname(mapName: string, container: string, instance: Option<string>): (r: string)
    ensures Present(instance) ==> r == mapName + "." + container + "." + instance.value
    ensures !Present(instance) ==> r == mapName + "." + container
  {
    if Present(instance) then mapName + "." + container + "." + instance.value
    else mapName + "." + container
  }

  /** `aname`: `<map>.<attached>`, or `<map>.<parent>.<attached>` for a non-empty parent name. */
  function Aname(mapName: string, attached: string, parent: Option<string>): (r: string)
    ensures Present(parent) ==> r == mapName + "." + parent.value + "." + attached
    ensures !Present(parent) ==> r == mapName + "." + attached
  {
    if Present(parent) then mapName + "." + parent.value + "." + attached
    else mapName + "." + attached
  }

  /** An empty instance part counts as none. */
  function InstanceOrNone(i: string): (r: Option<string>)
    ensures r.None? <==> i == ""
    ensures r.Some? ==> r.value == i
  {
    if i == "" then None else Some(i)
  }

  /**
   * `resolve_cname` for a name that includes the map: the map name before the
   * first dot, the configuration name up to the next dot, and the rest as the
   * instance. A name with nothing after its first dot raises `ValueError`.
   */
  function ResolveCname(name: string): (r: Result<(string, string, Option<string>)>)
    ensures r.Failure? <==> Partition(name, '.').2 == ""
    ensures r.Failure? ==> r.error.ValueError?
    ensures r.Success? ==> '.' !in r.value.0 && '.' !in r.value.1
  {
    var (mapName, _, rest) := Partition(name, '.');
    if rest == "" then Failure(ValueError("Invalid container name: " + name))
    else
      var (config, _, instance) := Partition(rest, '.');
      Success((mapName, config, InstanceOrNone(instance)))
  }

  /** `resolve_cname(name, includes_map=False)`: the configuration name and the instance. */
  function ResolveLocalCname(name: string): (r: (string, Option<string>))
    ensures '.' !in r.0
    ensures '.' !in name ==> r == (name, None)
  {
    var (config, _, instance) := Partition(name, '.');
    (config, InstanceOrNone(instance))
  }

  /** Splitting `a + "." + b` at its first dot, when `a` has none. */
  lemma PartitionAtFirstDot(a: string, b: string)
    requires '.' !in a
    ensures Partition(a + "." + b, '.') == (a, ".", b)
  {
    var s := a + "." + b;
    var (x, _, y) := Partition(s, '.');
    assert s[|a|] == '.';
    assert s[..|a|] == a;
    assert x == s[..|x|];
    assert y == s[|x| + 1..];
  }

  /**
   * `resolve_cname` inverts `cname` when the map and configuration names have
   * no dots and the configuration name is not empty.
   */
  lemma ResolveCnameOfCname(mapName: string, container: string, instance: Option<string>)
    requires '.' !in mapName && '.' !in container && container != ""
    ensures ResolveCname(Cname(mapName, container, instance)) ==
            Success((mapName, container, if Present(instance) then instance else None))
  {
    if Present(instance) {
      assert Cname(mapName, container, instance) == mapName + "." + (container + "." + instance.value);
      PartitionAtFirstDot(mapName, container + "." + instance.value);
      PartitionAtFirstDot(container, instance.value);
    } else {
      PartitionAtFirstDot(mapName, container);
      assert Partition(container, '.') == (container, "", "");
    }
  }

  /** Within a map, `resolve_cname(..., includes_map=False)` inverts `<container>.<instance>`. */
  lemma ResolveLocalCnameOfName(container: string, instance: string)
    requires '.' !in container && instance != ""
    ensures ResolveLocalCname(container + "." + instance) == (container, Some(instance))
  {
    PartitionAtFirstDot(container, instance);
  }

  /**
   * `iname`: a name with a slash is used as is, except that a leading slash
   * is dropped; a plain name is prefixed with the map's repository if it has one.
   */
  function Iname(cmap: ContainerMap, image: string): (r: string)
    ensures '/' in image && image[0] == '/' ==> r == image[1..]
    ensures '/' in image && image[0] != '/' ==> r == image
    ensures '/' !in image && cmap.repository != "" ==> r == cmap.repository + "/" + image
    ensures '/' !in image && cmap.repository == "" ==> r == image
  {
    if '/' in image then
      if image[0] == '/' then image[1..] else image
    else if cmap.repository != "" then cmap.repository + "/" + image
    else image
  }

  /** A name `iname` prefixed, or left alone because it already names a repository, is left alone again. */
  lemma InameIdempotent(cmap: ContainerMap, image: string)
    requires image != "" && image[0] != '/'
    requires cmap.repository == "" || cmap.repository[0] != '/'
    ensures Iname(cmap, Iname(cmap, image)) == Iname(cmap, image)
  {
    if '/' !in image && cmap.repository != "" {
      var r := cmap.repository + "/" + image;
      assert r[|cmap.repository|] == '/';
    }
  }

  /** The map's repository prefixes a plain image name. */
  lemma InameExample(cmap: ContainerMap)
    requires cmap.repository == "registry.example.com"
    ensures Iname(cmap, "nginx") == "registry.example.com/nginx"
  {
    assert '/' !in "nginx";
  }

  /** `get_hostname`: the container name, suffixed with `-<client>` unless the client is the default one. */
  function GetHostname(clientName: string, containerName: string): (r: string)
    ensures clientName == DefaultClientName ==> r == containerName
    ensures clientName != DefaultClientName ==> r == containerName + "-" + clientName
  {
    if clientName == DefaultClientName then containerName else containerName + "-" + clientName
  }

  /** On one client, different containers get different host names. */
  lemma GetHostnameInjective(clientName: string, a: string, b: string)
    requires GetHostname(clientName, a) == GetHostname(clientName, b)
    ensures a == b
  {
    if clientName != DefaultClientName {
      assert a == GetHostname(clientName, a)[..|a|];
      assert b == GetHostname(clientName, b)[..|b|];
    }
  }

  /** `get_domainname`: the client's `domainname` setting if it has one (even `None`), else the map's default domain. */
  function GetDomainname(cmap: ContainerMap, client: ClientView): (r: Value)
    ensures "domainname" in client.settings ==> r == client.settings["domainname"]
    ensures "domainname" !in client.settings ==> r == cmap.defaultDomain
  {
    if "domainname" in client.settings then client.settings["domainname"] else cmap.defaultDomain
  }
}
