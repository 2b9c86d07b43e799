/**
 * The normalised value records that configuration input is converted into
 * before the modelled code sees it (volume shares, links, port bindings,
 * network modes, environments). The conversion itself is not modelled; these
 * are the shapes it produces.
 */
module Input {
  import opened Wrappers
  import opened Values

  /** A host path: unset, one path, or a table of per-instance paths (with a `'default'` entry). */
  datatype HostPath = NoPath | Path(path: string) | PerInstance(paths: map<string, string>)

  /** The volume of a host bind: an alias of the map's volume tables, or a tuple of paths. */
  datatype VolumeRef = Alias(name: string) | PathTuple(parts: seq<HostPath>)

  /** A `SharedVolume` in a configuration's `binds`. */
  datatype HostVolume = HostVolume(volume: VolumeRef, readonly: bool)

  /** A `SharedVolume` in a configuration's `uses`: a container or attached-volume name. */
  datatype SharedVolume = SharedVolume(volume: string, readonly: bool)

  /** A `ContainerLink`: the linked configuration (optionally `name.instance`) and the alias. */
  datatype ContainerLink = ContainerLink(container: string, alias: string)

  /** A `PortBinding`; an empty `interface` stands for none. */
  datatype PortBinding = PortBinding(exposedPort: Value, hostPort: Value, interface: string)

  /** A network setting: unset, `None`, a mode string, or a `(container, instance)` reference. */
  datatype Network =
    | NetworkNotSet
    | NetworkNone
    | NetworkMode(mode: string)
    | NetworkContainer(container: string, instance: Option<string>)

  /** A configuration's environment: a list of `KEY=VALUE` strings, a mapping, or anything else. */
  datatype Environment = EnvList(vars: seq<string>) | EnvDict(table: map<string, string>) | EnvOther

  /** Python truthiness of an optional name (`None` and `''` are falsy). */
  predicate Present(name: Option<string>) {
    name.Some? && name.value != ""
  }

  /** `is_path`: a string that starts with `/` or `./`. */
  predicate IsPath(p: HostPath) {
    p.Path? && (StartsWith(p.path, "/") || StartsWith(p.path, "./"))
  }

  /** Only strings starting with `/` or `./` count as paths: not `None`, `''`, `.` or a bare name. */
  lemma IsPathExamples()
    ensures !IsPath(NoPath) && !IsPath(Path("")) && !IsPath(Path(".")) && !IsPath(Path("test"))
    ensures IsPath(Path("/")) && IsPath(Path("/test")) && IsPath(Path("./")) && IsPath(Path("./test"))
  {
    assert "test"[0] == 't' && "test"[..1] == "t" && "test"[..2] == "te";
    assert !StartsWith(".", "./") && !StartsWith("test", "/") && !StartsWith("test", "./");
  }

  /** A path element as the Python value it stands for. */
  function PathValue(p: HostPath): (v: Value)
    ensures p.Path? ==> v == Str(p.path)
    ensures p.NoPath? ==> v == Null
    ensures p.PerInstance? ==> v.Dict?
  {
    match p
    case NoPath => Null
    case Path(s) => Str(s)
    case PerInstance(m) => Dict(PathTable(m))
  }

  function PathTable(m: map<string, string>): (t: map<Value, Value>)
    ensures forall k :: k in m ==> Str(k) in t && t[Str(k)] == Str(m[k])
    ensures forall key :: key in t ==> key.Str? && key.s in m
  {
    map key | key in (set k | k in m :: Str(k)) :: Str(m[key.s])
  }
}
