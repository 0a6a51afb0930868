/** The configuration resolver of loadconfd (config.go): the `Config` record,
    the seeded defaults, the overlay of a decoded TOML file, the overlay of the
    command-line flags the user supplied, and the derivation of backend nodes
    when none were configured.

    The pure functions here are the specification; the class `Loadconfd`
    holds the package-level state that `initConfig` changes step by step and
    is proved against them. File reading, TOML decoding, `os.Stat` and
    `os.Getenv` are inputs. */
module Configuration {
  import opened Wrappers
  import opened Strings

  /** Go's `int` on the 64-bit platforms the daemon is built for. */
  newtype Int64 = x: int | -0x8000_0000_0000_0000 <= x < 0x8000_0000_0000_0000

  /** The `Config` struct. In the TOML file, `backend` is read from the key
      `backends`, `backendNodes` from `nodes` and `clientCaKeys` from
      `client_cakeys`. */
  datatype Config = Config(
    backend: string,
    backendNodes: seq<string>,
    clientCaKeys: string,
    clientCert: string,
    clientKey: string,
    confDir: string,
    debug: bool,
    interval: Int64,
    prefix: string,
    quiet: bool,
    scheme: string,
    verbose: bool)

  /** The path tried when no configuration file is named on the command line. */
  const DefaultConfigFile: string := "etc/loadconfd/loadconfd.toml"

  /** The node given to a consul backend that has none configured. */
  const ConsulDefaultNode: string := "127.0.0.1:8500"

  /** The node given to an etcd backend when `ETCDCTL_PEERS` is empty. */
  const EtcdDefaultNode: string := "127.0.0.1:4100"

  /** The record `initConfig` seeds before reading the file or the flags;
      every field not named is Go's zero value. */
  const Defaults: Config :=
    Config("etcd", [], "", "", "", "/etc/loadconfd", false, 600, "/", false, "http", false)

  /** The zero `Config{}` the package-level variable holds before
      `initConfig` runs. */
  const ZeroConfig: Config :=
    Config("", [], "", "", "", "", false, 0, "", false, "", false)

  // ---------------------------------------------------------------------
  // A field-by-field view of a Config, so that "only this field changed"
  // can be said once for all fields.

  datatype Field =
    | Backend | BackendNodes | ClientCaKeys | ClientCert | ClientKey | ConfDir
    | Debug | Interval | Prefix | Quiet | Scheme | Verbose

  datatype Value = Text(text: string) | Texts(items: seq<string>) | Switch(on: bool) | Number(number: Int64)

  function Get(c: Config, f: Field): Value {
    match f
    case Backend => Text(c.backend)
    case BackendNodes => Texts(c.backendNodes)
    case ClientCaKeys => Text(c.clientCaKeys)
    case ClientCert => Text(c.clientCert)
    case ClientKey => Text(c.clientKey)
    case ConfDir => Text(c.confDir)
    case Debug => Switch(c.debug)
    case Interval => Number(c.interval)
    case Prefix => Text(c.prefix)
    case Quiet => Switch(c.quiet)
    case Scheme => Text(c.scheme)
    case Verbose => Switch(c.verbose)
  }

  /** Two records that agree on every field are equal. */
  lemma ConfigExtensionality(a: Config, b: Config)
    requires forall f :: Get(a, f) == Get(b, f)
    ensures a == b
  {
    assert Get(a, Backend) == Get(b, Backend) && Get(a, BackendNodes) == Get(b, BackendNodes);
    assert Get(a, ClientCaKeys) == Get(b, ClientCaKeys) && Get(a, ClientCert) == Get(b, ClientCert);
    assert Get(a, ClientKey) == Get(b, ClientKey) && Get(a, ConfDir) == Get(b, ConfDir);
    assert Get(a, Debug) == Get(b, Debug) && Get(a, Interval) == Get(b, Interval);
    assert Get(a, Prefix) == Get(b, Prefix) && Get(a, Quiet) == Get(b, Quiet);
    assert Get(a, Scheme) == Get(b, Scheme) && Get(a, Verbose) == Get(b, Verbose);
  }

  /** `dst` with field `f` taken from `src`. */
  function CopyField(dst: Config, src: Config, f: Field): (r: Config)
    ensures Get(r, f) == Get(src, f)
    ensures forall g :: g != f ==> Get(r, g) == Get(dst, g)
  {
    match f
    case Backend => dst.(backend := src.backend)
    case BackendNodes => dst.(backendNodes := src.backendNodes)
    case ClientCaKeys => dst.(clientCaKeys := src.clientCaKeys)
    case ClientCert => dst.(clientCert := src.clientCert)
    case ClientKey => dst.(clientKey := src.clientKey)
    case ConfDir => dst.(confDir := src.confDir)
    case Debug => dst.(debug := src.debug)
    case Interval => dst.(interval := src.interval)
    case Prefix => dst.(prefix := src.prefix)
    case Quiet => dst.(quiet := src.quiet)
    case Scheme => dst.(scheme := src.scheme)
    case Verbose => dst.(verbose := src.verbose)
  }

  // ---------------------------------------------------------------------
  // Configuration file selection (config.go:71-75).

  /** The file `initConfig` loads, "" meaning none. An explicit path is kept;
      otherwise the default path is used unless `os.Stat` reported that it
      does not exist (`defaultNotMissing` is false exactly then). */
  function ChosenConfigFile(configFile: string, defaultNotMissing: bool): (path: string)
    ensures configFile != "" ==> path == configFile
    ensures configFile == "" && defaultNotMissing ==> path == DefaultConfigFile
    ensures path == "" <==> configFile == "" && !defaultNotMissing
  {
    if configFile == "" && defaultNotMissing then DefaultConfigFile else configFile
  }

  // ---------------------------------------------------------------------
  // The file overlay (config.go:84-97).

  /** What `toml.Decode` found in the file: one optional value per key
      (`backends`, `nodes`, `client_cakeys`, `client_cert`, `client_key`,
      `confdir`, `debug`, `interval`, `prefix`, `quiet`, `scheme`,
      `verbose`). */
  datatype FilePatch = FilePatch(
    backends: Option<string>,
    nodes: Option<seq<string>>,
    clientCakeys: Option<string>,
    clientCert: Option<string>,
    clientKey: Option<string>,
    confdir: Option<string>,
    debug: Option<bool>,
    interval: Option<Int64>,
    prefix: Option<string>,
    quiet: Option<bool>,
    scheme: Option<string>,
    verbose: Option<bool>)

  /** A file that sets no key. */
  const NoPatch: FilePatch :=
    FilePatch(None, None, None, None, None, None, None, None, None, None, None, None)

  function TextOf(o: Option<string>): Option<Value> {
    if o.Some? then Some(Text(o.value)) else None
  }

  function SwitchOf(o: Option<bool>): Option<Value> {
    if o.Some? then Some(Switch(o.value)) else None
  }

  /** The value the file gives field `f`, if it has the key. */
  function PatchGet(p: FilePatch, f: Field): Option<Value> {
    match f
    case Backend => TextOf(p.backends)
    case BackendNodes => if p.nodes.Some? then Some(Texts(p.nodes.value)) else None
    case ClientCaKeys => TextOf(p.clientCakeys)
    case ClientCert => TextOf(p.clientCert)
    case ClientKey => TextOf(p.clientKey)
    case ConfDir => TextOf(p.confdir)
    case Debug => SwitchOf(p.debug)
    case Interval => if p.interval.Some? then Some(Number(p.interval.value)) else None
    case Prefix => TextOf(p.prefix)
    case Quiet => SwitchOf(p.quiet)
    case Scheme => TextOf(p.scheme)
    case Verbose => SwitchOf(p.verbose)
  }

  /** Decoding the file into `&config`. */
  function Overlay(c: Config, p: FilePatch): (r: Config)
    ensures p == NoPatch ==> r == c
  {
    Config(
      p.backends.GetOr(c.backend),
      p.nodes.GetOr(c.backendNodes),
      p.clientCakeys.GetOr(c.clientCaKeys),
      p.clientCert.GetOr(c.clientCert),
      p.clientKey.GetOr(c.clientKey),
      p.confdir.GetOr(c.confDir),
      p.debug.GetOr(c.debug),
      p.interval.GetOr(c.interval),
      p.prefix.GetOr(c.prefix),
      p.quiet.GetOr(c.quiet),
      p.scheme.GetOr(c.scheme),
      p.verbose.GetOr(c.verbose))
  }

  /** Decoding the file into `&config`: a key the file has overwrites its
      field, and every other field keeps its value. */
  lemma OverlayFields(c: Config, p: FilePatch)
    ensures forall f :: Get(Overlay(c, p), f) == PatchGet(p, f).GetOr(Get(c, f))
  {
    forall f ensures Get(Overlay(c, p), f) == PatchGet(p, f).GetOr(Get(c, f)) {
      match f
      case Backend =>
      case BackendNodes =>
      case ClientCaKeys =>
      case ClientCert =>
      case ClientKey =>
      case ConfDir =>
      case Debug =>
      case Interval =>
      case Prefix =>
      case Quiet =>
      case Scheme =>
      case Verbose =>
    }
  }

  /** What reading and decoding the file at some path gives. */
  datatype FileLoad = ReadFailed(reason: string) | DecodeFailed(reason: string) | Decoded(patch: FilePatch)

  /** The error `initConfig` returns. */
  datatype ConfigError = ReadError(reason: string) | DecodeError(reason: string)

  /** The file layer of the chosen path: no keys when no file is chosen,
      otherwise what `read` gives for it, or the error it fails with. */
  function LoadFile(path: string, read: string -> FileLoad): (r: Result<FilePatch, ConfigError>)
    ensures path == "" ==> r == Success(NoPatch)
    ensures r.Failure? <==> path != "" && !read(path).Decoded?
    ensures r.Failure? ==> r.error.reason == read(path).reason
    ensures r.Failure? ==> (r.error.ReadError? <==> read(path).ReadFailed?)
    ensures r.Success? && path != "" ==> r.value == read(path).patch
  {
    if path == "" then Success(NoPatch)
    else
      match read(path)
      case ReadFailed(e) => Failure(ReadError(e))
      case DecodeFailed(e) => Failure(DecodeError(e))
      case Decoded(p) => Success(p)
  }

  // ---------------------------------------------------------------------
  // The flag overlay (config.go:49-64, 129-159).

  /** The package-level variables the flag package fills from the command
      line, each holding the flag's registered default unless supplied. */
  datatype FlagVars = FlagVars(
    backend: string,
    clientCaKeys: string,
    clientCert: string,
    clientKey: string,
    confdir: string,
    debug: bool,
    interval: Int64,
    nodes: seq<string>,
    prefix: string,
    quiet: bool,
    scheme: string,
    verbose: bool)

  /** The names `init` registers, with `client-ca-keys` spelled as there. */
  const RegisteredFlags: seq<string> := [
    "backend", "client-ca-keys", "client-cert", "client-key", "confdir",
    "config-file", "debug", "interval", "node", "prefix", "version", "quiet",
    "scheme", "verbose"]

  /** The field the `setConfigFromFlag` switch assigns for a flag name, if
      any. The switch spells the CA flag `client-cakeys`, unlike its
      registration. */
  function FlagField(name: string): (f: Option<Field>)
    ensures f == Some(ClientCaKeys) <==> name == "client-cakeys"
  {
    match name
    case "backend" => Some(Backend)
    case "debug" => Some(Debug)
    case "client-cert" => Some(ClientCert)
    case "client-key" => Some(ClientKey)
    case "client-cakeys" => Some(ClientCaKeys)
    case "confdir" => Some(ConfDir)
    case "node" => Some(BackendNodes)
    case "interval" => Some(Interval)
    case "prefix" => Some(Prefix)
    case "quiet" => Some(Quiet)
    case "scheme" => Some(Scheme)
    case "verbose" => Some(Verbose)
    case _ => None
  }

  /** The flag variables laid out as a Config: the value each switch case
      copies sits in the field that case assigns. */
  function FlagValues(v: FlagVars): Config {
    Config(v.backend, v.nodes, v.clientCaKeys, v.clientCert, v.clientKey, v.confdir,
           v.debug, v.interval, v.prefix, v.quiet, v.scheme, v.verbose)
  }

  /** One call of `setConfigFromFlag`: the field the name selects takes the
      flag variable's value; every other field keeps its value, and a name
      the switch does not list changes nothing. */
  function FlagApplied(c: Config, v: FlagVars, name: string): (r: Config)
    ensures forall g :: Get(r, g) == if FlagField(name) == Some(g) then Get(FlagValues(v), g) else Get(c, g)
  {
    match FlagField(name)
    case None => c
    case Some(f) => CopyField(c, FlagValues(v), f)
  }

  /** Some supplied flag name selects field `f`. */
  ghost predicate Supplied(names: seq<string>, f: Field) {
    exists n :: n in names && FlagField(n) == Some(f)
  }

  /** `processFlags`: `setConfigFromFlag` for each supplied name in turn. */
  function ApplyFlags(c: Config, v: FlagVars, names: seq<string>): (r: Config)
    ensures "client-cakeys" !in names ==> r.clientCaKeys == c.clientCaKeys
    decreases |names|
  {
    if names == [] then c
    else FlagApplied(ApplyFlags(c, v, names[..|names| - 1]), v, names[|names| - 1])
  }

  // ---------------------------------------------------------------------
  // Backend node defaulting (config.go:106-118).

  /** The nodes derived for a backend that has none configured, from the
      value of the environment variable `ETCDCTL_PEERS` ("" when unset),
      which `initConfig` reads only for the etcd backend. */
  function DefaultNodes(backend: string, etcdctlPeers: string): (nodes: seq<string>)
    ensures backend == "consul" ==> nodes == [ConsulDefaultNode]
    ensures backend == "etcd" && etcdctlPeers != "" ==> nodes == Split(etcdctlPeers, ',')
    ensures backend == "etcd" && etcdctlPeers == "" ==> nodes == [EtcdDefaultNode]
    ensures backend != "consul" && backend != "etcd" ==> nodes == []
  {
    match backend
    case "consul" => [ConsulDefaultNode]
    case "etcd" => if |etcdctlPeers| > 0 then Split(etcdctlPeers, ',') else [EtcdDefaultNode]
    case _ => []
  }

  /** The last step of `initConfig`: an empty node list is replaced by the
      backend's default nodes; a non-empty one and every other field are
      left alone. */
  function WithNodeDefaults(c: Config, etcdctlPeers: string): (r: Config)
    ensures forall f :: f != BackendNodes ==> Get(r, f) == Get(c, f)
    ensures c.backendNodes != [] ==> r.backendNodes == c.backendNodes
    ensures c.backendNodes == [] ==> r.backendNodes == DefaultNodes(c.backend, etcdctlPeers)
  {
    if |c.backendNodes| == 0 then c.(backendNodes := DefaultNodes(c.backend, etcdctlPeers)) else c
  }

  // ---------------------------------------------------------------------
  // The whole of initConfig.

  /** The outcome of `initConfig`, given the `config-file` flag's value,
      whether `os.Stat` found the default file not missing, what reading and
      decoding a path gives, the flag variables, the supplied flag names in
      the order `flag.Visit` gives them, and `ETCDCTL_PEERS`. */
  function Resolve(configFile: string, defaultNotMissing: bool, read: string -> FileLoad,
                   v: FlagVars, supplied: seq<string>, etcdctlPeers: string): (r: Result<Config, ConfigError>)
    ensures var path := ChosenConfigFile(configFile, defaultNotMissing);
            r.Failure? <==> path != "" && !read(path).Decoded?
  {
    match LoadFile(ChosenConfigFile(configFile, defaultNotMissing), read)
    case Failure(e) => Failure(e)
    case Success(p) => Success(WithNodeDefaults(ApplyFlags(Overlay(Defaults, p), v, supplied), etcdctlPeers))
  }

  /** The package-level state of config.go: the `configFile` and `config`
      variables that `initConfig` assigns, next to the flag variables and the
      set of supplied flags that `flag.Parse` left behind. */
  class Loadconfd {
    var configFile: string
    var config: Config
    const flags: FlagVars
    const supplied: seq<string>

    /** The state after `flag.Parse`: `configFile` holds the `config-file`
        flag and `config` its zero value. */
    constructor (configFile: string, flags: FlagVars, supplied: seq<string>)
      ensures this.configFile == configFile && config == ZeroConfig
      ensures this.flags == flags && this.supplied == supplied
    {
      this.configFile := configFile;
      this.config := ZeroConfig;
      this.flags := flags;
      this.supplied := supplied;
    }

    /** `setConfigFromFlag`: the switch on the flag's name. */
    method SetConfigFromFlag(name: string)
      modifies this`config
      ensures config == FlagApplied(old(config), flags, name)
    {
      match name {
        case "backend" => config := config.(backend := flags.backend);
        case "debug" => config := config.(debug := flags.debug);
        case "client-cert" => config := config.(clientCert := flags.clientCert);
        case "client-key" => config := config.(clientKey := flags.clientKey);
        case "client-cakeys" => config := config.(clientCaKeys := flags.clientCaKeys);
        case "confdir" => config := config.(confDir := flags.confdir);
        case "node" => config := config.(backendNodes := flags.nodes);
        case "interval" => config := config.(interval := flags.interval);
        case "prefix" => config := config.(prefix := flags.prefix);
        case "quiet" => config := config.(quiet := flags.quiet);
        case "scheme" => config := config.(scheme := flags.scheme);
        case "verbose" => config := config.(verbose := flags.verbose);
        case _ =>
      }
      ConfigExtensionality(config, FlagApplied(old(config), flags, name));
    }

    /** `processFlags`: `flag.Visit(setConfigFromFlag)` over the supplied
        flags. */
    method ProcessFlags()
      modifies this`config
      ensures config == ApplyFlags(old(config), flags, supplied)
    {
      var i := 0;
      while i < |supplied|
        invariant 0 <= i <= |supplied|
        invariant config == ApplyFlags(old(config), flags, supplied[..i])
      {
        assert supplied[..i + 1][..i] == supplied[..i];
        SetConfigFromFlag(supplied[i]);
        i := i + 1;
      }
      assert supplied[..i] == supplied;
    }

    /** `initConfig`. On a read or decode failure it returns the error with
        `config` still at its defaults, before any flag is applied. */
    method InitConfig(defaultNotMissing: bool, read: string -> FileLoad, etcdctlPeers: string)
      returns (err: Option<ConfigError>)
      modifies this`configFile, this`config
      ensures configFile == ChosenConfigFile(old(configFile), defaultNotMissing)
      ensures match Resolve(old(configFile), defaultNotMissing, read, flags, supplied, etcdctlPeers)
              case Success(c) => err == None && config == c
              case Failure(e) => err == Some(e) && config == Defaults
    {
      if configFile == "" {
        if defaultNotMissing {
          configFile := DefaultConfigFile;
        }
      }
      config := Defaults;
      if configFile != "" {
        match read(configFile) {
          case ReadFailed(reason) =>
            return Some(ReadError(reason));
          case DecodeFailed(reason) =>
            return Some(DecodeError(reason));
          case Decoded(p) =>
            config := Overlay(config, p);
        }
      } else {
        assert Overlay(Defaults, NoPatch) == Defaults by {
          ConfigExtensionality(Overlay(Defaults, NoPatch), Defaults);
        }
      }
      ProcessFlags();
      if |config.backendNodes| == 0 {
        if config.backend == "consul" {
          config := config.(backendNodes := [ConsulDefaultNode]);
        } else if config.backend == "etcd" {
          var peerstr := etcdctlPeers;
          if |peerstr| > 0 {
            config := config.(backendNodes := Split(peerstr, ','));
          } else {
            config := config.(backendNodes := [EtcdDefaultNode]);
          }
        }
      }
      err := None;
    }
  }
}
