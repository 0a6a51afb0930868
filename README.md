# loadconfd configuration resolver, modelled in Dafny

loadconfd is a configuration-synchronisation daemon. Before it talks to a
key/value backend (etcd or consul) it resolves its settings into one `Config`
record in `initConfig`:

1. it chooses a configuration file: the `-config-file` flag, or else
   `etc/loadconfd/loadconfd.toml` unless `os.Stat` says that file does not exist;
2. it seeds the record with defaults (backend `etcd`, confdir `/etc/loadconfd`,
   interval 600, prefix `/`, scheme `http`, all else empty or false);
3. it decodes the TOML file over the record (keys present overwrite, keys
   absent do not) and returns the read or decode error if there is one;
4. it applies, through `flag.Visit`, only the flags the user supplied: each
   flag the switch in `setConfigFromFlag` names copies its flag variable into
   exactly one field, and any other supplied flag changes nothing;
5. if the node list is still empty, it derives one from the backend:
   `127.0.0.1:8500` for consul, `ETCDCTL_PEERS` split on `,` (or
   `127.0.0.1:4100` when that is empty) for etcd, nothing otherwise.

The project has four modules:

- `Wrappers` (wrappers.dfy): `Option` and `Result`.
- `Strings` (strings.dfy): Go's `strings.Split` and `strings.Join` for a
  one-character separator, with the lemmas that split and join are inverse
  and that splitting gives one piece more than there are separators.
- `Configuration` (config.dfy): the `Config` record, the decoded file as a
  record of optional fields (`FilePatch`), the flag variables (`FlagVars`), the
  pure functions that specify each step (`ChosenConfigFile`, `Overlay`,
  `LoadFile`, `FlagApplied`, `ApplyFlags`, `DefaultNodes`, `WithNodeDefaults`,
  `Resolve`), and the class `Loadconfd`, which holds the package-level
  `configFile` and `config` variables. Its methods `InitConfig`, `ProcessFlags`
  and `SetConfigFromFlag` update them step by step as config.go does, and are
  proved against those functions. A field-by-field view (`Field`, `Get`) lets
  "this step changed only that field" be stated once for all twelve fields.
- `ResolutionProperties` (resolution.dfy): the properties of the resolver,
  proved about those functions.

Inputs the Go code gets from the operating system are parameters:
`defaultNotMissing` is what `os.Stat` on the default path says (false only
when the file is reported as not existing), `read` is what reading and
decoding the file at a path gives (`ReadFailed`, `DecodeFailed` or the
decoded `FilePatch`), `etcdctlPeers` is the value of `ETCDCTL_PEERS` (""
when unset), and the flag variables and the list of supplied flag names are
what `flag.Parse` left behind.

Quirks of the code that the model keeps:

- The CA flag is registered as `client-ca-keys` (config.go:51) but the switch
  in `setConfigFromFlag` tests for `client-cakeys` (config.go:142). Supplying
  the flag therefore never changes `ClientCaKeys`; only the file's
  `client_cakeys` key can set it (`NoFlagSetsClientCaKeys`,
  `ClientCaKeysFromFileOnly`).
- The TOML key for the backend is `backends`, not `backend` (config.go:35).
- On a read or decode error `initConfig` returns at once: no flag is applied
  and no node is derived. The model also keeps the record at the seeded
  defaults; in the Go code a type-mismatch error in `toml.Decode` can leave
  the fields it already wrote, which the model does not capture (see the
  `toml.Decode` line under "## Left out").

`initConfig` checks neither that the interval is positive nor that the
backend is non-empty, and does not fail when the node list stays empty: an
unknown backend with no nodes resolves with an empty list
(`NodesAfterDefaulting`). The flag overlay's result depends neither on the
order `flag.Visit` uses nor on repetitions (`ApplyFlagsOrderFree`).

## Model

| member | source | states |
|---|---|---|
| `Configuration.ChosenConfigFile` | config.go:71-75 | an explicit path is kept; an empty path becomes `etc/loadconfd/loadconfd.toml` when the default file is not reported missing; no file is chosen exactly when the path is empty and the default file is missing |
| `Configuration.Overlay` | config.go:93 | a file with no keys leaves the record unchanged; the field-by-field effect of decoding is stated by `OverlayFields` |
| `Configuration.OverlayFields` | config.go:93 | decoding the file overwrites each field whose key the file has with the file's value and leaves every other field unchanged |
| `Configuration.LoadFile` | config.go:85-97 | with no file chosen the file layer is empty; otherwise loading fails exactly when reading or decoding fails, with that failure's kind and reason, and succeeds with the decoded keys |
| `Configuration.FlagApplied` | config.go:132-159 | one supplied flag sets exactly the field its name selects to its flag variable's value and leaves every other field unchanged; a name without a case changes nothing |
| `Configuration.FlagField` | config.go:133-158 | the field each case of the switch selects; `ClientCaKeys` is selected only by the name `client-cakeys`, not by the registered `client-ca-keys`; distinct names select distinct fields (`FlagFieldInjective`) |
| `Configuration.ApplyFlags` | config.go:129-131 | `ClientCaKeys` keeps its earlier value unless the name `client-cakeys` is among the supplied flags; the full field-by-field effect and order independence are stated by `ApplyFlagsFields` and `ApplyFlagsOrderFree` |
| `Configuration.Resolve` | config.go:70-127 | resolution fails exactly when a file was chosen and reading or decoding it failed; precedence and error kinds are stated by `ResolvePrecedence` and `ResolveFails` |
| `Configuration.DefaultNodes` | config.go:107-117 | consul gets `["127.0.0.1:8500"]`; etcd gets `ETCDCTL_PEERS` split on `,`, or `["127.0.0.1:4100"]` when that is empty; any other backend gets no nodes |
| `Configuration.WithNodeDefaults` | config.go:106-118 | an empty node list is replaced by the backend's default nodes, a non-empty one is kept, and no other field changes |
| `Configuration.Loadconfd.constructor` | config.go:14-31 | the package state before `initConfig`: `configFile` holds the flag's value, `config` is the zero record, and the flag variables and supplied flags are as parsed |
| `Configuration.Loadconfd.SetConfigFromFlag` | config.go:132-159 | the name switch as written updates `config` exactly as `FlagApplied` says |
| `Configuration.Loadconfd.ProcessFlags` | config.go:129-131 | visiting the supplied flags in turn leaves `config` equal to `ApplyFlags` of the old record |
| `Configuration.Loadconfd.InitConfig` | config.go:70-127 | `configFile` becomes the chosen file; on success there is no error and `config` is the resolved record of `Resolve`; on failure the error is returned and `config` is the seeded defaults |
| `Strings.Split` | config.go:113 | splitting never yields an empty list; its pieces are pinned down by `SplitPiecesFree` and `JoinSplit` |
| `Strings.SplitLength` | config.go:113 | splitting gives one piece more than there are separators |
| `Strings.SplitPiecesFree` | config.go:113 | no piece of a split contains the separator |
| `Strings.JoinSplit` | config.go:113 | joining the pieces of a split with the separator gives the original string |
| `Strings.SplitJoin` | config.go:113 | splitting the join of one or more separator-free pieces gives those pieces back |
| `ResolutionProperties.ApplyFlagsFields` | config.go:129-159 | after the flag overlay a field named by some supplied flag holds that flag's value, and every field named by none keeps its earlier value |
| `ResolutionProperties.ApplyFlagsOrderFree` | config.go:130 | two lists of supplied flags with the same members give the same result, whatever the order and repetitions |
| `ResolutionProperties.FlagAppliedIdempotent` | config.go:132-159 | applying the same flag twice equals applying it once |
| `ResolutionProperties.FlagAppliedCommutes` | config.go:132-159 | applying two flags in either order gives the same record |
| `ResolutionProperties.InertFlags` | config.go:132-159 | `config-file`, `version` and `client-ca-keys` have no case in the switch and change nothing |
| `ResolutionProperties.FlagFieldInjective` | config.go:133-158 | two different flag names never select the same field |
| `ResolutionProperties.RegisteredInertFlags` | config.go:49-64 | of the registered flags exactly `client-ca-keys`, `config-file` and `version` select no field |
| `ResolutionProperties.NoFlagSetsClientCaKeys` | config.go:142-143 | no registered flag selects `ClientCaKeys`, because the flag registered at config.go:51 is spelled differently from the case |
| `ResolutionProperties.RegisteredFlagCoverage` | config.go:49-64 | every field other than `ClientCaKeys` is selected by some registered flag |
| `ResolutionProperties.EtcdPeerNodes` | config.go:110-116 | for etcd with a non-empty `ETCDCTL_PEERS` the nodes number one more than its commas, contain no comma, and joined with `,` give the variable's value back |
| `ResolutionProperties.EtcdTwoPeers` | config.go:113 | `10.0.0.1:4100,10.0.0.2:4100` yields the nodes `10.0.0.1:4100` and `10.0.0.2:4100`, in that order |
| `ResolutionProperties.NodesAfterDefaulting` | config.go:106-118 | the node list is empty after defaulting exactly when it was empty before and the backend is neither consul nor etcd |
| `ResolutionProperties.ResolvePrecedence` | config.go:76-118 | every field ends with the supplied flag's value if a flag names it, else the file's value if the file has its key, else the default; the node list then falls back to the backend default only if that layered value is empty |
| `ResolutionProperties.ResolveFails` | config.go:89-96 | resolution fails exactly when a file was chosen and reading or decoding it failed, and the error carries that failure's kind and reason |
| `ResolutionProperties.ResolveWithoutFile` | config.go:85-99 | with no file chosen the defaults go straight to the flag overlay and node defaulting |
| `ResolutionProperties.ResolveWithoutInputs` | config.go:77-118 | with no file and no supplied flag the result is backend `etcd`, confdir `/etc/loadconfd`, interval 600, prefix `/`, scheme `http`, all else empty or false, and the etcd default nodes |
| `ResolutionProperties.ClientCaKeysFromFileOnly` | config.go:142-143 | with registered flags only, `ClientCaKeys` ends as the file's `client_cakeys` value, or empty when the file lacks it |

## Left out

- TOML parsing (`toml.Decode`) is a foreign library; its result is the `FilePatch` record of optional fields.
- Reading the file, `os.Stat` and `os.Getenv` are I/O; their results are the parameters `read`, `defaultNotMissing` and `etcdctlPeers`.
- `toml.Decode` can fail on a type mismatch after it has written some fields of `config`; the model treats every decode failure as leaving the seeded defaults, as a syntax error does. This is unobservable because `main` stops on any error.
- The `flag` package's parsing and registration (config.go:49-64) are library code; the model takes the parsed flag variables and the names of the supplied flags as given. The `-node` flag's `Nodes` type is not part of this model and is taken to be a list of strings.
- Logging calls and the `fmt.Println` output (config.go:102-104, 121-124) are side effects only.
- `main` and the `-version` exit (loadconfd.go:26-35) are process plumbing.
- `Conf`, `Group` and `optionPair` (loadconfd.go) and the resource `Config` (resource/resource.go) are data records with no logic; deriving resource directories from the configuration is not part of this model, since no such code occurs in these files.
- The `StoreClient` interface (backends/client.go) has no implementation here, and `WatchPrefix` is a blocking call with a stop channel whose point is concurrency; neither is modelled.
- `Int64` models Go's `int` as 64 bits; the resolver does no arithmetic on the interval, so the width only bounds the values that can be supplied.
