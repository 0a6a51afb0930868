/** What the configuration resolver of config.go promises, proved about the
    functions of module Configuration: which flag touches which field, the
    precedence of flags over the file over the defaults, the error path, and
    the backend node defaults. */
module ResolutionProperties {
  import opened Wrappers
  import opened Strings
  import opened Configuration

  // ---------------------------------------------------------------------
  // The flag overlay.

  /** After `processFlags`, a field named by some supplied flag holds that
      flag variable's value, and every other field is as before. */
  lemma {:induction false} ApplyFlagsFields(c: Config, v: FlagVars, names: seq<string>)
    ensures forall g :: Get(ApplyFlags(c, v, names), g) ==
                        if Supplied(names, g) then Get(FlagValues(v), g) else Get(c, g)
    decreases |names|
  {
    if names != [] {
      var init, last := names[..|names| - 1], names[|names| - 1];
      ApplyFlagsFields(c, v, init);
      assert names == init + [last];
      forall g ensures Supplied(names, g) <==> Supplied(init, g) || FlagField(last) == Some(g) {
        if Supplied(names, g) {
          var n :| n in names && FlagField(n) == Some(g);
          assert n in init || n == last;
        }
        if Supplied(init, g) {
          var n :| n in init && FlagField(n) == Some(g);
          assert n in names;
        }
        if FlagField(last) == Some(g) {
          assert last in names;
        }
      }
    }
  }

  /** The result of `processFlags` depends only on which flags were supplied,
      not on the order `flag.Visit` presents them in or on repetitions. */
  lemma ApplyFlagsOrderFree(c: Config, v: FlagVars, a: seq<string>, b: seq<string>)
    requires forall n :: n in a <==> n in b
    ensures ApplyFlags(c, v, a) == ApplyFlags(c, v, b)
  {
    ApplyFlagsFields(c, v, a);
    ApplyFlagsFields(c, v, b);
    forall g ensures Supplied(a, g) == Supplied(b, g) {
      if Supplied(a, g) {
        var n :| n in a && FlagField(n) == Some(g);
        assert n in b;
      }
      if Supplied(b, g) {
        var n :| n in b && FlagField(n) == Some(g);
        assert n in a;
      }
    }
    ConfigExtensionality(ApplyFlags(c, v, a), ApplyFlags(c, v, b));
  }

  /** Applying the same flag twice is the same as applying it once. */
  lemma FlagAppliedIdempotent(c: Config, v: FlagVars, name: string)
    ensures FlagApplied(FlagApplied(c, v, name), v, name) == FlagApplied(c, v, name)
  {
    ConfigExtensionality(FlagApplied(FlagApplied(c, v, name), v, name), FlagApplied(c, v, name));
  }

  /** Any two flags commute: each writes its own field, and two names that
      select the same field write the same flag variable into it. */
  lemma FlagAppliedCommutes(c: Config, v: FlagVars, m: string, n: string)
    ensures FlagApplied(FlagApplied(c, v, m), v, n) == FlagApplied(FlagApplied(c, v, n), v, m)
  {
    ConfigExtensionality(FlagApplied(FlagApplied(c, v, m), v, n), FlagApplied(FlagApplied(c, v, n), v, m));
  }

  /** `config-file` and `version` have no case in the switch, and neither has
      the registered `client-ca-keys`, because the case is spelled
      `client-cakeys`: supplying any of them changes nothing. */
  lemma InertFlags(c: Config, v: FlagVars, name: string)
    requires name == "config-file" || name == "version" || name == "client-ca-keys"
    ensures FlagField(name) == None
    ensures FlagApplied(c, v, name) == c
  {
  }

  /** Distinct flag names never select the same field. */
  lemma FlagFieldInjective(m: string, n: string)
    requires FlagField(m).Some? && FlagField(m) == FlagField(n)
    ensures m == n
  {
  }

  /** Among the registered flags, exactly `client-ca-keys`, `config-file` and
      `version` select no field. */
  lemma RegisteredInertFlags()
    ensures forall n :: n in RegisteredFlags ==>
              (FlagField(n) == None <==> n == "client-ca-keys" || n == "config-file" || n == "version")
  {
  }

  /** No registered flag selects `ClientCaKeys`: no command line can set it. */
  lemma NoFlagSetsClientCaKeys()
    ensures forall n :: n in RegisteredFlags ==> FlagField(n) != Some(ClientCaKeys)
  {
  }

  /** Every field except `ClientCaKeys` is selected by some registered flag. */
  lemma RegisteredFlagCoverage(f: Field)
    requires f != ClientCaKeys
    ensures exists n :: n in RegisteredFlags && FlagField(n) == Some(f)
  {
    var i := match f
      case Backend => 0
      case ClientCert => 2
      case ClientKey => 3
      case ConfDir => 4
      case Debug => 6
      case Interval => 7
      case BackendNodes => 8
      case Prefix => 9
      case Quiet => 11
      case Scheme => 12
      case Verbose => 13
      case ClientCaKeys => 1;
    assert FlagField(RegisteredFlags[i]) == Some(f);
  }

  // ---------------------------------------------------------------------
  // Backend node defaulting.

  /** An etcd backend with a non-empty `ETCDCTL_PEERS` gets one node more
      than there are commas, none containing a comma, and joining them with
      commas gives the variable's value back. */
  lemma EtcdPeerNodes(etcdctlPeers: string)
    requires etcdctlPeers != ""
    ensures var nodes := DefaultNodes("etcd", etcdctlPeers);
            && |nodes| == multiset(etcdctlPeers)[','] + 1
            && (forall i :: 0 <= i < |nodes| ==> ',' !in nodes[i])
            && Join(nodes, ',') == etcdctlPeers
  {
    SplitLength(etcdctlPeers, ',');
    SplitPiecesFree(etcdctlPeers, ',');
    JoinSplit(etcdctlPeers, ',');
  }

  /** The two-peer example: `10.0.0.1:4100,10.0.0.2:4100` gives both
      addresses, in order. */
  lemma EtcdTwoPeers()
    ensures DefaultNodes("etcd", "10.0.0.1:4100,10.0.0.2:4100") == ["10.0.0.1:4100", "10.0.0.2:4100"]
  {
    var parts := ["10.0.0.1:4100", "10.0.0.2:4100"];
    assert Join(parts, ',') == "10.0.0.1:4100,10.0.0.2:4100";
    SplitJoin(parts, ',');
  }

  /** After defaulting the node list is empty exactly when it was empty
      before and the backend is neither consul nor etcd. */
  lemma NodesAfterDefaulting(c: Config, etcdctlPeers: string)
    ensures WithNodeDefaults(c, etcdctlPeers).backendNodes == [] <==>
            c.backendNodes == [] && c.backend != "consul" && c.backend != "etcd"
  {
  }

  // ---------------------------------------------------------------------
  // The whole resolution.

  /** The value a field has after the file and flag overlays: the supplied
      flag's if there is one, else the file's if it has the key, else the
      default. */
  ghost function Layered(p: FilePatch, v: FlagVars, supplied: seq<string>, f: Field): Value {
    if Supplied(supplied, f) then Get(FlagValues(v), f) else PatchGet(p, f).GetOr(Get(Defaults, f))
  }

  /** Precedence: every field except the node list ends with its layered
      value, and the node list with its layered value unless that is empty,
      in which case with the backend's default nodes. */
  lemma ResolvePrecedence(configFile: string, defaultNotMissing: bool, read: string -> FileLoad,
                          v: FlagVars, supplied: seq<string>, etcdctlPeers: string)
    requires Resolve(configFile, defaultNotMissing, read, v, supplied, etcdctlPeers).Success?
    ensures var r := Resolve(configFile, defaultNotMissing, read, v, supplied, etcdctlPeers).value;
            var p := LoadFile(ChosenConfigFile(configFile, defaultNotMissing), read).value;
            var nodes := Layered(p, v, supplied, BackendNodes).items;
            && (forall f :: f != BackendNodes ==> Get(r, f) == Layered(p, v, supplied, f))
            && r.backendNodes == if nodes == [] then DefaultNodes(r.backend, etcdctlPeers) else nodes
  {
    var p := LoadFile(ChosenConfigFile(configFile, defaultNotMissing), read).value;
    OverlayFields(Defaults, p);
    ApplyFlagsFields(Overlay(Defaults, p), v, supplied);
    assert Get(ApplyFlags(Overlay(Defaults, p), v, supplied), BackendNodes) == Layered(p, v, supplied, BackendNodes);
  }

  /** `initConfig` fails exactly when a file was chosen and reading or
      decoding it failed, and it returns that failure's error. That on this
      path no flag is applied and no node derived is stated by
      `Loadconfd.InitConfig`, whose `config` is then the seeded defaults. */
  lemma ResolveFails(configFile: string, defaultNotMissing: bool, read: string -> FileLoad,
                     v: FlagVars, supplied: seq<string>, etcdctlPeers: string)
    ensures var path := ChosenConfigFile(configFile, defaultNotMissing);
            var r := Resolve(configFile, defaultNotMissing, read, v, supplied, etcdctlPeers);
            && (r.Failure? <==> path != "" && !read(path).Decoded?)
            && (r.Failure? && read(path).ReadFailed? ==> r.error == ReadError(read(path).reason))
            && (r.Failure? && read(path).DecodeFailed? ==> r.error == DecodeError(read(path).reason))
  {
  }

  /** Without a file, the defaults pass straight to flag processing. */
  lemma ResolveWithoutFile(configFile: string, defaultNotMissing: bool, read: string -> FileLoad,
                           v: FlagVars, supplied: seq<string>, etcdctlPeers: string)
    requires configFile == "" && !defaultNotMissing
    ensures Resolve(configFile, defaultNotMissing, read, v, supplied, etcdctlPeers) ==
            Success(WithNodeDefaults(ApplyFlags(Defaults, v, supplied), etcdctlPeers))
  {
    OverlayFields(Defaults, NoPatch);
    ConfigExtensionality(Overlay(Defaults, NoPatch), Defaults);
  }

  /** With no file and no supplied flag the result is the seeded defaults
      with etcd's default nodes. */
  lemma ResolveWithoutInputs(read: string -> FileLoad, v: FlagVars, etcdctlPeers: string)
    ensures Resolve("", false, read, v, [], etcdctlPeers) ==
            Success(Config("etcd",
                           if etcdctlPeers == "" then [EtcdDefaultNode] else Split(etcdctlPeers, ','),
                           "", "", "", "/etc/loadconfd", false, 600, "/", false, "http", false))
  {
    ResolveWithoutFile("", false, read, v, [], etcdctlPeers);
  }

  /** Because of the switch's `client-cakeys` spelling, a command line made
      of registered flags leaves `ClientCaKeys` at the file's value, or empty
      if the file has no `client_cakeys` key. */
  lemma ClientCaKeysFromFileOnly(configFile: string, defaultNotMissing: bool, read: string -> FileLoad,
                                 v: FlagVars, supplied: seq<string>, etcdctlPeers: string)
    requires forall n :: n in supplied ==> n in RegisteredFlags
    requires Resolve(configFile, defaultNotMissing, read, v, supplied, etcdctlPeers).Success?
    ensures Resolve(configFile, defaultNotMissing, read, v, supplied, etcdctlPeers).value.clientCaKeys ==
            LoadFile(ChosenConfigFile(configFile, defaultNotMissing), read).value.clientCakeys.GetOr("")
  {
    NoFlagSetsClientCaKeys();
    ResolvePrecedence(configFile, defaultNotMissing, read, v, supplied, etcdctlPeers);
    var r := Resolve(configFile, defaultNotMissing, read, v, supplied, etcdctlPeers).value;
    assert Get(r, ClientCaKeys) == Text(r.clientCaKeys);
  }
}
