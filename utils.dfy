/**
 * Shared helpers of the plugin (kubernetes/utils.go): errors and the not-found
 * test, optional key qualifiers and their field-selector rendering, tag merging,
 * the choice of kubeconfig source, and the connection cache through which the
 * kubeconfig, the typed clients and the current context are built at most once.
 *
 * Calls into client-go and go-homedir are not modelled: they are the fields of
 * a `Host` value, each a total function returning a value or an error.
 */
module Utils {
  import opened Wrappers
  import opened Strings

  /** A Go `error`, reduced to its message. */
  datatype Error = Error(message: string)

  /** isNotFoundError: the API reports an absent object with a message ending in "not found". */
  function IsNotFoundError(err: Error): bool {
    HasSuffix(err.message, "not found")
  }

  /** A not-found error is exactly one whose message is some text followed by "not found". */
  lemma {:induction false} NotFoundIff(err: Error)
    ensures IsNotFoundError(err) <==> exists prefix: string :: err.message == prefix + "not found"
  {
    var m := err.message;
    if IsNotFoundError(err) {
      assert m == m[..|m| - 9] + "not found";
    }
    if exists prefix: string :: m == prefix + "not found" {
      var prefix: string :| m == prefix + "not found";
      assert m[|m| - 9..] == "not found";
    }
  }

  // ---------------------------------------------------------------------------
  // Key qualifiers

  datatype Requirement = Required | Optional | AnyOf

  /** plugin.KeyColumn: a column the host may pass an equality qualifier on. */
  datatype KeyColumn = KeyColumn(name: string, require: Requirement)

  /** getCommonOptionalKeyQuals: `name` then `namespace`, both optional. */
  function CommonOptionalKeyQuals(): seq<KeyColumn> {
    [KeyColumn("name", Optional), KeyColumn("namespace", Optional)]
  }

  /** getOptionalKeyQualWithCommonKeyQuals: the caller's qualifiers followed by the two common ones. */
  function OptionalKeyQualWithCommonKeyQuals(otherOptionalQuals: seq<KeyColumn>): (quals: seq<KeyColumn>)
    ensures |quals| == |otherOptionalQuals| + 2
    ensures quals[..|otherOptionalQuals|] == otherOptionalQuals
    ensures quals[|otherOptionalQuals|] == KeyColumn("name", Optional)
    ensures quals[|otherOptionalQuals| + 1] == KeyColumn("namespace", Optional)
  {
    otherOptionalQuals + CommonOptionalKeyQuals()
  }

  /** QueryData.KeyColumnQualString: the string value of an equality qualifier, "" when absent. */
  function QualString(quals: map<string, string>, column: string): string {
    if column in quals then quals[column] else ""
  }

  /** The field-selector clauses the common qualifiers stand for. */
  function SelectorClauses(quals: map<string, string>): seq<string> {
    var name := QualString(quals, "name");
    var namespace := QualString(quals, "namespace");
    (if name != "" then ["metadata.name=" + name] else [])
      + (if namespace != "" then ["metadata.namespace=" + namespace] else [])
  }

  /**
   * getCommonOptionalKeyQualsValueForFieldSelector: one clause per non-empty
   * qualifier, the name clause first.
   */
  method CommonOptionalKeyQualsValueForFieldSelector(quals: map<string, string>) returns (fieldSelectors: seq<string>)
    ensures fieldSelectors == SelectorClauses(quals)
    ensures var name, namespace := QualString(quals, "name"), QualString(quals, "namespace");
      && |fieldSelectors| == (if name != "" then 1 else 0) + (if namespace != "" then 1 else 0)
      && (name != "" ==> fieldSelectors[0] == "metadata.name=" + name)
      && (namespace != "" ==> fieldSelectors[|fieldSelectors| - 1] == "metadata.namespace=" + namespace)
  {
    fieldSelectors := [];
    if QualString(quals, "name") != "" {
      fieldSelectors := fieldSelectors + ["metadata.name=" + QualString(quals, "name")];
    }
    if QualString(quals, "namespace") != "" {
      fieldSelectors := fieldSelectors + ["metadata.namespace=" + QualString(quals, "namespace")];
    }
  }

  /** The value a list request's FieldSelector receives: the comma-join of the clauses, or "" when there are none. */
  function FieldSelector(quals: map<string, string>): string {
    var clauses := SelectorClauses(quals);
    if |clauses| > 0 then Join(clauses, ",") else ""
  }

  /** With both qualifiers given the selector is the name clause, a comma, then the namespace clause. */
  lemma {:induction false} FieldSelectorBoth(quals: map<string, string>)
    requires QualString(quals, "name") != "" && QualString(quals, "namespace") != ""
    ensures FieldSelector(quals)
      == "metadata.name=" + QualString(quals, "name") + "," + "metadata.namespace=" + QualString(quals, "namespace")
  {
    var name, namespace := QualString(quals, "name"), QualString(quals, "namespace");
    var clauses := SelectorClauses(quals);
    assert clauses == ["metadata.name=" + name, "metadata.namespace=" + namespace];
    assert clauses[1..] == ["metadata.namespace=" + namespace];
    assert Join(clauses, ",") == clauses[0] + "," + Join(clauses[1..], ",");
  }

  /** Without qualifiers no selector is set. */
  lemma FieldSelectorNone(quals: map<string, string>)
    requires QualString(quals, "name") == "" && QualString(quals, "namespace") == ""
    ensures FieldSelector(quals) == ""
  {
  }

  // ---------------------------------------------------------------------------
  // Tags

  /** `tags` merges `labels` over `annotations`: every key of either, a label winning over an annotation. */
  ghost predicate IsTagMerge(tags: map<string, string>, labels: map<string, string>, annotations: map<string, string>) {
    && tags.Keys == labels.Keys + annotations.Keys
    && (forall k :: k in labels ==> tags[k] == labels[k])
    && (forall k :: k in annotations && k !in labels ==> tags[k] == annotations[k])
  }

  /** The merge is determined by its inputs: two merges of the same maps are equal. */
  lemma {:induction false} TagMergeUnique(t1: map<string, string>, t2: map<string, string>,
                                          labels: map<string, string>, annotations: map<string, string>)
    requires IsTagMerge(t1, labels, annotations) && IsTagMerge(t2, labels, annotations)
    ensures t1 == t2
  {
    forall k | k in t1
      ensures t1[k] == t2[k]
    {
      if k in labels {
      } else {
        assert k in annotations;
      }
    }
  }

  /** mergeTags: copy every annotation into a fresh map, then every label over it. */
  method MergeTags(labels: map<string, string>, annotations: map<string, string>) returns (tags: map<string, string>)
    ensures IsTagMerge(tags, labels, annotations)
  {
    tags := map[];
    var pending := annotations.Keys;
    while pending != {}
      invariant pending <= annotations.Keys
      invariant tags.Keys == annotations.Keys - pending
      invariant forall k :: k in tags ==> tags[k] == annotations[k]
      decreases pending
    {
      var k :| k in pending;
      tags := tags[k := annotations[k]];
      pending := pending - {k};
    }
    pending := labels.Keys;
    while pending != {}
      invariant pending <= labels.Keys
      invariant tags.Keys == annotations.Keys + (labels.Keys - pending)
      invariant forall k :: k in labels && k !in pending ==> tags[k] == labels[k]
      invariant forall k :: k in annotations && (k !in labels || k in pending) ==> tags[k] == annotations[k]
      decreases pending
    {
      var k :| k in pending;
      tags := tags[k := labels[k]];
      pending := pending - {k};
    }
  }

  // ---------------------------------------------------------------------------
  // Kubeconfig source

  /** The connection's configuration as GetConfig returns it (only the fields the core reads). */
  datatype KubernetesConfig = KubernetesConfig(
    configPath: Option<string>,
    configPaths: Option<seq<string>>,
    configContext: Option<string>)

  /** The two environment variables consulted, "" when unset. */
  datatype Environment = Environment(kubeConfigPaths: string, kubernetesMaster: string)

  const DefaultConfigPath := "~/.kube/config"

  /**
   * The kubeconfig paths getK8Config starts from, by priority: the explicit
   * path, a non-empty list of paths, KUBE_CONFIG_PATHS split as a path list,
   * KUBERNETES_MASTER, and finally the default path. The list is never empty.
   */
  function ChooseConfigPaths(cfg: KubernetesConfig, env: Environment): (paths: seq<string>)
    ensures |paths| >= 1
    ensures cfg.configPath.Some? ==> paths == [cfg.configPath.value]
    ensures cfg.configPath.None? && cfg.configPaths.Some? && |cfg.configPaths.value| > 0 ==> paths == cfg.configPaths.value
    ensures cfg.configPath.None? && (cfg.configPaths.None? || |cfg.configPaths.value| == 0) && env.kubeConfigPaths != ""
      ==> Join(paths, ":") == env.kubeConfigPaths && forall k :: 0 <= k < |paths| ==> ':' !in paths[k]
    ensures cfg.configPath.None? && (cfg.configPaths.None? || |cfg.configPaths.value| == 0) && env.kubeConfigPaths == ""
      ==> paths == [if env.kubernetesMaster != "" then env.kubernetesMaster else DefaultConfigPath]
  {
    if cfg.configPath.Some? then [cfg.configPath.value]
    else if cfg.configPaths.Some? && |cfg.configPaths.value| > 0 then cfg.configPaths.value
    else if env.kubeConfigPaths != "" then SplitList(env.kubeConfigPaths)
    else if env.kubernetesMaster != "" then [env.kubernetesMaster]
    else [DefaultConfigPath]
  }

  /** Expanding every path in order (homedir.Expand is `expand`); the first failure is the result. */
  function ExpandAll(paths: seq<string>, expand: string -> Result<string, Error>): Result<seq<string>, Error>
    decreases |paths|
  {
    if |paths| == 0 then Success([])
    else match expand(paths[0])
      case Failure(e) => Failure(e)
      case Success(p) =>
        match ExpandAll(paths[1..], expand)
        case Failure(e) => Failure(e)
        case Success(rest) => Success([p] + rest)
  }

  /** A successful expansion keeps the number and the order of the paths. */
  lemma {:induction false} ExpandAllSuccess(paths: seq<string>, expand: string -> Result<string, Error>)
    requires ExpandAll(paths, expand).Success?
    ensures |ExpandAll(paths, expand).value| == |paths|
    ensures forall k :: 0 <= k < |paths| ==> expand(paths[k]) == Success(ExpandAll(paths, expand).value[k])
    decreases |paths|
  {
    if |paths| > 0 {
      ExpandAllSuccess(paths[1..], expand);
      var rest := ExpandAll(paths[1..], expand).value;
      forall k | 0 < k < |paths|
        ensures expand(paths[k]) == Success(ExpandAll(paths, expand).value[k])
      {
        assert paths[1..][k - 1] == paths[k];
      }
    }
  }

  /** A failed expansion reports the error of the first path that fails to expand. */
  lemma {:induction false} ExpandAllFailure(paths: seq<string>, expand: string -> Result<string, Error>) returns (k: nat)
    requires ExpandAll(paths, expand).Failure?
    ensures k < |paths| && expand(paths[k]) == Failure(ExpandAll(paths, expand).error)
    ensures forall j :: 0 <= j < k ==> expand(paths[j]).Success?
    decreases |paths|
  {
    if expand(paths[0]).Failure? {
      k := 0;
    } else {
      var k' := ExpandAllFailure(paths[1..], expand);
      k := k' + 1;
      forall j | 0 < j < k
        ensures expand(paths[j]).Success?
      {
        assert paths[1..][j - 1] == paths[j];
      }
    }
  }

  /** `r` with `done` put in front of its paths when it is a success. */
  function Prefixed(done: seq<string>, r: Result<seq<string>, Error>): Result<seq<string>, Error> {
    match r
    case Failure(e) => Failure(e)
    case Success(rest) => Success(done + rest)
  }

  /** The loop of getK8Config that expands each path, stopping at the first error. */
  method ExpandPaths(configPaths: seq<string>, expand: string -> Result<string, Error>) returns (r: Result<seq<string>, Error>)
    ensures r == ExpandAll(configPaths, expand)
  {
    var expandedPaths: seq<string> := [];
    var i := 0;
    assert configPaths[0..] == configPaths;
    if ExpandAll(configPaths, expand).Success? {
      assert [] + ExpandAll(configPaths, expand).value == ExpandAll(configPaths, expand).value;
    }
    while i < |configPaths|
      invariant 0 <= i <= |configPaths|
      invariant ExpandAll(configPaths, expand) == Prefixed(expandedPaths, ExpandAll(configPaths[i..], expand))
    {
      var path := expand(configPaths[i]);
      if path.Failure? {
        return Failure(path.error);
      }
      ghost var tail := ExpandAll(configPaths[i + 1..], expand);
      assert configPaths[i..][0] == configPaths[i];
      assert configPaths[i..][1..] == configPaths[i + 1..];
      assert ExpandAll(configPaths[i..], expand) == Prefixed([path.value], tail);
      if tail.Success? {
        assert expandedPaths + ([path.value] + tail.value) == (expandedPaths + [path.value]) + tail.value;
      }
      expandedPaths := expandedPaths + [path.value];
      i := i + 1;
    }
    assert configPaths[i..] == [];
    assert expandedPaths + [] == expandedPaths;
    r := Success(expandedPaths);
  }

  /** clientcmd.ClientConfigLoadingRules: one explicit path, or a precedence list. */
  datatype LoadingRules = LoadingRules(explicitPath: string, precedence: seq<string>)

  /** clientcmd.ConfigOverrides: the current-context override, "" when not overridden. */
  datatype ConfigOverrides = ConfigOverrides(currentContext: string)

  /** clientcmd.NewNonInteractiveDeferredLoadingClientConfig: holds the rules and overrides until used. */
  datatype ClientConfig = DeferredLoadingClientConfig(loader: LoadingRules, overrides: ConfigOverrides)

  /** Exactly one expanded path becomes ExplicitPath; otherwise the list becomes Precedence. */
  function LoaderFor(expandedPaths: seq<string>): (loader: LoadingRules)
    ensures |expandedPaths| == 1 ==> loader == LoadingRules(expandedPaths[0], [])
    ensures |expandedPaths| != 1 ==> loader.explicitPath == "" && loader.precedence == expandedPaths
  {
    if |expandedPaths| == 1 then LoadingRules(expandedPaths[0], []) else LoadingRules("", expandedPaths)
  }

  /** The kubeconfig getK8Config builds when nothing is cached. */
  function BuildK8Config(cfg: KubernetesConfig, env: Environment, expand: string -> Result<string, Error>): Result<ClientConfig, Error> {
    var configPaths := ChooseConfigPaths(cfg, env);
    match ExpandAll(configPaths, expand)
    case Failure(e) => Failure(e)
    case Success(expandedPaths) =>
      var overrides := if cfg.configContext.Some? then ConfigOverrides(cfg.configContext.value) else ConfigOverrides("");
      Success(DeferredLoadingClientConfig(LoaderFor(expandedPaths), overrides))
  }

  /**
   * What the built kubeconfig loads: one chosen path becomes the explicit path
   * (expanded), several become the precedence list (expanded, same order); an
   * expansion failure is the error of the first path that fails.
   */
  lemma {:induction false} BuildK8ConfigLoader(cfg: KubernetesConfig, env: Environment, expand: string -> Result<string, Error>)
    ensures var paths := ChooseConfigPaths(cfg, env);
      match BuildK8Config(cfg, env, expand)
      case Success(kc) =>
        && (|paths| == 1 ==> expand(paths[0]) == Success(kc.loader.explicitPath) && kc.loader.precedence == [])
        && (|paths| > 1 ==>
              && kc.loader.explicitPath == ""
              && |kc.loader.precedence| == |paths|
              && forall k :: 0 <= k < |paths| ==> expand(paths[k]) == Success(kc.loader.precedence[k]))
        && kc.overrides.currentContext == (if cfg.configContext.Some? then cfg.configContext.value else "")
      case Failure(e) => exists k :: 0 <= k < |paths| && expand(paths[k]) == Failure(e)
  {
    var paths := ChooseConfigPaths(cfg, env);
    if ExpandAll(paths, expand).Success? {
      ExpandAllSuccess(paths, expand);
    } else {
      var k := ExpandAllFailure(paths, expand);
    }
  }

  // ---------------------------------------------------------------------------
  // Clients and the connection cache

  /** rest.Config, reduced to an opaque identity. */
  datatype RestConfig = RestConfig(host: string)

  /** A typed client (kubernetes.Clientset or apiextension.Clientset), reduced to an opaque identity. */
  datatype Clientset = Clientset(id: nat)

  /** The two cached client flavours. */
  datatype Flavor = Typed | CustomResourceDefinitions

  /** The library calls the cache logic makes, each a value or an error. */
  datatype Host = Host(
    expand: string -> Result<string, Error>,                  // homedir.Expand
    restConfig: ClientConfig -> Result<RestConfig, Error>,    // kubeconfig.ClientConfig()
    rawCurrentContext: ClientConfig -> string,                // kubeconfig.RawConfig().CurrentContext, error ignored
    inClusterConfig: Result<RestConfig, Error>,               // rest.InClusterConfig()
    newClientset: RestConfig -> Result<Clientset, Error>,     // kubernetes.NewForConfig
    newCrdClientset: RestConfig -> Result<Clientset, Error>)  // apiextension.NewForConfig

  const ConfigKey := "getK8Config"
  const ClientsetKey := "k8sClient"
  const CrdClientKey := "GetNewClientCRD"
  const ContextKey := "getKubectlContext"

  /** The cache key each client flavour is stored under. */
  function KeyFor(flavor: Flavor): string {
    match flavor
    case Typed => ClientsetKey
    case CustomResourceDefinitions => CrdClientKey
  }

  function NewForConfig(host: Host, flavor: Flavor, rc: RestConfig): Result<Clientset, Error> {
    match flavor
    case Typed => host.newClientset(rc)
    case CustomResourceDefinitions => host.newCrdClientset(rc)
  }

  /** The text of the error clientcmd reports when the default kubeconfig file is absent. */
  const MissingKubeconfig := ".kube/config: no such file or directory"

  /** inClusterConfig / inClusterConfigCRD: the service-account configuration, then a client for it. */
  function InClusterClient(host: Host, flavor: Flavor): Result<Clientset, Error> {
    match host.inClusterConfig
    case Failure(e) => Failure(e)
    case Success(rc) => NewForConfig(host, flavor, rc)
  }

  /**
   * The client GetNewClientset / GetNewClientCRD obtain from a kubeconfig (or
   * its error): a configuration error falls back to the in-cluster client only
   * when its text names the missing default file, and a failing fallback
   * reports both messages joined by ", ".
   */
  function ClientFrom(host: Host, flavor: Flavor, kubeconfig: Result<ClientConfig, Error>): Result<Clientset, Error> {
    match kubeconfig
    case Failure(e) => Failure(e)
    case Success(kc) =>
      match host.restConfig(kc)
      case Success(rc) => NewForConfig(host, flavor, rc)
      case Failure(configErr) =>
        if Contains(configErr.message, MissingKubeconfig) then
          (match InClusterClient(host, flavor)
           case Failure(e) => Failure(Error(configErr.message + ", " + e.message))
           case Success(c) => Success(c))
        else Failure(configErr)
  }

  /** The fallback is tried only for the missing-file error, and its failure carries both messages. */
  lemma {:induction false} FallbackOnlyForMissingFile(host: Host, flavor: Flavor, kc: ClientConfig)
    requires host.restConfig(kc).Failure?
    ensures var configErr := host.restConfig(kc).error;
      && (!Contains(configErr.message, MissingKubeconfig) ==> ClientFrom(host, flavor, Success(kc)) == Failure(configErr))
      && (Contains(configErr.message, MissingKubeconfig) ==>
            ClientFrom(host, flavor, Success(kc)) ==
              match InClusterClient(host, flavor)
              case Success(c) => Success(c)
              case Failure(e) => Failure(Error(configErr.message + ", " + e.message)))
  {
  }

  /** One value of the connection cache: each key holds one kind of value. */
  datatype CacheValue = ConfigEntry(config: ClientConfig) | ClientEntry(client: Clientset) | ContextEntry(name: string)

  /** Every key holds the kind of value the type assertion at its read site expects. */
  predicate WellTyped(entries: map<string, CacheValue>) {
    && (ConfigKey in entries ==> entries[ConfigKey].ConfigEntry?)
    && (ClientsetKey in entries ==> entries[ClientsetKey].ClientEntry?)
    && (CrdClientKey in entries ==> entries[CrdClientKey].ClientEntry?)
    && (ContextKey in entries ==> entries[ContextKey].ContextEntry?)
  }

  /** The kubeconfig getK8Config yields for cache contents `entries`: the cached one, or a freshly built one. */
  function ConfigFor(entries: map<string, CacheValue>, cfg: KubernetesConfig, env: Environment, host: Host): Result<ClientConfig, Error>
    requires WellTyped(entries)
  {
    if ConfigKey in entries then Success(entries[ConfigKey].config) else BuildK8Config(cfg, env, host.expand)
  }

  /** The cache contents after getK8Config: a freshly built kubeconfig is stored, nothing else changes. */
  function AfterConfig(entries: map<string, CacheValue>, cfg: KubernetesConfig, env: Environment, host: Host): map<string, CacheValue>
    requires WellTyped(entries)
  {
    var kc := ConfigFor(entries, cfg, env, host);
    if ConfigKey !in entries && kc.Success? then entries[ConfigKey := ConfigEntry(kc.value)] else entries
  }

  /** The connection manager's cache: a key/value store that lives as long as the connection. */
  class ConnectionCache {
    var entries: map<string, CacheValue>
    /** How many times a value was built for the cache (kubeconfig, client, or current context). */
    ghost var builds: nat

    ghost predicate Valid()
      reads this
    {
      WellTyped(entries)
    }

    constructor ()
      ensures Valid() && entries == map[] && builds == 0
    {
      entries := map[];
      builds := 0;
    }

    /** Cache.Get. */
    method Get(key: string) returns (v: Option<CacheValue>)
      ensures v == if key in entries then Some(entries[key]) else None
    {
      v := if key in entries then Some(entries[key]) else None;
    }

    /** Cache.Set, counting the value as built. */
    method Set(key: string, v: CacheValue)
      modifies this
      ensures entries == old(entries)[key := v] && builds == old(builds) + 1
    {
      entries := entries[key := v];
      builds := builds + 1;
    }
  }

  /**
   * getK8Config: the cached kubeconfig if there is one (nothing is built);
   * otherwise the chosen paths are expanded and the result is cached. An
   * expansion error leaves the cache as it was.
   */
  method GetK8Config(cache: ConnectionCache, cfg: KubernetesConfig, env: Environment, host: Host)
    returns (r: Result<ClientConfig, Error>)
    requires cache.Valid()
    modifies cache
    ensures cache.Valid()
    ensures r == ConfigFor(old(cache.entries), cfg, env, host)
    ensures cache.entries == AfterConfig(old(cache.entries), cfg, env, host)
    ensures ConfigKey in old(cache.entries) || r.Failure? ==> cache.builds == old(cache.builds)
  {
    var cachedData := cache.Get(ConfigKey);
    if cachedData.Some? {
      return Success(cachedData.value.config);
    }
    var configPaths := ChooseConfigPaths(cfg, env);
    var loader := LoadingRules("", []);
    var overrides := ConfigOverrides("");
    if |configPaths| > 0 {
      var expandedPaths := ExpandPaths(configPaths, host.expand);
      if expandedPaths.Failure? {
        return Failure(expandedPaths.error);
      }
      if |expandedPaths.value| == 1 {
        loader := loader.(explicitPath := expandedPaths.value[0]);
      } else {
        loader := loader.(precedence := expandedPaths.value);
      }
      if cfg.configContext.Some? {
        overrides := overrides.(currentContext := cfg.configContext.value);
      }
    }
    var kubeconfig := DeferredLoadingClientConfig(loader, overrides);
    cache.Set(ConfigKey, ConfigEntry(kubeconfig));
    r := Success(kubeconfig);
  }

  /**
   * GetNewClientset and GetNewClientCRD: the cached client of the flavour if
   * there is one (nothing is built and the cache is unchanged); otherwise the
   * client is obtained from the kubeconfig (see ClientFrom) and stored under
   * the flavour's key on success. On an error the flavour's key is left as it
   * was; only the kubeconfig getK8Config built on the way may have been cached.
   */
  method GetClient(cache: ConnectionCache, flavor: Flavor, cfg: KubernetesConfig, env: Environment, host: Host)
    returns (r: Result<Clientset, Error>)
    requires cache.Valid()
    modifies cache
    ensures cache.Valid()
    ensures KeyFor(flavor) in old(cache.entries) ==>
      && r == Success(old(cache.entries)[KeyFor(flavor)].client)
      && cache.entries == old(cache.entries) && cache.builds == old(cache.builds)
    ensures KeyFor(flavor) !in old(cache.entries) ==>
      && r == ClientFrom(host, flavor, ConfigFor(old(cache.entries), cfg, env, host))
      && cache.entries == (var after := AfterConfig(old(cache.entries), cfg, env, host);
                           if r.Success? then after[KeyFor(flavor) := ClientEntry(r.value)] else after)
  {
    var serviceCacheKey := KeyFor(flavor);
    var cachedData := cache.Get(serviceCacheKey);
    if cachedData.Some? {
      return Success(cachedData.value.client);
    }
    var kubeconfig := GetK8Config(cache, cfg, env, host);
    if kubeconfig.Failure? {
      return Failure(kubeconfig.error);
    }
    var restconfig := host.restConfig(kubeconfig.value);
    if restconfig.Failure? {
      var configErr := restconfig.error;
      if Contains(configErr.message, MissingKubeconfig) {
        var clientset := InClusterClient(host, flavor);
        if clientset.Failure? {
          return Failure(Error(configErr.message + ", " + clientset.error.message));
        }
        cache.Set(serviceCacheKey, ClientEntry(clientset.value));
        return Success(clientset.value);
      }
      return Failure(configErr);
    }
    var clientset := NewForConfig(host, flavor, restconfig.value);
    if clientset.Failure? {
      return Failure(clientset.error);
    }
    cache.Set(serviceCacheKey, ClientEntry(clientset.value));
    r := Success(clientset.value);
  }

  /** GetNewClientset: the typed client, cached under "k8sClient". */
  method GetNewClientset(cache: ConnectionCache, cfg: KubernetesConfig, env: Environment, host: Host)
    returns (r: Result<Clientset, Error>)
    requires cache.Valid()
    modifies cache
    ensures cache.Valid()
    ensures ClientsetKey in old(cache.entries) ==>
      && r == Success(old(cache.entries)[ClientsetKey].client)
      && cache.entries == old(cache.entries) && cache.builds == old(cache.builds)
    ensures ClientsetKey !in old(cache.entries) ==>
      && r == ClientFrom(host, Typed, ConfigFor(old(cache.entries), cfg, env, host))
      && cache.entries == (var after := AfterConfig(old(cache.entries), cfg, env, host);
                           if r.Success? then after[ClientsetKey := ClientEntry(r.value)] else after)
  {
    r := GetClient(cache, Typed, cfg, env, host);
  }

  /** GetNewClientCRD: the CRD client, cached under "GetNewClientCRD". */
  method GetNewClientCRD(cache: ConnectionCache, cfg: KubernetesConfig, env: Environment, host: Host)
    returns (r: Result<Clientset, Error>)
    requires cache.Valid()
    modifies cache
    ensures cache.Valid()
    ensures CrdClientKey in old(cache.entries) ==>
      && r == Success(old(cache.entries)[CrdClientKey].client)
      && cache.entries == old(cache.entries) && cache.builds == old(cache.builds)
    ensures CrdClientKey !in old(cache.entries) ==>
      && r == ClientFrom(host, CustomResourceDefinitions, ConfigFor(old(cache.entries), cfg, env, host))
      && cache.entries == (var after := AfterConfig(old(cache.entries), cfg, env, host);
                           if r.Success? then after[CrdClientKey := ClientEntry(r.value)] else after)
  {
    r := GetClient(cache, CustomResourceDefinitions, cfg, env, host);
  }

  /**
   * A successful acquisition stores the client under the flavour's key, and a
   * second acquisition of the same flavour then returns that client, builds
   * nothing (`afterFirst` is the build count after the first) and leaves the
   * cache as the first left it.
   */
  method AcquireTwice(cache: ConnectionCache, flavor: Flavor, cfg: KubernetesConfig, env: Environment, host: Host)
    returns (first: Result<Clientset, Error>, second: Result<Clientset, Error>, ghost afterFirst: nat)
    requires cache.Valid()
    modifies cache
    ensures first.Success? ==>
      && second == first
      && cache.builds == afterFirst
      && KeyFor(flavor) in cache.entries && cache.entries[KeyFor(flavor)] == ClientEntry(first.value)
  {
    first := GetClient(cache, flavor, cfg, env, host);
    afterFirst := cache.builds;
    second := GetClient(cache, flavor, cfg, env, host);
  }

  /**
   * getKubectlContext: the cached context name if there is one; otherwise the
   * configured context when set, else the kubeconfig's raw current context,
   * stored under "getKubectlContext". A kubeconfig error is returned and
   * caches nothing.
   */
  method GetKubectlContext(cache: ConnectionCache, cfg: KubernetesConfig, env: Environment, host: Host)
    returns (r: Result<string, Error>)
    requires cache.Valid()
    modifies cache
    ensures cache.Valid()
    ensures ContextKey in old(cache.entries) ==>
      r == Success(old(cache.entries)[ContextKey].name) && cache.entries == old(cache.entries)
    ensures ContextKey !in old(cache.entries) ==>
      var kc := ConfigFor(old(cache.entries), cfg, env, host);
      && (kc.Failure? ==> r == Failure(kc.error) && cache.entries == old(cache.entries))
      && (kc.Success? ==>
            && r == Success(if cfg.configContext.Some? then cfg.configContext.value else host.rawCurrentContext(kc.value))
            && cache.entries == AfterConfig(old(cache.entries), cfg, env, host)[ContextKey := ContextEntry(r.value)])
  {
    var cachedData := cache.Get(ContextKey);
    if cachedData.Some? {
      return Success(cachedData.value.name);
    }
    var kubeconfig := GetK8Config(cache, cfg, env, host);
    if kubeconfig.Failure? {
      return Failure(kubeconfig.error);
    }
    var currentContext := host.rawCurrentContext(kubeconfig.value);
    if cfg.configContext.Some? {
      currentContext := cfg.configContext.value;
    }
    cache.Set(ContextKey, ContextEntry(currentContext));
    r := Success(currentContext);
  }
}
