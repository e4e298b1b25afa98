/**
 * The plugin's table map (kubernetes/plugin.go): the built-in tables, plus one
 * table per discovered CustomResourceDefinition whose name is not taken yet.
 * The discovered CRD's name, plural, group and the version in effect are
 * handed to the table builder through context values, which persist from one
 * CRD to the next.
 */
module Plugin {
  import opened Wrappers
  import opened Utils
  import opened Paging
  import opened CustomResourceDefinition

  /** The keys of the context values the CRD loop sets. */
  datatype ContextKey = CrdName | CustomResourceName | GroupName | ActiveVersion | VersionSchema

  datatype ContextValue = Text(text: string) | Schema(schema: SchemaProps)

  /** The values a context carries for the keys above (context.WithValue keeps only the last one written). */
  type Context = map<ContextKey, ContextValue>

  /**
   * A table definition: a built-in table, or the table tableKubernetesCustomResource
   * builds from the context values in effect when it is called.
   */
  datatype Table = BuiltinTable(name: string) | CustomResourceTable(ctx: Context)

  const BuiltinTableNames: seq<string> := [
    "kubernetes_cluster_role",
    "kubernetes_cluster_role_binding",
    "kubernetes_config_map",
    "kubernetes_cronjob",
    "kubernetes_daemonset",
    "kubernetes_deployment",
    "kubernetes_endpoint",
    "kubernetes_endpoint_slice",
    "kubernetes_ingress",
    "kubernetes_job",
    "kubernetes_limit_range",
    "kubernetes_namespace",
    "kubernetes_network_policy",
    "kubernetes_node",
    "kubernetes_persistent_volume",
    "kubernetes_persistent_volume_claim",
    "kubernetes_pod",
    "kubernetes_pod_disruption_budget",
    "kubernetes_pod_security_policy",
    "kubernetes_replicaset",
    "kubernetes_replication_controller",
    "kubernetes_resource_quota",
    "kubernetes_role",
    "kubernetes_role_binding",
    "kubernetes_secret",
    "kubernetes_service",
    "kubernetes_service_account",
    "kubernetes_stateful_set",
    "kubernetes_custom_resource_definition"
  ]

  /** The initial table map: each built-in name mapped to its built-in definition. */
  function BuiltinTables(): (tables: map<string, Table>)
    ensures tables.Keys == set k | 0 <= k < |BuiltinTableNames| :: BuiltinTableNames[k]
    ensures forall name :: name in tables ==> tables[name] == BuiltinTable(name)
  {
    map k | 0 <= k < |BuiltinTableNames| :: BuiltinTableNames[k] := BuiltinTable(BuiltinTableNames[k])
  }

  /** version.Schema.OpenAPIV3Schema.Properties["spec"]: the zero value when absent. */
  function SpecSchema(version: CrdVersion): SchemaProps {
    if "spec" in version.schemaProperties then version.schemaProperties["spec"] else EmptySchema
  }

  /** A served version overwrites the version in effect and its schema. */
  function UseVersion(ctx: Context, version: CrdVersion): Context {
    ctx[ActiveVersion := Text(version.name)][VersionSchema := Schema(SpecSchema(version))]
  }

  /** The inner loop over a CRD's versions: each served one, in declared order, overwrites the version in effect. */
  function ApplyVersions(ctx: Context, versions: seq<CrdVersion>): Context
    decreases |versions|
  {
    if |versions| == 0 then ctx
    else ApplyVersions(if versions[0].served then UseVersion(ctx, versions[0]) else ctx, versions[1..])
  }

  /** The index of the last served version, if any. */
  function LastServed(versions: seq<CrdVersion>): (k: Option<nat>)
    ensures k.Some? ==> k.value < |versions| && versions[k.value].served
    ensures k.Some? ==> forall j :: k.value < j < |versions| ==> !versions[j].served
    ensures k.None? ==> forall j :: 0 <= j < |versions| ==> !versions[j].served
    decreases |versions|
  {
    if |versions| == 0 then None
    else if versions[|versions| - 1].served then Some(|versions| - 1)
    else LastServed(versions[..|versions| - 1])
  }

  /** Processing one more version at the end applies it after the others. */
  lemma {:induction false} ApplyVersionsSnoc(ctx: Context, versions: seq<CrdVersion>, v: CrdVersion)
    ensures ApplyVersions(ctx, versions + [v]) == (var c := ApplyVersions(ctx, versions); if v.served then UseVersion(c, v) else c)
    decreases |versions|
  {
    if |versions| == 0 {
      assert ([] + [v])[1..] == [];
    } else {
      assert (versions + [v])[1..] == versions[1..] + [v];
      ApplyVersionsSnoc(if versions[0].served then UseVersion(ctx, versions[0]) else ctx, versions[1..], v);
    }
  }

  /** Using a version after another leaves only the later one in effect. */
  lemma UseVersionTwice(ctx: Context, v: CrdVersion, w: CrdVersion)
    ensures UseVersion(UseVersion(ctx, v), w) == UseVersion(ctx, w)
  {
  }

  /**
   * The version in effect after a CRD's versions is the LAST served one, with
   * its schema; when none is served, the context is left as it was, so the
   * values of the previous CRD stay in effect.
   */
  lemma {:induction false} ApplyVersionsLastServed(ctx: Context, versions: seq<CrdVersion>)
    ensures ApplyVersions(ctx, versions) == match LastServed(versions)
      case None => ctx
      case Some(k) => UseVersion(ctx, versions[k])
    decreases |versions|
  {
    if |versions| > 0 {
      var init, last := versions[..|versions| - 1], versions[|versions| - 1];
      assert versions == init + [last];
      ApplyVersionsSnoc(ctx, init, last);
      ApplyVersionsLastServed(ctx, init);
      if !last.served {
        assert LastServed(versions) == LastServed(init);
      } else {
        match LastServed(init)
        case None =>
        case Some(k) => UseVersionTwice(ctx, init[k], last);
      }
    }
  }

  /** The context values the CRD loop sets before looking at the versions. */
  function EnterCrd(ctx: Context, crd: Crd): Context {
    ctx[CrdName := Text(crd.name)][CustomResourceName := Text(crd.plural)][GroupName := Text(crd.group)]
  }

  /** The context after processing `crd`. */
  function CrdContext(ctx: Context, crd: Crd): Context {
    ApplyVersions(EnterCrd(ctx, crd), crd.versions)
  }

  /** The CRD loop: each CRD updates the context, then adds its table when its name is not yet a key. */
  function Register(tables: map<string, Table>, ctx: Context, crds: seq<Crd>): map<string, Table>
    decreases |crds|
  {
    if |crds| == 0 then tables
    else
      var ctx' := CrdContext(ctx, crds[0]);
      Register(if crds[0].name in tables then tables else tables[crds[0].name := CustomResourceTable(ctx')], ctx', crds[1..])
  }

  /** The names of the CRDs. */
  function Names(crds: seq<Crd>): set<string> {
    set k | 0 <= k < |crds| :: crds[k].name
  }

  /** The final key set is the initial keys plus every CRD name. */
  lemma {:induction false} RegisterKeys(tables: map<string, Table>, ctx: Context, crds: seq<Crd>)
    ensures Register(tables, ctx, crds).Keys == tables.Keys + Names(crds)
    decreases |crds|
  {
    if |crds| > 0 {
      var ctx' := CrdContext(ctx, crds[0]);
      var t' := if crds[0].name in tables then tables else tables[crds[0].name := CustomResourceTable(ctx')];
      RegisterKeys(t', ctx', crds[1..]);
      assert Names(crds) == {crds[0].name} + Names(crds[1..]) by {
        forall n | n in Names(crds) ensures n in {crds[0].name} + Names(crds[1..]) {
          var k :| 0 <= k < |crds| && crds[k].name == n;
          if k > 0 { assert crds[1..][k - 1].name == n; }
        }
        forall n | n in Names(crds[1..]) ensures n in Names(crds) {
          var k :| 0 <= k < |crds| - 1 && crds[1..][k].name == n;
          assert crds[k + 1].name == n;
        }
      }
    }
  }

  /** An entry present before the loop, built-in or not, is never replaced. */
  lemma {:induction false} RegisterKeepsExisting(tables: map<string, Table>, ctx: Context, crds: seq<Crd>, name: string)
    requires name in tables
    ensures name in Register(tables, ctx, crds) && Register(tables, ctx, crds)[name] == tables[name]
    decreases |crds|
  {
    if |crds| > 0 {
      var ctx' := CrdContext(ctx, crds[0]);
      var t' := if crds[0].name in tables then tables else tables[crds[0].name := CustomResourceTable(ctx')];
      RegisterKeepsExisting(t', ctx', crds[1..], name);
    }
  }

  /**
   * The context values a custom resource table is built from name `crd`, its
   * plural and group, and, when it serves a version, its last served version
   * with that version's spec schema.
   */
  predicate Describes(ctx: Context, crd: Crd) {
    && CrdName in ctx && ctx[CrdName] == Text(crd.name)
    && CustomResourceName in ctx && ctx[CustomResourceName] == Text(crd.plural)
    && GroupName in ctx && ctx[GroupName] == Text(crd.group)
    && (LastServed(crd.versions).Some? ==>
          var v := crd.versions[LastServed(crd.versions).value];
          ActiveVersion in ctx && ctx[ActiveVersion] == Text(v.name)
          && VersionSchema in ctx && ctx[VersionSchema] == Schema(SpecSchema(v)))
  }

  /**
   * A name that is not yet a key gets the table of the FIRST CRD with that
   * name, built from a context that describes that CRD.
   */
  lemma {:induction false} RegisterFirstWins(tables: map<string, Table>, ctx: Context, crds: seq<Crd>, k: nat)
    requires k < |crds| && crds[k].name !in tables
    requires forall j :: 0 <= j < k ==> crds[j].name != crds[k].name
    ensures var r := Register(tables, ctx, crds);
      && crds[k].name in r && r[crds[k].name].CustomResourceTable?
      && Describes(r[crds[k].name].ctx, crds[k])
    decreases k
  {
    var ctx' := CrdContext(ctx, crds[0]);
    var t' := if crds[0].name in tables then tables else tables[crds[0].name := CustomResourceTable(ctx')];
    if k == 0 {
      RegisterKeepsExisting(t', ctx', crds[1..], crds[0].name);
      ApplyVersionsLastServed(EnterCrd(ctx, crds[0]), crds[0].versions);
    } else {
      assert crds[1..][k - 1] == crds[k];
      RegisterFirstWins(t', ctx', crds[1..], k - 1);
    }
  }

  /**
   * The table map of a successful discovery: every built-in table as it was,
   * whatever CRDs are found, and exactly one key more per distinct CRD name.
   */
  lemma TableMapKeys(ctx: Context, crds: seq<Crd>)
    ensures var tables := Register(BuiltinTables(), ctx, crds);
      && tables.Keys == BuiltinTables().Keys + Names(crds)
      && forall name :: name in BuiltinTables() ==> tables[name] == BuiltinTable(name)
  {
    RegisterKeys(BuiltinTables(), ctx, crds);
    forall name | name in BuiltinTables()
      ensures Register(BuiltinTables(), ctx, crds)[name] == BuiltinTable(name)
    {
      RegisterKeepsExisting(BuiltinTables(), ctx, crds, name);
    }
  }

  /**
   * A CRD declaring v1alpha1 (not served), v1beta1 and v1 (both served), in
   * that order, gets a table on v1, not on v1beta1.
   */
  lemma LastOfThreeServedVersions(ctx: Context, name: string, group: string, plural: string)
    requires name !in BuiltinTables()
    ensures var v := [CrdVersion("v1alpha1", false, map[]), CrdVersion("v1beta1", true, map[]), CrdVersion("v1", true, map[])];
      var tables := Register(BuiltinTables(), ctx, [Crd(name, group, plural, v)]);
      name in tables && tables[name].CustomResourceTable? && ActiveVersion in tables[name].ctx && tables[name].ctx[ActiveVersion] == Text("v1")
  {
    var v := [CrdVersion("v1alpha1", false, map[]), CrdVersion("v1beta1", true, map[]), CrdVersion("v1", true, map[])];
    assert LastServed(v) == Some(2);
    RegisterFirstWins(BuiltinTables(), ctx, [Crd(name, group, plural, v)], 0);
  }

  /**
   * A CRD that serves no version is registered with the version (and schema)
   * left in the context by the CRD before it.
   */
  lemma UnservedInheritsVersion(ctx: Context, first: Crd, second: Crd)
    requires first.name !in BuiltinTables() && second.name !in BuiltinTables() && first.name != second.name
    requires LastServed(first.versions).Some? && LastServed(second.versions).None?
    ensures var tables := Register(BuiltinTables(), ctx, [first, second]);
      && second.name in tables && tables[second.name].CustomResourceTable?
      && ActiveVersion in tables[second.name].ctx
      && tables[second.name].ctx[ActiveVersion] == Text(first.versions[LastServed(first.versions).value].name)
  {
    var ctx1 := CrdContext(ctx, first);
    var ctx2 := CrdContext(ctx1, second);
    ApplyVersionsLastServed(EnterCrd(ctx, first), first.versions);
    ApplyVersionsLastServed(EnterCrd(ctx1, second), second.versions);
    assert ctx2[ActiveVersion] == ctx1[ActiveVersion];
    var t1 := BuiltinTables()[first.name := CustomResourceTable(ctx1)];
    var t2 := t1[second.name := CustomResourceTable(ctx2)];
    assert [first, second][1..] == [second];
    assert [second][1..] == [];
    assert Register(BuiltinTables(), ctx, [first, second]) == Register(t1, ctx1, [second]);
    assert Register(t1, ctx1, [second]) == Register(t2, ctx2, []);
  }

  /** The outcome of listK8sDynamicCRDs for a client outcome and the replies of the CRD list endpoint. */
  function DynamicCrds(client: Result<Clientset, Error>, responses: seq<Response<Crd>>): Result<seq<Crd>, Error>
    requires Ends(responses)
  {
    if client.Failure? then Failure(client.error)
    else
      var n := FirstTerminal(responses);
      if responses[n].Failure? then Failure(responses[n].error) else Success(Stream(responses[..n + 1]))
  }

  /** The one page size CRD discovery asks for. */
  const DiscoveryOptions := ListOptions(DefaultPageSize, "", "")

  /**
   * listK8sDynamicCRDs: pages of 500 CRDs, each continuation token carried to
   * the next request, until the first page without one; the result is every
   * page's items in order, and any error discards what was gathered.
   */
  method ListDynamicCrds(client: Result<Clientset, Error>, responses: seq<Response<Crd>>)
    returns (crds: Result<seq<Crd>, Error>, requests: seq<ListOptions>)
    requires Ends(responses)
    ensures crds == DynamicCrds(client, responses)
    ensures client.Failure? ==> requests == []
    ensures client.Success? ==> |requests| == FirstTerminal(responses) + 1 && requests == Requests(DiscoveryOptions, responses, |requests|)
  {
    if client.Failure? {
      return Failure(client.error), [];
    }
    var input := ListOptions(DefaultPageSize, "", "");
    var gathered: seq<Crd> := [];
    requests := [];
    var pageLeft := true;
    while pageLeft
      invariant |requests| <= FirstTerminal(responses) + 1
      invariant requests == Requests(DiscoveryOptions, responses, |requests|)
      invariant gathered == Stream(responses[..|requests|])
      invariant pageLeft ==> |requests| <= FirstTerminal(responses)
      invariant pageLeft ==> input == RequestAt(DiscoveryOptions, responses, |requests|)
      invariant !pageLeft ==> |requests| == FirstTerminal(responses) + 1 && responses[|requests| - 1].Success?
      decreases |responses| - |requests|, pageLeft
    {
      var i := |requests|;
      var response := responses[i];
      requests := requests + [input];
      if response.Failure? {
        TerminalAt(responses, i);
        return Failure(response.error), requests;
      }
      if response.value.continueToken != "" {
        input := input.(continueToken := response.value.continueToken);
      } else {
        TerminalAt(responses, i);
        pageLeft := false;
      }
      StreamPrefixSnoc(responses, i);
      gathered := gathered + response.value.items;
    }
    crds := Success(gathered);
  }

  /**
   * pluginTableDefinitions: a CRD discovery error fails the whole table map;
   * otherwise the built-in tables, then one table per discovered CRD whose
   * name is not yet a key, the context values carried across CRDs.
   */
  method PluginTableDefinitions(ctx: Context, client: Result<Clientset, Error>, responses: seq<Response<Crd>>)
    returns (r: Result<map<string, Table>, Error>)
    requires Ends(responses)
    ensures DynamicCrds(client, responses).Failure? ==> r == Failure(DynamicCrds(client, responses).error)
    ensures DynamicCrds(client, responses).Success? ==> r == Success(Register(BuiltinTables(), ctx, DynamicCrds(client, responses).value))
  {
    var tables := BuiltinTables();
    var crds, _ := ListDynamicCrds(client, responses);
    if crds.Failure? {
      return Failure(crds.error);
    }
    var ctx' := ctx;
    var i := 0;
    while i < |crds.value|
      invariant 0 <= i <= |crds.value|
      invariant Register(BuiltinTables(), ctx, crds.value) == Register(tables, ctx', crds.value[i..])
    {
      var crd := crds.value[i];
      ctx' := ctx'[CrdName := Text(crd.name)];
      ctx' := ctx'[CustomResourceName := Text(crd.plural)];
      ctx' := ctx'[GroupName := Text(crd.group)];
      ghost var entered := ctx';
      var j := 0;
      while j < |crd.versions|
        invariant 0 <= j <= |crd.versions|
        invariant ApplyVersions(entered, crd.versions) == ApplyVersions(ctx', crd.versions[j..])
      {
        var version := crd.versions[j];
        if version.served {
          ctx' := ctx'[ActiveVersion := Text(version.name)];
          ctx' := ctx'[VersionSchema := Schema(SpecSchema(version))];
        }
        assert crd.versions[j..][1..] == crd.versions[j + 1..];
        j := j + 1;
      }
      assert crd.versions[j..] == [];
      if crd.name !in tables {
        tables := tables[crd.name := CustomResourceTable(ctx')];
      }
      assert crds.value[i..][1..] == crds.value[i + 1..];
      i := i + 1;
    }
    assert crds.value[i..] == [];
    r := Success(tables);
  }
}
