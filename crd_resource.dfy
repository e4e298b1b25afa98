/**
 * The kubernetes_crd_resource table's list hydrate
 * (kubernetes/table_kubernetes_crd_resource.go): for one CustomResourceDefinition,
 * list its custom resources through the dynamic client and stream, for each,
 * the generic envelope read out of the unstructured object.
 */
module CrdResource {
  import opened Wrappers
  import opened Utils
  import opened Paging
  import opened CustomResourceDefinition

  /** An unstructured (decoded JSON) value, as the dynamic client returns it. */
  datatype Json = Null | Bool(b: bool) | Number(n: int) | Str(s: string) | Arr(elems: seq<Json>) | Obj(fields: map<string, Json>)

  /** Indexing an unstructured map: a missing key yields nil. */
  function Field(fields: map<string, Json>, key: string): Json {
    if key in fields then fields[key] else Null
  }

  const LastAppliedAnnotation := "kubectl.kubernetes.io/last-applied-configuration"

  /** strings.TrimRight(s, "\""): every trailing double quote removed. */
  function TrimRightQuotes(s: string): (r: string)
    ensures |r| <= |s|
    ensures |r| == 0 || r[|r| - 1] != '"'
    decreases |s|
  {
    if |s| > 0 && s[|s| - 1] == '"' then TrimRightQuotes(s[..|s| - 1]) else s
  }

  /** TrimRight keeps a prefix and removes double quotes only. */
  lemma {:induction false} TrimRightQuotesPrefix(s: string)
    ensures TrimRightQuotes(s) == s[..|TrimRightQuotes(s)|]
    ensures forall k :: |TrimRightQuotes(s)| <= k < |s| ==> s[k] == '"'
    decreases |s|
  {
    if |s| > 0 && s[|s| - 1] == '"' {
      TrimRightQuotesPrefix(s[..|s| - 1]);
    }
  }

  /** strings.TrimLeft(s, "\""): every leading double quote removed. */
  function TrimLeftQuotes(s: string): (r: string)
    ensures |r| <= |s|
    ensures |r| == 0 || r[0] != '"'
    decreases |s|
  {
    if |s| > 0 && s[0] == '"' then TrimLeftQuotes(s[1..]) else s
  }

  /** TrimLeft keeps a suffix and removes double quotes only. */
  lemma {:induction false} TrimLeftQuotesSuffix(s: string)
    ensures TrimLeftQuotes(s) == s[|s| - |TrimLeftQuotes(s)|..]
    ensures forall k :: 0 <= k < |s| - |TrimLeftQuotes(s)| ==> s[k] == '"'
    decreases |s|
  {
    if |s| > 0 && s[0] == '"' {
      TrimLeftQuotesSuffix(s[1..]);
      forall k | 1 <= k < |s| - |TrimLeftQuotes(s)| ensures s[k] == '"' {
        assert s[1..][k - 1] == s[k];
      }
    }
  }

  /** What TrimLeft leaves ends as the string did. */
  lemma {:induction false} TrimLeftQuotesKeepsLast(s: string)
    ensures |TrimLeftQuotes(s)| > 0 ==> TrimLeftQuotes(s)[|TrimLeftQuotes(s)| - 1] == s[|s| - 1]
    decreases |s|
  {
    if |s| > 0 && s[0] == '"' {
      TrimLeftQuotesKeepsLast(s[1..]);
    }
  }

  /** Neither end of a string is a double quote. */
  predicate Unquoted(s: string) {
    |s| == 0 || (s[0] != '"' && s[|s| - 1] != '"')
  }

  /** The annotation column: the last-applied configuration with its surrounding double quotes trimmed. */
  function TrimQuotes(s: string): string
  {
    TrimLeftQuotes(TrimRightQuotes(s))
  }

  /**
   * Trimming cuts a contiguous piece s[i..j] out of s: only double quotes lie
   * outside it, and the piece neither starts nor ends with one.
   */
  lemma TrimQuotesPiece(s: string) returns (i: nat, j: nat)
    ensures i <= j <= |s| && TrimQuotes(s) == s[i..j]
    ensures forall k :: 0 <= k < i || j <= k < |s| ==> s[k] == '"'
    ensures Unquoted(TrimQuotes(s))
  {
    var right := TrimRightQuotes(s);
    var r := TrimLeftQuotes(right);
    TrimRightQuotesPrefix(s);
    TrimLeftQuotesSuffix(right);
    TrimLeftQuotesKeepsLast(right);
    j := |right|;
    i := |right| - |r|;
    assert right == s[..j];
    assert r == right[i..];
  }

  /** A string that neither starts nor ends with a double quote is left as it is. */
  lemma TrimQuotesUnquoted(s: string)
    requires Unquoted(s)
    ensures TrimQuotes(s) == s
  {
  }

  /** Trimming twice trims nothing more. */
  lemma TrimQuotesIdempotent(s: string)
    ensures TrimQuotes(TrimQuotes(s)) == TrimQuotes(s)
  {
    var _, _ := TrimQuotesPiece(s);
    TrimQuotesUnquoted(TrimQuotes(s));
  }

  /** A value quoted once on each side comes back unquoted. */
  lemma TrimQuotesQuoted(s: string)
    requires Unquoted(s)
    ensures TrimQuotes("\"" + s + "\"") == s
  {
    var q := "\"" + s + "\"";
    assert q[..|q| - 1] == "\"" + s;
    if |s| == 0 {
      assert q == "\"\"";
      assert TrimRightQuotes(q) == TrimRightQuotes("\"");
      assert "\""[..0] == "";
    } else {
      var p := "\"" + s;
      assert p[|p| - 1] == s[|s| - 1];
      assert TrimRightQuotes(q) == TrimRightQuotes(p) == p;
      assert p[1..] == s;
      assert TrimLeftQuotes(p) == TrimLeftQuotes(s) == s;
    }
  }

  /**
   * The shape listK8sCRDResources reads without failing a type assertion:
   * string kind and apiVersion, a metadata map with string name and namespace
   * and an annotations map holding the last-applied configuration as a string.
   */
  predicate WellFormedResource(ob: Json) {
    && ob.Obj?
    && Field(ob.fields, "kind").Str?
    && Field(ob.fields, "apiVersion").Str?
    && Field(ob.fields, "metadata").Obj?
    && var metadata := Field(ob.fields, "metadata").fields;
    && Field(metadata, "name").Str?
    && Field(metadata, "namespace").Str?
    && Field(metadata, "annotations").Obj?
    && Field(Field(metadata, "annotations").fields, LastAppliedAnnotation).Str?
  }

  /** CRDResourceInfo: the generic envelope of a custom resource. */
  datatype CrdResourceInfo = CrdResourceInfo(kind: string, apiVersion: string, name: string, namespace: string,
                                             annotations: string, spec: Json)

  /** The envelope read out of one unstructured object. */
  function ExtractEnvelope(ob: Json): (info: CrdResourceInfo)
    requires WellFormedResource(ob)
  {
    var metadata := Field(ob.fields, "metadata").fields;
    var lastApplied := Field(Field(metadata, "annotations").fields, LastAppliedAnnotation).s;
    CrdResourceInfo(
      Field(ob.fields, "kind").s,
      Field(ob.fields, "apiVersion").s,
      Field(metadata, "name").s,
      Field(metadata, "namespace").s,
      TrimQuotes(lastApplied),
      Field(ob.fields, "spec"))
  }

  /** The smallest object whose envelope is `info`, its annotation quoted as kubectl may store it. */
  function BuildResource(info: CrdResourceInfo, quoted: bool): (ob: Json)
    ensures WellFormedResource(ob)
  {
    var lastApplied := if quoted then "\"" + info.annotations + "\"" else info.annotations;
    Obj(map[
      "kind" := Str(info.kind),
      "apiVersion" := Str(info.apiVersion),
      "metadata" := Obj(map[
        "name" := Str(info.name),
        "namespace" := Str(info.namespace),
        "annotations" := Obj(map[LastAppliedAnnotation := Str(lastApplied)])]),
      "spec" := info.spec])
  }

  /**
   * Extraction inverts building: every column of an envelope with an unquoted
   * annotation, the spec carried through untouched, survives the round trip,
   * whether or not the annotation was stored quoted.
   */
  lemma ExtractBuild(info: CrdResourceInfo, quoted: bool)
    requires Unquoted(info.annotations)
    ensures ExtractEnvelope(BuildResource(info, quoted)) == info
  {
    if quoted {
      TrimQuotesQuoted(info.annotations);
    } else {
      TrimQuotesUnquoted(info.annotations);
    }
  }

  /** schema.GroupVersionResource. */
  datatype GroupVersionResource = GroupVersionResource(group: string, version: string, resource: string)

  /** The resource listed for a CRD: its group, its FIRST declared version and its plural name. */
  function ResourceId(crd: Crd): (gvr: GroupVersionResource)
    requires |crd.versions| > 0
    ensures gvr.version == crd.versions[0].name && gvr.group == crd.group && gvr.resource == crd.plural
  {
    GroupVersionResource(crd.group, crd.versions[0].name, crd.plural)
  }

  /** The empty metav1.ListOptions: no page size, no selector, no token. */
  const NoListOptions := ListOptions(0, "", "")

  /** How many of a page's items are streamed: all of them, or up to the item that exhausts the host's rows. */
  function Reached<T>(items: seq<T>, rowsRemaining: Option<nat>): (n: nat)
    ensures n <= |items|
    ensures rowsRemaining.Some? && 0 < rowsRemaining.value <= |items| ==> n == rowsRemaining.value
    ensures rowsRemaining.None? || rowsRemaining.value == 0 || rowsRemaining.value > |items| ==> n == |items|
  {
    if BudgetRunsOut(items, rowsRemaining, 0) then rowsRemaining.value else |items|
  }

  /** The envelopes of the given objects, in order. */
  function Envelopes(items: seq<Json>): (infos: seq<CrdResourceInfo>)
    requires forall k :: 0 <= k < |items| ==> WellFormedResource(items[k])
    ensures |infos| == |items|
    decreases |items|
  {
    if |items| == 0 then []
    else Envelopes(items[..|items| - 1]) + [ExtractEnvelope(items[|items| - 1])]
  }

  /** The k-th envelope is the k-th object's: streaming keeps the reply's order and drops nothing before the cut. */
  lemma {:induction false} EnvelopesAt(items: seq<Json>, k: nat)
    requires forall j :: 0 <= j < |items| ==> WellFormedResource(items[j])
    requires k < |items|
    ensures Envelopes(items)[k] == ExtractEnvelope(items[k])
    decreases |items|
  {
    var init := items[..|items| - 1];
    if k < |items| - 1 {
      EnvelopesAt(init, k);
    }
  }

  /** One more item streamed adds its envelope at the end. */
  lemma EnvelopesSnoc(items: seq<Json>, i: nat)
    requires i < |items|
    requires forall k :: 0 <= k <= i ==> WellFormedResource(items[k])
    ensures Envelopes(items[..i + 1]) == Envelopes(items[..i]) + [ExtractEnvelope(items[i])]
  {
    assert items[..i + 1][..i] == items[..i];
  }

  /**
   * The streaming loop: the envelope of each item in order, stopping right
   * after the one that exhausts the host's rows.
   */
  method StreamEnvelopes(items: seq<Json>, rowsRemaining: Option<nat>) returns (emitted: seq<CrdResourceInfo>)
    requires forall k :: 0 <= k < Reached(items, rowsRemaining) ==> WellFormedResource(items[k])
    ensures emitted == Envelopes(items[..Reached(items, rowsRemaining)])
  {
    ghost var reached := Reached(items, rowsRemaining);
    emitted := [];
    var i := 0;
    while i < |items|
      invariant 0 <= i <= reached
      invariant emitted == Envelopes(items[..i])
      invariant rowsRemaining.Some? && rowsRemaining.value > 0 ==> i < rowsRemaining.value
    {
      EnvelopesSnoc(items, i);
      emitted := emitted + [ExtractEnvelope(items[i])];
      i := i + 1;
      if rowsRemaining == Some(|emitted|) {
        return;
      }
    }
  }

  /**
   * listK8sCRDResources: the resource is chosen from the CRD before anything
   * else (a CRD without versions is outside what the code handles); a client
   * error is returned before any request; otherwise ONE list request with
   * empty options is made, whose error is returned as is, and the envelopes
   * of its items are streamed in order, stopping successfully right after
   * the one that exhausts the host's rows. Each item streamed must have the
   * shape the code reads.
   */
  method ListCrdResources(crd: Crd, client: Result<Clientset, Error>, rowsRemaining: Option<nat>,
                          response: Result<Page<Json>, Error>)
    returns (emitted: seq<CrdResourceInfo>, requests: seq<(GroupVersionResource, ListOptions)>, err: Option<Error>)
    requires |crd.versions| > 0
    requires response.Success? ==>
      forall k :: 0 <= k < Reached(response.value.items, rowsRemaining) ==> WellFormedResource(response.value.items[k])
    ensures client.Failure? ==> emitted == [] && requests == [] && err == Some(client.error)
    ensures client.Success? ==> requests == [(ResourceId(crd), NoListOptions)]
    ensures client.Success? && response.Failure? ==> emitted == [] && err == Some(response.error)
    ensures client.Success? && response.Success? ==>
      var items := response.value.items;
      err == None && emitted == Envelopes(items[..Reached(items, rowsRemaining)])
  {
    var resourceId := GroupVersionResource(crd.group, crd.versions[0].name, crd.plural);
    if client.Failure? {
      return [], [], Some(client.error);
    }
    requests := [(resourceId, ListOptions(0, "", ""))];
    if response.Failure? {
      return [], requests, Some(response.error);
    }
    emitted := StreamEnvelopes(response.value.items, rowsRemaining);
    err := None;
  }
}
