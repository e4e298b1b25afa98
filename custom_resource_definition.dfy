/**
 * The kubernetes_custom_resource_definition table
 * (kubernetes/table_kubernetes_custom_resource_definition.go) and the shape of
 * a CustomResourceDefinition as the rest of the plugin reads it.
 */
module CustomResourceDefinition {
  import opened Wrappers
  import opened Utils
  import opened Paging

  /** A node of a version's OpenAPI v3 schema, kept opaque. */
  datatype SchemaProps = SchemaProps(schemaType: string, description: string)

  /** The zero value Go yields when a schema property is absent. */
  const EmptySchema := SchemaProps("", "")

  /** One declared version of a CRD: its name, whether it is served, and its schema's top-level properties. */
  datatype CrdVersion = CrdVersion(name: string, served: bool, schemaProperties: map<string, SchemaProps>)

  /** A CustomResourceDefinition: its name, Spec.Group, Spec.Names.Plural and Spec.Versions in declared order. */
  datatype Crd = Crd(name: string, group: string, plural: string, versions: seq<CrdVersion>)

  /**
   * listK8sCustomResourceDefinitions: a client error is returned before any
   * request; otherwise the CRDs are listed with the clamped page size and no
   * field selector (the table declares no key columns), following the shared
   * list protocol.
   */
  method ListCustomResourceDefinitions(client: Result<Clientset, Error>, limit: Option<int>, rowsRemaining: Option<nat>,
                                       responses: seq<Response<Crd>>)
    returns (emitted: seq<Crd>, requests: seq<ListOptions>, err: Option<Error>)
    requires Ends(responses)
    ensures client.Failure? ==> emitted == [] && requests == [] && err == Some(client.error)
    ensures client.Success? ==>
      && |requests| <= |responses|
      && requests == Requests(ListOptions(PageSize(limit), "", ""), responses, |requests|)
      && Listing(emitted, |requests|, err) == Protocol(responses, rowsRemaining, 0)
  {
    if client.Failure? {
      return [], [], Some(client.error);
    }
    var input := ListOptions(DefaultPageSize, "", "");
    if limit.Some? {
      if limit.value < input.limit {
        if limit.value < 1 {
          input := input.(limit := 1);
        } else {
          input := input.(limit := limit.value);
        }
      }
    }
    emitted, requests, err := ListPages(input, responses, rowsRemaining);
  }

  /**
   * getK8sCustomResourceDefinition: the CRD named by the `name` qualifier;
   * every error of the get, not-found included, is returned.
   */
  method GetCustomResourceDefinition(client: Result<Clientset, Error>, quals: map<string, string>, api: string -> GetReply<Crd>)
    returns (r: Result<Crd, Error>, calls: seq<string>)
    ensures client.Failure? ==> r == Failure(client.error) && calls == []
    ensures client.Success? ==> calls == [QualString(quals, "name")]
    ensures client.Success? ==>
      var reply := api(QualString(quals, "name"));
      && (reply.err.Some? <==> r.Failure?)
      && (reply.err.Some? ==> r.error == reply.err.value)
      && (reply.err.None? ==> r.value == reply.obj)
  {
    if client.Failure? {
      return Failure(client.error), [];
    }
    var name := QualString(quals, "name");
    calls := [name];
    var response := api(name);
    if response.err.Some? {
      return Failure(response.err.value), calls;
    }
    r := Success(response.obj);
  }
}
