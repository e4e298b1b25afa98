/** The kubernetes_cronjob table's hydrate and transform functions (kubernetes/table_kubernetes_cronjob.go). */
module CronJob {
  import opened Wrappers
  import opened Strings
  import opened Utils
  import opened Paging

  /** A batch/v1 CronJob, reduced to the metadata the core reads. */
  datatype CronJob = CronJob(name: string, namespace: string, labels: map<string, string>, annotations: map<string, string>)

  /** The options of the first list request: the clamped page size and the rendered field selector. */
  function CronJobListOptions(quals: map<string, string>, limit: Option<int>): ListOptions {
    ListOptions(PageSize(limit), FieldSelector(quals), "")
  }

  /**
   * listK8sCronJobs: a client error is returned before any request; otherwise
   * the page size is clamped, the name/namespace qualifiers are pushed down as
   * a field selector on every request, and the shared list protocol runs.
   */
  method ListCronJobs(client: Result<Clientset, Error>, quals: map<string, string>, limit: Option<int>,
                      rowsRemaining: Option<nat>, responses: seq<Response<CronJob>>)
    returns (emitted: seq<CronJob>, requests: seq<ListOptions>, err: Option<Error>)
    requires Ends(responses)
    ensures client.Failure? ==> emitted == [] && requests == [] && err == Some(client.error)
    ensures client.Success? ==>
      && |requests| <= |responses|
      && requests == Requests(CronJobListOptions(quals, limit), responses, |requests|)
      && Listing(emitted, |requests|, err) == Protocol(responses, rowsRemaining, 0)
  {
    if client.Failure? {
      return [], [], Some(client.error);
    }
    var input := ListOptions(DefaultPageSize, "", "");
    if limit.Some? {
      if limit.value < input.limit {
        if limit.value < 1 {
          input := input.(limit := 1);
        } else {
          input := input.(limit := limit.value);
        }
      }
    }
    var commonFieldSelectorValue := CommonOptionalKeyQualsValueForFieldSelector(quals);
    if |commonFieldSelectorValue| > 0 {
      input := input.(fieldSelector := Join(commonFieldSelectorValue, ","));
    }
    emitted, requests, err := ListPages(input, responses, rowsRemaining);
  }

  /**
   * Every request of a cron-job listing has a page size in [1, 500] and
   * carries the same field selector; every request after the first carries
   * the continuation token of the reply before it.
   */
  lemma {:induction false} CronJobRequests(quals: map<string, string>, limit: Option<int>, responses: seq<Response<CronJob>>, n: nat)
    requires n <= |responses|
    ensures var requests := Requests(CronJobListOptions(quals, limit), responses, n);
      && |requests| == n
      && (forall j :: 0 <= j < n ==> 1 <= requests[j].limit <= DefaultPageSize && requests[j].fieldSelector == FieldSelector(quals))
      && (n > 0 ==> requests[0].continueToken == "")
      && (forall j :: 0 < j < n ==> requests[j].continueToken == TokenOf(responses[j - 1]))
  {
    var opts := CronJobListOptions(quals, limit);
    forall j | 0 <= j < n
      ensures Requests(opts, responses, n)[j] == RequestAt(opts, responses, j)
      ensures Requests(opts, responses, n)[j].limit == PageSize(limit)
      ensures Requests(opts, responses, n)[j].fieldSelector == FieldSelector(quals)
    {
      RequestsAt(opts, responses, n, j);
    }
  }

  /**
   * getK8sCronJob: after a client error, nothing is asked when either key is
   * empty; otherwise one get by namespace and name, a not-found error yielding
   * the object the client returned and any other error being returned.
   */
  method GetCronJob(client: Result<Clientset, Error>, quals: map<string, string>, api: (string, string) -> GetReply<CronJob>)
    returns (r: Result<Option<CronJob>, Error>, calls: seq<(string, string)>)
    ensures client.Failure? ==> r == Failure(client.error) && calls == []
    ensures var name, namespace := QualString(quals, "name"), QualString(quals, "namespace");
      client.Success? && (name == "" || namespace == "") ==> r == Success(None) && calls == []
    ensures var name, namespace := QualString(quals, "name"), QualString(quals, "namespace");
      client.Success? && name != "" && namespace != "" ==>
        var reply := api(namespace, name);
        && calls == [(namespace, name)]
        && (r.Failure? <==> reply.err.Some? && !IsNotFoundError(reply.err.value))
        && (r.Failure? ==> r.error == reply.err.value)
        && (r.Success? ==> r.value == Some(reply.obj))
  {
    if client.Failure? {
      return Failure(client.error), [];
    }
    var name := QualString(quals, "name");
    var namespace := QualString(quals, "namespace");
    if namespace == "" || name == "" {
      return Success(None), [];
    }
    calls := [(namespace, name)];
    var cronJob := api(namespace, name);
    if cronJob.err.Some? && !IsNotFoundError(cronJob.err.value) {
      return Failure(cronJob.err.value), calls;
    }
    r := Success(Some(cronJob.obj));
  }

  /** transformCronJobTags: the cron job's labels merged over its annotations. */
  method TransformCronJobTags(obj: CronJob) returns (tags: map<string, string>)
    ensures IsTagMerge(tags, obj.labels, obj.annotations)
  {
    tags := MergeTags(obj.labels, obj.annotations);
  }
}
