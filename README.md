# Kubernetes plugin core — a Dafny model

This project models the listing and registration logic of a Steampipe plugin that exposes Kubernetes resources as tables. Built-in kinds and kinds discovered through CustomResourceDefinitions (CRDs) both become tables. The model covers:

- **Paged listing with a row budget** (`Paging`, `CronJob`, `CustomResourceDefinition`).
  - The page size is 500, lowered to the query limit but never below 1.
  - Each request carries the previous reply's continuation token, and the loop ends after the first reply without one.
  - Items are streamed in order, and the listing stops successfully right after the item that exhausts the host's rows.
  - Any request error is returned at once.
  - `ListPages` is a `while` loop proved equal to the reference function `Protocol`. Lemmas then prove what `Protocol` does when the pages are exhausted and when the rows run out.
- **Field-selector rendering, tag merging, the not-found test and the key-qualifier lists** (`Utils`).
- **Kubeconfig selection and the connection cache** (`Utils`).
  - The kubeconfig source is chosen by priority: explicit path, path list, `KUBE_CONFIG_PATHS`, `KUBERNETES_MASTER`, then the default path.
  - The chosen paths are expanded into an explicit path or a precedence list.
  - The cache is a `class ConnectionCache` whose `entries` map the methods update.
  - It builds at most once per key: the kubeconfig, the typed client, the CRD client and the current context.
  - It falls back to the in-cluster configuration only for the missing-default-file error.
- **The table map** (`Plugin`).
  - The 29 built-in tables always keep their entries.
  - One table is added per discovered CRD whose name is not yet a key.
  - Context values (CRD name, plural, group, active version, schema) are threaded from one CRD to the next.
  - CRD discovery is an accumulating paginator.
- **Generic custom-resource listing** (`CrdResource`).
  - The group/version/resource triple is built from the CRD's first declared version.
  - One list request is made.
  - Each unstructured object yields an envelope: kind, apiVersion, name, namespace, spec, and the last-applied-configuration annotation with its surrounding double quotes trimmed.

The cluster API is modelled by its replies. The i-th list request receives `responses[i]`, and `Ends(responses)` says that the last reply is terminal. Every listing also returns the requests it made, so their page size, field selector and tokens are part of the contracts.

The host's row sink is modelled by the items streamed and by `rowsRemaining`, the number of rows the host still wanted when the listing began. The SDK's `RowsRemaining(ctx) == 0` test after an item becomes "`rowsRemaining` items have now been streamed".

Foreign calls are fields of a `Host` value, each a total function that returns a value or an error: `homedir.Expand`, `ClientConfig()`, `RawConfig()`, `rest.InClusterConfig`, and the two `NewForConfig` calls. Clients, when a listing takes one, are passed in as a `Result`. The environment variables are the `Environment` input.

Behaviour of the code worth noting:

- **Served version.** `ApplyVersionsLastServed` and `LastOfThreeServedVersions` show that the version in effect is the LAST served one in declared order, not the first. The code overwrites the context value for every served version and never breaks out of the loop.
- **Unserved CRDs.** A CRD that serves no version is registered with the version and schema left by the CRD before it (`UnservedInheritsVersion`). The code reuses the same context across CRDs.
- **Custom-resource listing.** It makes ONE request with empty list options. There is no page size and no token loop.
- **Malformed input.**
  - The code panics on a custom resource without the expected fields, and on a CRD without versions.
  - The model states these as the preconditions `WellFormedResource` and `|crd.versions| > 0`.
  - The CRD's first version is read before the client is obtained, so a CRD without versions fails before any client error could be returned.
- **Not-found cron jobs.** `getK8sCronJob` swallows a not-found error and returns the object the client returned alongside the error (`GetReply.obj`), not nothing.

## Model

| member | source | states |
|---|---|---|
| Utils.NotFoundIff | kubernetes/utils.go:339-341 | an error is a not-found error exactly when its message is some text followed by "not found" (both directions) |
| Utils.OptionalKeyQualWithCommonKeyQuals | kubernetes/utils.go:343-352 | the caller's qualifiers unchanged and in order, then optional `name`, then optional `namespace` |
| Utils.CommonOptionalKeyQualsValueForFieldSelector | kubernetes/utils.go:354-366 | one clause per non-empty qualifier (0–2 clauses); the `metadata.name=` clause first and the `metadata.namespace=` clause last |
| Utils.FieldSelectorBoth | kubernetes/table_kubernetes_cronjob.go:136-140 | with both qualifiers, the selector is the name clause, a comma, then the namespace clause |
| Utils.FieldSelectorNone | kubernetes/table_kubernetes_cronjob.go:136-140 | with no qualifier, no field selector is set |
| Utils.MergeTags | kubernetes/utils.go:368-377 | the keys are exactly the label keys plus the annotation keys; a label wins over an annotation with the same key; the inputs are values and stay unchanged |
| Utils.TagMergeUnique | kubernetes/utils.go:368-377 | that description determines the merged map: any two maps satisfying it are equal |
| Utils.ChooseConfigPaths | kubernetes/utils.go:184-195 | the priority of sources: explicit path, then a non-empty path list, then `KUBE_CONFIG_PATHS` split as a path list (no piece contains ":" and joining the pieces with ":" gives it back), then `KUBERNETES_MASTER`, then `~/.kube/config`; never empty |
| Strings.SplitList | kubernetes/utils.go:191-192 | a non-empty path list splits into at least one piece, no piece contains ":", and joining the pieces with ":" gives the list back; the empty string gives no paths |
| Utils.ExpandPaths | kubernetes/utils.go:197-207 | the expansion loop yields what expanding every path in order yields, stopping at the first error |
| Utils.ExpandAllSuccess | kubernetes/utils.go:197-207 | a successful expansion keeps the number and the order of the paths, each element being its path's expansion |
| Utils.ExpandAllFailure | kubernetes/utils.go:199-203 | a failed expansion returns the error of the first path that fails, and every earlier path expanded |
| Utils.LoaderFor | kubernetes/utils.go:209-213 | exactly one expanded path becomes the explicit path; any other count becomes the precedence list, in the same order |
| Utils.BuildK8ConfigLoader | kubernetes/utils.go:184-246 | the built kubeconfig loads the chosen paths, expanded (one as explicit path, several as precedence list), with the configured context as override; an expansion failure is some chosen path's error |
| Utils.FallbackOnlyForMissingFile | kubernetes/utils.go:108-126 | the in-cluster fallback is tried only when the error contains ".kube/config: no such file or directory"; its failure is reported as `configErr + ", " + err`; any other configuration error is returned as is |
| Utils.ConnectionCache.Get | kubernetes/utils.go:171-173 | the value stored under the key, if any |
| Utils.ConnectionCache.Set | kubernetes/utils.go:249 | the key now maps to the value and nothing else changes |
| Utils.GetK8Config | kubernetes/utils.go:164-252 | a cached kubeconfig is returned and nothing is built; otherwise the built one is returned and cached; an expansion error leaves the cache unchanged |
| Utils.GetClient | kubernetes/utils.go:91-145 | a cached client is returned with the cache unchanged; otherwise the client obtained from the kubeconfig (with the fallback) is stored under its key on success only; the cache keeps every key well typed |
| Utils.GetNewClientset | kubernetes/utils.go:91-145 | the typed client under "k8sClient": a cached one is returned with the cache unchanged and nothing built; otherwise the client obtained from the kubeconfig, and the whole new cache is the one after getK8Config plus the client under its key on success only |
| Utils.GetNewClientCRD | kubernetes/utils.go:28-72 | the same for the CRD client under "GetNewClientCRD", the whole new cache stated |
| Utils.AcquireTwice | kubernetes/utils.go:98-101 | after a successful acquisition the client is stored under its key, and a second acquisition returns the same client and builds nothing |
| Utils.GetKubectlContext | kubernetes/utils.go:256-285 | a cached context is returned; otherwise the configured context overrides the kubeconfig's raw current context and the result is cached; a kubeconfig error is returned with the cache unchanged |
| Paging.PageSize | kubernetes/table_kubernetes_cronjob.go:120-134 | the page size lies in [1, 500]: 500 without a limit or with a limit of at least 500, the limit when it is in [1, 500], and 1 below that |
| Paging.FirstTerminal | kubernetes/table_kubernetes_cronjob.go:144-155 | the index of the first reply that is an error or has no continuation token; every earlier reply continues |
| Paging.RequestsAt | kubernetes/table_kubernetes_cronjob.go:151-152 | request j keeps the first request's page size and selector; after the first, it carries the continuation token of reply j-1 |
| Paging.StreamPage | kubernetes/table_kubernetes_cronjob.go:157-164 | a page's items are streamed in order; streaming stops right after the item that exhausts the rows, and `stopped` says exactly whether that happened |
| Paging.ListPages | kubernetes/table_kubernetes_cronjob.go:142-167 | the listing loop makes exactly the requests of the token protocol, and its items, request count and error are those of `Protocol` |
| Paging.ProtocolExhausts | kubernetes/table_kubernetes_cronjob.go:142-167 | when the rows do not run out, every page up to the first terminal reply is requested and all its items are streamed in order; that reply's error, if any, is returned, and the items before it stay streamed |
| Paging.ProtocolStopsAtBudget | kubernetes/table_kubernetes_cronjob.go:157-164 | when the rows run out, exactly the rows still wanted are streamed, the first ones of the stream; no error is returned, and no request goes past the first terminal reply |
| Paging.ProtocolStopPage | kubernetes/table_kubernetes_cronjob.go:157-164 | when the rows run out, the last page requested is the one holding the last wanted row: no further request is made |
| CronJob.ListCronJobs | kubernetes/table_kubernetes_cronjob.go:111-168 | a client error is returned before any request; otherwise the requests are those of the protocol from the clamped page size and the rendered selector, and the outcome is `Protocol` on the replies |
| CronJob.CronJobRequests | kubernetes/table_kubernetes_cronjob.go:120-155 | every request of a cron-job listing has a page size in [1, 500] and the same field selector; the first carries no token; each later one carries the previous reply's token |
| CronJob.GetCronJob | kubernetes/table_kubernetes_cronjob.go:170-194 | a client error is returned; an empty name or namespace returns nothing and makes no call; otherwise one get by namespace and name; a not-found error yields the returned object, and any other error is returned |
| CronJob.TransformCronJobTags | kubernetes/table_kubernetes_cronjob.go:198-201 | the tags are the labels merged over the annotations |
| CustomResourceDefinition.ListCustomResourceDefinitions | kubernetes/table_kubernetes_custom_resource_definition.go:41-92 | a client error is returned before any request; otherwise the protocol runs with the clamped page size and never a field selector |
| CustomResourceDefinition.GetCustomResourceDefinition | kubernetes/table_kubernetes_custom_resource_definition.go:94-111 | one get by the `name` qualifier; every error, not-found included, is returned; otherwise the object |
| Plugin.BuiltinTables | kubernetes/plugin.go:41-71 | the 29 built-in names, each mapped to its built-in table |
| Plugin.LastServed | kubernetes/plugin.go:82-91 | the index of a served version after which no version is served; None exactly when none is served |
| Plugin.UseVersionTwice | kubernetes/plugin.go:84-85 | a later served version overwrites both the version in effect and its schema |
| Plugin.ApplyVersionsLastServed | kubernetes/plugin.go:82-91 | after a CRD's versions, the version in effect is the last served one with its spec schema; with none served, the context is unchanged |
| Plugin.RegisterKeys | kubernetes/plugin.go:78-95 | the final keys are the initial keys plus every CRD name |
| Plugin.RegisterKeepsExisting | kubernetes/plugin.go:92-94 | an entry present before the loop, built-in or not, is never replaced |
| Plugin.RegisterFirstWins | kubernetes/plugin.go:78-95 | a name not yet a key gets the table of the first CRD with that name, built from a context that names that CRD, its plural and group, and its last served version and schema |
| Plugin.TableMapKeys | kubernetes/plugin.go:41-97 | the table map's keys are the built-in names plus the CRD names; every built-in table is kept |
| Plugin.LastOfThreeServedVersions | kubernetes/plugin.go:82-91 | versions v1alpha1 (unserved), v1beta1 and v1 (served) yield a table on v1 |
| Plugin.UnservedInheritsVersion | kubernetes/plugin.go:78-94 | a CRD serving no version is registered with the previous CRD's last served version |
| Plugin.ListDynamicCrds | kubernetes/plugin.go:100-133 | a client error makes no request; otherwise pages of 500 are requested with the tokens carried forward, up to and including the first terminal reply; the result is all pages' items in order, or the error with nothing gathered |
| Plugin.PluginTableDefinitions | kubernetes/plugin.go:39-98 | a discovery error fails the whole table map with that error; otherwise the map is the built-ins plus the registration of every discovered CRD |
| CrdResource.TrimRightQuotes | kubernetes/table_kubernetes_crd_resource.go:64 | the result is no longer than the input and does not end with a double quote |
| CrdResource.TrimRightQuotesPrefix | kubernetes/table_kubernetes_crd_resource.go:64 | the result is a prefix of the input, and only double quotes were removed |
| CrdResource.TrimLeftQuotes | kubernetes/table_kubernetes_crd_resource.go:64 | the result is no longer than the input and does not start with a double quote |
| CrdResource.TrimLeftQuotesSuffix | kubernetes/table_kubernetes_crd_resource.go:64 | the result is a suffix of the input, and only double quotes were removed |
| CrdResource.TrimQuotesPiece | kubernetes/table_kubernetes_crd_resource.go:64 | the trimmed annotation is a contiguous piece of the input; only double quotes lie outside it, and it neither starts nor ends with one |
| CrdResource.TrimQuotesUnquoted | kubernetes/table_kubernetes_crd_resource.go:64 | a value that neither starts nor ends with a double quote is unchanged |
| CrdResource.TrimQuotesIdempotent | kubernetes/table_kubernetes_crd_resource.go:64 | trimming twice gives what trimming once gives |
| CrdResource.TrimQuotesQuoted | kubernetes/table_kubernetes_crd_resource.go:64 | a value quoted once on each side comes back unquoted |
| CrdResource.BuildResource | kubernetes/table_kubernetes_crd_resource.go:64-71 | the object built from an envelope has every field the extraction asserts, with the asserted types |
| CrdResource.ExtractBuild | kubernetes/table_kubernetes_crd_resource.go:64-73 | extraction inverts building: kind, apiVersion, name, namespace and annotation are read back, and spec is carried through verbatim, quoted annotation or not |
| CrdResource.ResourceId | kubernetes/table_kubernetes_crd_resource.go:41-54 | the resource is the CRD's group, its first declared version (served or not) and its plural |
| CrdResource.Reached | kubernetes/table_kubernetes_crd_resource.go:75-78 | the number of items streamed is the rows still wanted when they run out within the page, and the whole page otherwise |
| CrdResource.Envelopes | kubernetes/table_kubernetes_crd_resource.go:61-73 | one envelope per object |
| CrdResource.EnvelopesAt | kubernetes/table_kubernetes_crd_resource.go:61-73 | the k-th envelope is the k-th object's: order is kept |
| CrdResource.StreamEnvelopes | kubernetes/table_kubernetes_crd_resource.go:61-79 | the envelopes of the items in order, up to and including the one that exhausts the rows |
| CrdResource.ListCrdResources | kubernetes/table_kubernetes_crd_resource.go:37-82 | a client error is returned before any request; otherwise exactly one request, for the CRD's resource with empty options; its error is returned as is; otherwise the envelopes are streamed in order, stopping successfully when the rows run out |

## Left out

- The client-go, apiextensions, dynamic-client and go-homedir calls are not modelled. Each becomes a field of `Host`, or a client or reply outcome passed in, because their behaviour is outside the plugin.
- Environment variables and the connection configuration are inputs. `GetConfig` and the configuration schema are not part of this model.
- `GetNewClientCRDRaw` and `GetNewClientDynamic` are not part of this model. `ListDynamicCrds` and `ListCrdResources` take their outcome as a `Result`.
- The network is modelled as a finite reply sequence whose last reply ends the listing. A server that hands out continuation tokens forever is not modelled.
- Cancellation from outside (a caller disconnect or deadline) is not modelled. The SDK reports it through the same `RowsRemaining` test, so only the row limit is modelled.
- `rowsRemaining` is the count wanted at entry. The SDK's internal counting, and a starting count of 0, are not modelled beyond "stop once that many rows are streamed".
- Logging, tracing and the column definitions of every table are left out. This covers `tableKubernetesCustomResource` and the other table constructors, and the schema-to-column mapping they perform. A custom-resource table is represented by the context values it is built from.
- The transforms `v1TimeToRFC3339`, `labelSelectorToString` and `selectorMapToString` (kubernetes/utils.go:289-335) are left out. They format values for display and hold no control logic.
- The context override in `getK8Config` also resets `overrides.Context` to an empty value. That is not modelled, because the model reduces `ConfigOverrides` to the current context.
- The error of `RawConfig()` is ignored by the code. The model takes the raw current context as a total function.
- Concurrency between queries sharing the cache is not modelled. Every operation on `ConnectionCache` runs to completion on its own.
- `context.WithValue` chains are modelled as a map from key to the last value written, which is all a lookup can observe.
- `CrdResource.ListCrdResources`: a malformed object, or a CRD without versions, makes the code panic. The model instead requires well-formed items and at least one version, so the panic itself is not modelled.
- `CrdResource.ExtractEnvelope` carries no contract of its own. Its meaning is stated by `ExtractBuild` and `EnvelopesAt`.
