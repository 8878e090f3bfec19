# flux-webhooks: the Docker Hub webhook reconciler, in Dafny

`flux-webhooks` is a command-line tool. It keeps Docker Hub webhooks in line
with Flux `Receiver` objects in a Kubernetes cluster, in two steps.

* **List** (`cmd/dockerhub_list.go`). It lists the cluster's Flux `ImageRepository`
  objects and its notification `Receiver` objects. It indexes the repositories
  by `apiVersion/kind/namespace/name`. For every resource reference of every
  Docker Hub receiver that has a webhook path, it looks up the referenced
  repository. The reference's namespace defaults to the receiver's own, and the
  API version is forced to `image.toolkit.fluxcd.io/v1beta2`. Each match
  yields a desired webhook `RepositoryReceiver{image, namespace/name, path}`
  stored under `image:namespace/name`.
* **Create** (`cmd/dockerhub_create.go`). It builds one Docker Hub payload per
  desired webhook: the base URL with its path replaced by the receiver's path.
  Payloads are grouped by image repository. For each repository, the tool
  reads the registered webhooks. It stops on a failed listing, on more than 100
  webhooks, or on a listed entry without exactly one sub-webhook. Otherwise it
  creates every payload whose callback URL is not registered. A failed create
  is only logged.

The model has three modules:

* `Wrappers` (`wrappers.dfy`): `Option` and `Result`.
* `DockerHubList` (`dockerhub_list.dfy`): the list step.
* `DockerHubCreate` (`dockerhub_create.dfy`): the create step.

Both steps are loops in the source, so each is an imperative Dafny method, split
into one method per loop. Each method is proved equal to a specification
function:

* `ListRepositoryReceivers` returns `Correlate(repositories, receivers)`.
* `CreateMissingWebhooks` returns the error and the sequence of create requests
  given by `Reconcile(...)`. Its failure reports are `FailedCreates(...)`.

The properties are lemmas about those functions.

Three points of the code that the model follows:

* Every payload is built before Docker Hub is contacted, and the first payload error ends the run (`GroupPayloads`, `Reconcile`).
* Desired webhooks are keyed by `image:namespace/name` of the receiver (`Entry`).
* Only status 201 counts as a successful create; any other status, other 2xx included, is a failure (`CreateWebhookError`).

How the outside world is represented:

* **Cluster listings.** The two Kubernetes listings are inputs of type
  `Result<seq<...>, string>`.
* **Listing webhooks.** Docker Hub's answer to the webhook listing of a
  repository is a function `remote` from repository to
  `Result<GetDockerHubWebhooksResponse, string>`.
* **Create requests.** The outcome of the k-th create request is `respond(k)`,
  either a transport failure or an HTTP status and body.
* **URL library.** The parts of `net/url` used are left uninterpreted in
  `UrlLibrary`: whether the base URL parses, and the string form of the URL
  with its path replaced.
* **Map iteration order.** Go iterates the repository map in an unspecified
  order. The model takes that order as a parameter `order` that visits every
  repository exactly once (`EnumeratesOnce`), and the lemmas hold for every
  such order.

## Model

| member | source | states |
|---|---|---|
| `DockerHubList.ListRepositoryReceivers` | cmd/dockerhub_list.go:38-94 | A failed image-repository listing gives the repository-listing error. A failed receiver listing gives the receiver-listing error. When both succeed, the result is `Correlate` of the two lists. |
| `DockerHubList.IndexRepositoryList` | cmd/dockerhub_list.go:49-54 | The loop's map is the index of all listed repositories, each under its `apiVersion/kind/namespace/name` key, later entries replacing earlier ones. |
| `DockerHubList.CorrelateReceivers` | cmd/dockerhub_list.go:61-91 | The loop's map is the result of inserting, in loop order, every entry the Docker Hub receivers produce; later insertions replace earlier ones. |
| `DockerHubList.InsertReferences` | cmd/dockerhub_list.go:67-89 | The inner loop inserts one receiver's entries in reference order. The namespace defaults to the receiver's and the API version is forced before the key is built. A reference is skipped when the receiver has no webhook path or the key is not indexed. |
| `DockerHubList.LastWinsKeys` | cmd/dockerhub_list.go:52 | A key is in a map built by successive assignments iff some assignment used it. |
| `DockerHubList.LastWinsValue` | cmd/dockerhub_list.go:83-87 | Every value of such a map was assigned under its key. |
| `DockerHubList.LastWinsLatest` | cmd/dockerhub_list.go:52 | The last assignment to a key gives its value. |
| `DockerHubList.LastWinsAppend` | cmd/dockerhub_list.go:83-87 | Assigning `a` and then `b` gives the union of the two maps, with `b` taking precedence. |
| `DockerHubList.IndexSound` | cmd/dockerhub_list.go:49-52 | Every indexed repository is a listed one, stored under its own key. |
| `DockerHubList.IndexKeys` | cmd/dockerhub_list.go:49-52 | The index's keys are exactly the keys of the listed repositories. |
| `DockerHubList.IndexLastWriter` | cmd/dockerhub_list.go:49-52 | Of several repositories listed with one key, the last one is indexed. |
| `DockerHubList.ReferencesEntriesSound` | cmd/dockerhub_list.go:67-89 | Every entry inserted for a receiver's references comes from one particular reference. |
| `DockerHubList.ReferencesEntriesComplete` | cmd/dockerhub_list.go:67-89 | What any single reference inserts is among the receiver's insertions. |
| `DockerHubList.EntriesSound` | cmd/dockerhub_list.go:62-91 | Every inserted entry comes from a reference of a receiver with type `dockerhub` and a non-empty webhook path. The reference's key must be indexed, and the entry is that repository's image with the receiver's `namespace/name` and path. |
| `DockerHubList.EntriesComplete` | cmd/dockerhub_list.go:62-91 | Every such reference inserts its entry. |
| `DockerHubList.EntriesAppend` | cmd/dockerhub_list.go:62-91 | The insertions for `a ++ b` are those for `a` followed by those for `b`. |
| `DockerHubList.InactiveReferencesInsertNothing` | cmd/dockerhub_list.go:74-77 | A receiver with an empty webhook path inserts nothing, whatever its references. |
| `DockerHubList.CorrelateSound` | cmd/dockerhub_list.go:66-88 | Every output webhook comes from a `dockerhub` receiver with a webhook path and a reference whose key names a listed repository. Its repository is that repository's image, its name the receiver's `namespace/name`, its path the receiver's webhook path, and its key `repository + ":" + name`. |
| `DockerHubList.CorrelateComplete` | cmd/dockerhub_list.go:66-88 | Every reference of an active `dockerhub` receiver that names a listed repository yields an output under `image:namespace/name`, the image being that of the last repository listed with the key. |
| `DockerHubList.CorrelateStores` | cmd/dockerhub_list.go:61-91 | Under `image:namespace/name` of such a reference lies `RepositoryReceiver(image, namespace/name, webhook path)` of that receiver, the image being that of the last repository listed with the key, when no other receiver has the same namespace and name. |
| `DockerHubList.IgnoredReceiverContributesNothing` | cmd/dockerhub_list.go:66-77 | A receiver of another type, or one with an empty webhook path, leaves the result unchanged wherever it stands in the list. |
| `DockerHubList.ReceiverEntriesAgree` | cmd/dockerhub_list.go:81-87 | Two entries one receiver inserts under the same key are equal. |
| `DockerHubList.LaterReceiverOverwrites` | cmd/dockerhub_list.go:83-87 | A key inserted by the last receiver maps to that receiver's webhook, whatever earlier receivers stored there. |
| `DockerHubList.ObjectKeyInjective` | cmd/dockerhub_list.go:51 | Two `apiVersion/kind/namespace/name` keys are equal iff their parts are, when kind, namespace and name contain no `/`. |
| `DockerHubList.ReferenceMatchesRepository` | cmd/dockerhub_list.go:68-73 | A reference names a repository iff the repository has API version `image.toolkit.fluxcd.io/v1beta2`, the reference's kind and name, and the reference's namespace or, when that is empty, the receiver's. |
| `DockerHubCreate.CreateWebhookError` | cmd/dockerhub_create.go:161-168 | A create answer is an error iff it is not an HTTP 201; a transport error is reported as it is. |
| `DockerHubCreate.NewDockerHubWebhook` | cmd/dockerhub_create.go:171-188 | Succeeds iff the base URL parses; otherwise gives the parse error. The payload is named after the receiver, expects no final callback, and has one sub-webhook of that name whose URL is the base URL with the receiver's path. |
| `DockerHubCreate.GroupPayloads` | cmd/dockerhub_create.go:91-99 | Building the payloads fails iff there is a desired webhook and the base URL does not parse. Otherwise the groups are keyed by exactly the desired repositories and each payload has one sub-webhook. |
| `DockerHubCreate.GroupWebhooks` | cmd/dockerhub_create.go:91-99 | The first loop returns `GroupPayloads`. |
| `DockerHubCreate.GroupFailurePersists` | cmd/dockerhub_create.go:92-96 | Once a payload fails, no later desired webhook changes the outcome. |
| `DockerHubCreate.GroupsPreserveInputOrder` | cmd/dockerhub_create.go:91-99 | A repository's group is the payloads of its desired webhooks, in input order. |
| `DockerHubCreate.TargetsForMembership` | cmd/dockerhub_create.go:98 | The desired webhooks selected for a repository are those whose `Repository` it is. |
| `DockerHubCreate.PayloadsMembership` | cmd/dockerhub_create.go:92-98 | The payloads built are those of the desired webhooks. |
| `DockerHubCreate.GroupMembership` | cmd/dockerhub_create.go:92-98 | A payload is in a repository's group iff it is the payload of a desired webhook for that repository. |
| `DockerHubCreate.Reconcile` | cmd/dockerhub_create.go:92-96 | If a payload cannot be built, the run returns that error with no create request, before any listing. |
| `DockerHubCreate.CreateMissingWebhooks` | cmd/dockerhub_create.go:90-135 | The error returned and the create requests issued are those of `Reconcile`, for the given iteration order. The failed creates reported are `FailedCreates` of those requests. |
| `DockerHubCreate.CreateForRepositories` | cmd/dockerhub_create.go:101-132 | The loop over repositories returns the outcome of `ReconcileRepositories`: it stops at the first failing repository. |
| `DockerHubCreate.CreateForRepository` | cmd/dockerhub_create.go:102-131 | One repository: on failure, its error with no new create request; otherwise the create requests of `ReconcileRepository`; failures recorded. |
| `DockerHubCreate.ExistingUrlSet` | cmd/dockerhub_create.go:111-118 | The URL loop returns `ExistingUrls`. |
| `DockerHubCreate.UrlsFailurePersists` | cmd/dockerhub_create.go:112-115 | Once an entry is rejected, later entries do not change the outcome. |
| `DockerHubCreate.IssueCreates` | cmd/dockerhub_create.go:120-131 | The create loop issues `MissingCalls`, each request numbered after those already issued, and records each failure. |
| `DockerHubCreate.IssueCreate` | cmd/dockerhub_create.go:123-127 | One create request is issued; it is recorded as failed exactly when its answer is an error. |
| `DockerHubCreate.ExistingUrlsSpec` | cmd/dockerhub_create.go:111-118 | A listing is accepted iff every entry has exactly one sub-webhook. The URL set is then that of all entries; otherwise the error names the first entry of another shape. |
| `DockerHubCreate.ExistingUrlsAccepted` | cmd/dockerhub_create.go:111-118 | An accepted listing has only one-sub-webhook entries, and its URL set is theirs. |
| `DockerHubCreate.ExistingUrlsRejected` | cmd/dockerhub_create.go:112-115 | A rejected listing's error names its first entry without exactly one sub-webhook. |
| `DockerHubCreate.MissingCallsMembership` | cmd/dockerhub_create.go:120-130 | A create request is issued for a payload of the repository iff the payload's URL is not registered. |
| `DockerHubCreate.MissingCallsAllAbsent` | cmd/dockerhub_create.go:111-131 | If no URL is registered, every payload is created, in order; two payloads sharing a URL are both created. |
| `DockerHubCreate.MissingCallsAllPresent` | cmd/dockerhub_create.go:120-130 | If every URL is registered, nothing is created. |
| `DockerHubCreate.RepositoryFailsIff` | cmd/dockerhub_create.go:103-118 | A repository ends the run iff its listing fails, reports a count above 100, or has an entry without exactly one sub-webhook; the first two give their own errors. |
| `DockerHubCreate.RepositoryCreatesIffUrlAbsent` | cmd/dockerhub_create.go:111-130 | For an accepted listing, a payload is created iff no listed entry has its URL. |
| `DockerHubCreate.NamesIgnored` | cmd/dockerhub_create.go:117-122 | Two accepted listings with the same URLs lead to the same creates, whatever their entries are named. |
| `DockerHubCreate.AllPresentCreatesNothing` | cmd/dockerhub_create.go:111-131 | An accepted listing that has every desired URL leads to no create. |
| `DockerHubCreate.SecondPassCreatesNothing` | cmd/dockerhub_create.go:101-131 | Once a pass's creates show in the listing, a second pass over the same payloads creates nothing, provided the count still fits one page. |
| `DockerHubCreate.ReconcileRepositoriesAppend` | cmd/dockerhub_create.go:101-132 | Processing `a` then `b`: an error in `a` stops everything, otherwise `b`'s creates follow `a`'s. |
| `DockerHubCreate.ReconcileRepositoriesSucceeds` | cmd/dockerhub_create.go:101-134 | The run returns no error iff every repository processed succeeds; failed creates do not count. |
| `DockerHubCreate.FirstFailure` | cmd/dockerhub_create.go:101-118 | A failing run returns the error of the first failing repository, with the creates of the repositories before it. |
| `DockerHubCreate.AbortStopsLaterRepositories` | cmd/dockerhub_create.go:103-118 | When `order[k]` is the first to fail, the run returns its error with the creates of `order[..k]`. Every create is for a repository before it. |
| `DockerHubCreate.CreatesAreForListedRepositories` | cmd/dockerhub_create.go:101-131 | Every create request of the loop belongs to the pass of its own repository in `order`. |
| `DockerHubCreate.MissingCallsOfRepository` | cmd/dockerhub_create.go:120-124 | A repository's create requests are all for that repository. |
| `DockerHubCreate.CreatesOfEveryRepository` | cmd/dockerhub_create.go:101-131 | In an error-free run, every create request of every repository's pass is issued. |
| `DockerHubCreate.CreatesAreDesired` | cmd/dockerhub_create.go:90-135 | Every create request of a run is the payload of a desired webhook, for its repository, whose URL that repository's listing does not have. |
| `DockerHubCreate.CreatesAreComplete` | cmd/dockerhub_create.go:90-135 | In an error-free run, every desired webhook whose URL its repository's listing lacks is created. |
| `DockerHubCreate.RerunCreatesNothing` | cmd/dockerhub_create.go:101-132 | When every listing shows the previous pass's creates, a second run issues nothing and returns no error. |
| `DockerHubCreate.FailedCreatesSound` | cmd/dockerhub_create.go:124-127 | A reported failure is a create request whose answer is not a 201, with that answer's error. |
| `DockerHubCreate.FailedCreatesComplete` | cmd/dockerhub_create.go:124-127 | Every create request whose answer is not a 201 is reported, including those after an earlier failure. |
| `DockerHubCreate.AllCreatedNoFailures` | cmd/dockerhub_create.go:124-127 | When every answer is a 201, no failure is reported. |

## Left out

- Command-line plumbing is not modelled: the cobra commands, flag wiring, `RunE` bodies and context timeouts (`cmd/root.go`, `cmd/dockerhub.go`, the `init` functions).
- `GetToken` and `readFromStdin` are not modelled. They are a Docker Hub login client and terminal input; the token is passed through untouched, so the model has no token at all.
- `GetWebhooksForRepository` and `CreateWebhookForRepository` are not modelled as HTTP calls: they are represented by `remote` and by `respond` with `CreateWebhookError`. The request URLs, the `page_size` parameter, JSON encoding and the HTTP client's handling of non-2xx listing answers (no error, a zero-valued body) are not modelled; a listing is whatever `remote` returns.
- The `net/url` library is abstract (`UrlLibrary`). `baseUrl.String()` is taken to be the base URL string itself.
- The Kubernetes client (`kube/client.go`) and list options are not modelled. The error of `kube.NewClient` is discarded by the code. On that error the client is nil, so the first listing call panics; that panic is not modelled either.
- Logging (`slog`, `cmd/logger.go`) is not modelled, except that the failed creates are returned as the `failures` sequence.
- Go map iteration order is a parameter, `order`.
- Error values are constructors of `ListError` and `CreateError` carrying their causes, not formatted Go error strings.
- Only the fields of the Kubernetes and Docker Hub objects that the code reads are kept; `Next` is kept but unused, as in the code.
- `HookUrl` is total and gives the empty string for a pipeline without sub-webhooks. The code never reads such a pipeline's URL: payloads always have one sub-webhook, and listed entries are checked before their URL is read.
- Concurrency and context cancellation of the create requests are not modelled.
- ReferenceMatchesRepository and ObjectKeyInjective: stated only for kinds, namespaces and names without `/`; Kubernetes object names, namespaces and kinds cannot contain one. With a `/`, two different references could share a lookup key.
- CorrelateStores: stated only for receivers whose namespaces contain no `:` and whose names contain no `/`, and whose namespace and name no other receiver shares; Kubernetes guarantees all three. Without them two receivers could write the same `image:namespace/name` key, and the last one would win.
- SecondPassCreatesNothing and RerunCreatesNothing: idempotence is stated for a second listing that holds the first listing's entries plus one entry per create request, with the count raised accordingly and still at most 100. The code itself does not guarantee what Docker Hub lists.
